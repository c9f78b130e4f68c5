/** Who owns a name: zones of different tenants never overlap, so a DNS name lies inside the
zones of at most one tenant and the longest zone containing it is unique
(internal/store/models.go, internal/memstore/memstore.go). */
module Ownership {
  import opened Names
  import opened Wrappers
  import opened Model
  import opened Memstore

  ghost predicate NoOverlap(zones: Rows) {
    forall a, b :: a in zones && b in zones && zones[a].tenant != zones[b].tenant ==>
      !Overlaps(zones[a].name, zones[b].name)
  }

  // ----- the longest zone

  /** z is a zone of the list containing the name, and none containing it is longer. */
  ghost predicate IsLongest(all: seq<Zone>, fqdn: string, z: Zone) {
    && z in all && InZone(fqdn, z.name)
    && forall x :: x in all && InZone(fqdn, x.name) ==> |x.name| <= |z.name|
  }

  ghost predicate NoneContains(all: seq<Zone>, fqdn: string) {
    forall x :: x in all ==> !InZone(fqdn, x.name)
  }

  method LongestZone(all: seq<Zone>, fqdn: string) returns (best: Option<Zone>)
    ensures best.Some? ==> IsLongest(all, fqdn, best.value)
    ensures best.None? ==> NoneContains(all, fqdn)
  {
    hide InZone;
    best := None;
    var i := 0;
    while i < |all|
      invariant 0 <= i <= |all|
      invariant best.Some? ==> IsLongest(all[..i], fqdn, best.value)
      invariant best.None? ==> NoneContains(all[..i], fqdn)
    {
      var z := all[i];
      if InZone(fqdn, z.name) && (best.None? || |z.name| > |best.value.name|) {
        best := Some(z);
      }
      assert all[..i + 1] == all[..i] + [z];
      i := i + 1;
    }
    assert all[..i] == all;
  }

  /** The answer does not depend on the order of the list, and zones of any two tenants that
  contain the name belong to one tenant. */
  lemma LongestIsUnique(zones: Rows, all: seq<Zone>, other: seq<Zone>, tenant: string, fqdn: string, a: Zone, b: Zone)
    requires ZonesOK(zones) && Lists(all, zones, tenant) && Lists(other, zones, tenant)
    requires IsLongest(all, fqdn, a) && IsLongest(other, fqdn, b)
    ensures a == b
  {
    hide InZone;
    assert zones[a.id] == a && zones[b.id] == b;
    assert a in other && b in all;
    ZonesOfNameNest(fqdn, a.name, b.name);
  }

  /** A name lies inside the zones of at most one tenant. */
  lemma NameHasOneTenant(zones: Rows, fqdn: string, a: string, b: string)
    requires NoOverlap(zones) && a in zones && b in zones
    requires InZone(fqdn, zones[a].name) && InZone(fqdn, zones[b].name)
    ensures zones[a].tenant == zones[b].tenant
  {
    ZonesOfNameNest(fqdn, zones[a].name, zones[b].name);
  }

  // ----- runs of whole calls

  predicate SameIdentity(a: Zone, b: Zone) {
    a.id == b.id && a.tenant == b.tenant && a.name == b.name && a.pdnsId == b.pdnsId
  }

  ghost predicate Inserts(a: Rows, b: Rows, z: Zone) {
    !NameTaken(a, z) && b == a[z.id := z]
  }

  ghost predicate Rewrites(a: Rows, b: Rows, z: Zone) {
    z.id in a && SameIdentity(a[z.id], z) && b == a[z.id := z]
  }

  /** What one whole Create, Update, Delete or Import of one zone does to the rows: the
  overlap check and the insert are one step. */
  ghost predicate Atomic(a: Rows, b: Rows) {
    || a == b
    || (exists z :: Inserts(a, b, z) && !Conflict(a, z.tenant, z.name))
    || (exists z :: Rewrites(a, b, z))
    || (exists id :: b == a - {id})
  }

  /** What a single store call does: the insert guards equal names only, whatever was checked
  before it. */
  ghost predicate Raw(a: Rows, b: Rows) {
    || a == b
    || (exists z :: Inserts(a, b, z))
    || (exists z :: Rewrites(a, b, z))
    || (exists id :: b == a - {id})
  }

  /** An insert keeps tenants apart exactly when no other tenant's zone overlaps at that moment. */
  lemma InsertKeepsApart(a: Rows, b: Rows, z: Zone)
    requires NoOverlap(a) && Inserts(a, b, z)
    ensures NoOverlap(b) <==> !Conflict(a, z.tenant, z.name)
  {
    if NoOverlap(b) {
      forall id | id in a && a[id].tenant != z.tenant ensures !Overlaps(z.name, a[id].name) {
        assert b[id] == a[id] && b[z.id] == z;
      }
    } else {
      var x, y :| x in b && y in b && b[x].tenant != b[y].tenant && Overlaps(b[x].name, b[y].name);
      OverlapsIsNesting(b[x].name, b[y].name);
      if x == z.id {
        assert y in a && Overlaps(z.name, a[y].name);
      } else if y == z.id {
        assert x in a && Overlaps(z.name, a[x].name);
      }
    }
  }

  lemma AtomicKeepsApart(a: Rows, b: Rows)
    requires Atomic(a, b) && NoOverlap(a) && ZonesOK(a)
    ensures NoOverlap(b) && ZonesOK(b)
  {
    RawKeepsUnique(a, b);
    if z :| Inserts(a, b, z) && !Conflict(a, z.tenant, z.name) {
      InsertKeepsApart(a, b, z);
    }
  }

  lemma RawKeepsUnique(a: Rows, b: Rows)
    requires Raw(a, b) && ZonesOK(a)
    ensures ZonesOK(b)
  {
  }

  /** Over every run of whole calls by any tenants, zones of different tenants never overlap. */
  lemma {:induction false} RunsNeverOverlap(trace: seq<Rows>, n: nat)
    requires n < |trace| && NoOverlap(trace[0]) && ZonesOK(trace[0])
    requires forall i :: 0 <= i < |trace| - 1 ==> Atomic(trace[i], trace[i + 1])
    ensures NoOverlap(trace[n]) && ZonesOK(trace[n])
  {
    if n > 0 {
      RunsNeverOverlap(trace, n - 1);
      assert Atomic(trace[n - 1], trace[n - 1 + 1]);
      AtomicKeepsApart(trace[n - 1], trace[n]);
    }
  }

  /** Under any interleaving of calls zone names and server ids stay globally unique. */
  lemma {:induction false} InterleavedNamesUnique(trace: seq<Rows>, n: nat)
    requires n < |trace| && ZonesOK(trace[0])
    requires forall i :: 0 <= i < |trace| - 1 ==> Raw(trace[i], trace[i + 1])
    ensures ZonesOK(trace[n])
  {
    if n > 0 {
      InterleavedNamesUnique(trace, n - 1);
      assert Raw(trace[n - 1], trace[n - 1 + 1]);
      RawKeepsUnique(trace[n - 1], trace[n]);
    }
  }

  /** Overlap freedom does need the check and the insert to be one step: two creates that both
  check before either inserts end with a zone inside another tenant's. */
  lemma InterleavedCreatesOverlap(z1: Zone, z2: Zone)
    requires z1.tenant != z2.tenant && z1.id != z2.id && z1.pdnsId == z1.name && z2.pdnsId == z2.name
    requires z1.name == "corp.example." && z2.name == "dev.corp.example."
    ensures var start: Rows := map[]; var one := start[z1.id := z1]; var two := one[z2.id := z2];
            && !Conflict(start, z1.tenant, z1.name) && !Conflict(start, z2.tenant, z2.name)
            && Raw(start, one) && Raw(one, two) && NoOverlap(one) && !NoOverlap(two)
  {
    var start: Rows := map[];
    var one := start[z1.id := z1];
    var two := one[z2.id := z2];
    assert Inserts(start, one, z1);
    assert z1.name != z2.name by { assert |z1.name| != |z2.name|; }
    assert Inserts(one, two, z2);
    assert z2.name[3..] == "." + z1.name;
    assert Overlaps(two[z1.id].name, two[z2.id].name);
  }
}
