/** Where the IPAM sync writes an address (internal/ipamsync/plan.go): an existing zone of the
tenant, the longest first, or the zone to create. */
module Plan {
  import opened Strings
  import opened Names
  import opened Wrappers
  import opened Model
  import opened RecordSets
  import opened Memstore
  import opened Zones
  import opened ReverseNames

  const COMMENT := "managed by IPAM sync"

  /** What the sync is configured with. `registrable` is the registrable domain of a host per
  the Public Suffix List, `literal` the canonical text of an address. */
  datatype SyncEnv = SyncEnv(base: Env, registrable: string -> Option<string>, literal: Addr -> string, ttl: int)

  function TypeOf(a: Addr): RRType
    requires ValidAddr(a)
  {
    if Unmap(a).V4? then A else AAAA
  }

  predicate AddressType(t: RRType) { t.A? || t.AAAA? }

  /** What the parser and the configuration are trusted for: address literals are canonical
  rdata, a zone without primaries needs none, and the TTL is within the limits. */
  ghost predicate SyncLaws(env: SyncEnv) {
    && ParserLaws(env.base.rules)
    && (forall a :: ValidAddr(a) && Unmap(a) == a ==>
          env.base.rules.content(TypeOf(a), env.literal(a)) == Some(env.literal(a)))
    && env.base.masters([]) == Some([])
    && env.base.rules.minTTL <= env.ttl <= env.base.rules.maxTTL && env.base.rules.maxValues >= 1
  }

  /** A host name the sync manages: at least two LDH labels, outside the reverse trees. */
  function CanonicalHost(h: string): Option<string> {
    var fq := Hostname(h);
    if fq.Some? && !IsReverse(fq.value) then fq else None
  }

  // ----- the longest zone of one tree

  ghost predicate InTree(z: Zone, name: string, reverse: bool) {
    IsReverse(z.name) == reverse && InZone(name, z.name)
  }

  /** The tenant's longest forward (or reverse) zone containing the name. */
  ghost predicate BestZone(zones: Rows, tenant: string, name: string, reverse: bool, z: Zone) {
    && OwnedBy(zones, tenant, z.id) && zones[z.id] == z && InTree(z, name, reverse)
    && forall id :: OwnedBy(zones, tenant, id) && InTree(zones[id], name, reverse) ==> |zones[id].name| <= |z.name|
  }

  ghost predicate NoZone(zones: Rows, tenant: string, name: string, reverse: bool) {
    forall id :: OwnedBy(zones, tenant, id) ==> !InTree(zones[id], name, reverse)
  }

  lemma BestZoneUnique(zones: Rows, tenant: string, name: string, reverse: bool, a: Zone, b: Zone)
    requires ZonesOK(zones) && BestZone(zones, tenant, name, reverse, a) && BestZone(zones, tenant, name, reverse, b)
    ensures a == b
  {
    ZonesOfNameNest(name, a.name, b.name);
  }

  method Longest(all: seq<Zone>, name: string, reverse: bool) returns (best: Option<Zone>)
    ensures best.Some? ==>
              && best.value in all && InTree(best.value, name, reverse)
              && forall x :: x in all && InTree(x, name, reverse) ==> |x.name| <= |best.value.name|
    ensures best.None? ==> forall x :: x in all ==> !InTree(x, name, reverse)
  {
    hide InZone, IsReverse;
    best := None;
    var i := 0;
    while i < |all|
      invariant 0 <= i <= |all|
      invariant best.Some? ==>
                  && best.value in all[..i] && InTree(best.value, name, reverse)
                  && forall x :: x in all[..i] && InTree(x, name, reverse) ==> |x.name| <= |best.value.name|
      invariant best.None? ==> forall x :: x in all[..i] ==> !InTree(x, name, reverse)
    {
      var z := all[i];
      assert all[..i + 1] == all[..i] + [z];
      if IsReverse(z.name) == reverse && InZone(name, z.name) && (best.None? || |z.name| > |best.value.name|) {
        best := Some(z);
      }
      i := i + 1;
    }
    assert all[..i] == all;
  }

  // ----- plans

  /** An existing zone by id, or the name of the zone to create. */
  datatype Target = Existing(id: string) | New(zone: string)

  /** The target is what the tenant's zones and the name to create say. */
  ghost predicate Chosen(zones: Rows, tenant: string, name: string, reverse: bool, newZone: Option<string>, t: Target) {
    match t
    case Existing(id) => id in zones && BestZone(zones, tenant, name, reverse, zones[id])
    case New(zone) => NoZone(zones, tenant, name, reverse) && newZone == Some(zone)
  }

  /** The zone to create for a host no zone contains: its registrable domain. */
  function NewForwardZone(env: SyncEnv, host: string): (r: Option<string>)
  {
    var reg := env.registrable(TrimSuffix(host, "."));
    if reg.None? then None
    else
      var zone := ZoneName(env.base.isSuffix, reg.value);
      if zone.Some? && InZone(host, zone.value) then zone else None
  }

  method PlanForward(env: SyncEnv, all: seq<Zone>, host: string, ghost zones: Rows, ghost tenant: string)
    returns (r: Result<Target>)
    requires Lists(all, zones, tenant)
    ensures match r
            case Ok(t) =>
              && CanonicalHost(host).Some?
              && Chosen(zones, tenant, CanonicalHost(host).value, false, NewForwardZone(env, CanonicalHost(host).value),
                        t)
            case Err(e) =>
              && e.Skipped?
              && (CanonicalHost(host).Some? ==>
                    NoZone(zones, tenant, CanonicalHost(host).value, false) &&
                    NewForwardZone(env, CanonicalHost(host).value).None?)
  {
    hide InTree, NewForwardZone, CanonicalHost;
    var h := CanonicalHost(host);
    if h.None? { return Err(Skipped); }
    var best := Longest(all, h.value, false);
    if best.Some? { return Ok(Existing(best.value.id)); }
    var zone := NewForwardZone(env, h.value);
    r := if zone.Some? then Ok(New(zone.value)) else Err(Skipped);
  }

  /** What IPAM's answer asks for: the host and address record, the PTR owner and the reverse
  zone to create if there is none. */
  datatype Want = Want(host: string, typ: RRType, lit: string, owner: string, zone: string)

  function WantFor(env: SyncEnv, a: Addr, host: string, prefix: int): Want
    requires ValidAddr(a)
  {
    Want(host, TypeOf(a), env.literal(a), PTROwner(a), ReverseZone(a, prefix))
  }

  ghost predicate Wanted(env: SyncEnv, w: Want) {
    && CanonicalHost(w.host) == Some(w.host) && Hostname(w.host) == Some(w.host)
    && AddressType(w.typ) && env.base.rules.content(w.typ, w.lit) == Some(w.lit)
    && CanonicalText(w.owner) && OwnerLabels(Labels(w.owner)) && InZone(w.owner, w.zone) && IsReverse(w.zone)
    && ZoneName(env.base.isSuffix, w.zone) == Some(w.zone) && CanonicalZone(w.zone) == Some(w.zone)
  }

  /** Every address and host the sync accepts gives a well-formed request, for every prefix. */
  lemma WantedFor(env: SyncEnv, a: Addr, host: string, prefix: int)
    requires SyncLaws(env) && ValidAddr(a) && Unmap(a) == a && CanonicalHost(host) == Some(host)
    ensures Wanted(env, WantFor(env, a, host, prefix))
  {
    hide PTROwner, ReverseZone, ZoneName, CanonicalZone, Hostname, ParserLaws, Labels, OwnerLabels, CanonicalText,
      IsReverse, InZone;
    ReverseZoneHoldsOwner(env.base.isSuffix, a, prefix);
    ZoneNameIdempotent(env.base.isSuffix, ReverseZone(a, prefix));
  }

  method PlanReverse(all: seq<Zone>, w: Want, ghost zones: Rows, ghost tenant: string) returns (r: Target)
    requires Lists(all, zones, tenant)
    ensures Chosen(zones, tenant, w.owner, true, Some(w.zone), r)
  {
    hide InTree;
    var best := Longest(all, w.owner, true);
    r := if best.Some? then Existing(best.value.id) else New(w.zone);
  }

  /** A zone created for a name no zone contained is what the plan selects from then on. */
  lemma CreatedIsChosen(zones: Rows, z: Zone, tenant: string, name: string, reverse: bool)
    requires z.id !in zones && z.tenant == tenant
    ensures NoZone(zones, tenant, name, reverse) && InTree(z, name, reverse) ==>
              BestZone(zones[z.id := z], tenant, name, reverse, z)
  {
    hide InTree;
  }
}
