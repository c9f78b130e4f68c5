/** What the IPAM sync has written and not lost since, and the rows that must name it. */
module SyncClaims {
  import opened Strings
  import opened Names
  import opened Wrappers
  import opened Model
  import opened Pdns
  import opened Memstore
  import opened Records
  import opened Ownership
  import opened Zones
  import opened Plan
  import opened SyncRecords

  /** One record the sync wrote for an address id: an A/AAAA value or a PTR set. */
  datatype Claim =
    | Fwd(tenant: string, id: string, zoneId: string, name: string, typ: RRType, value: string)
    | Rev(tenant: string, id: string, zoneId: string, owner: string)

  /** The record is on the server, in a zone of the tenant. */
  ghost predicate Present(c: Claim, zones: Rows, server: ServerZones) {
    && OwnedBy(zones, c.tenant, c.zoneId)
    && var p := zones[c.zoneId].pdnsId;
       match c
       case Fwd(_, _, _, name, typ, value) =>
         Lower(name) == name && AddressType(typ) && HasValue(server, p, name, typ, value)
       case Rev(_, _, _, owner) => Lower(owner) == owner && SetAt(server, p, owner, PTR).Some?
  }

  /** The address id's row refers to the record. */
  ghost predicate Named(c: Claim, rows: SyncRows) {
    && (c.tenant, c.id) in rows
    && var row := rows[(c.tenant, c.id)];
       match c
       case Fwd(_, _, zoneId, name, typ, value) =>
         row.forward == Some(ForwardRef(zoneId, name, typ)) && row.address == value
       case Rev(_, _, zoneId, owner) => row.reverse == Some(ReverseRef(zoneId, owner))
  }

  ghost predicate Tracked(claims: set<Claim>, rows: SyncRows) {
    forall c :: c in claims ==> Named(c, rows)
  }

  /** The claims still there. */
  ghost function Live(claims: set<Claim>, zones: Rows, server: ServerZones): set<Claim> {
    set c | c in claims && Present(c, zones, server)
  }

  // ----- what a step may add

  datatype Place =
    | Nowhere
    | AtValue(zoneId: string, name: string, typ: RRType, value: string)
    | AtOwner(zoneId: string, owner: string)

  ghost predicate At(c: Claim, p: Place) {
    match p
    case Nowhere => false
    case AtValue(zoneId, name, typ, value) =>
      c.Fwd? && c.zoneId == zoneId && c.name == name && c.typ == typ && c.value == value
    case AtOwner(zoneId, owner) => c.Rev? && c.zoneId == zoneId && c.owner == owner
  }

  /** The record is there before and after, a PTR set with the same content. */
  ghost predicate Stays(c: Claim, z0: Rows, s0: ServerZones, z1: Rows, s1: ServerZones) {
    && Present(c, z0, s0) && Present(c, z1, s1)
    && (c.Rev? ==>
          SetAt(s1, z1[c.zoneId].pdnsId, c.owner, PTR) == SetAt(s0, z0[c.zoneId].pdnsId, c.owner, PTR))
  }

  lemma StaysThen(c: Claim, z0: Rows, s0: ServerZones, z1: Rows, s1: ServerZones, z2: Rows, s2: ServerZones)
    ensures Stays(c, z0, s0, z1, s1) && Stays(c, z1, s1, z2, s2) ==> Stays(c, z0, s0, z2, s2)
  {
    hide SetAt;
  }

  /** Every record that is there now stayed as it was, or is at the one place written. */
  ghost predicate NoNew(z0: Rows, s0: ServerZones, z1: Rows, s1: ServerZones, p: Place) {
    forall c :: Present(c, z1, s1) ==> Stays(c, z0, s0, z1, s1) || At(c, p)
  }

  lemma NoNewThen(z0: Rows, s0: ServerZones, z1: Rows, s1: ServerZones, z2: Rows, s2: ServerZones, p: Place)
    requires NoNew(z0, s0, z1, s1, Nowhere) && NoNew(z1, s1, z2, s2, p)
    ensures NoNew(z0, s0, z2, s2, p)
  {
    hide Present, At, SetAt;
    forall c | Present(c, z2, s2) ensures Stays(c, z0, s0, z2, s2) || At(c, p) {
      NothingAtNowhere(c);
      StaysThen(c, z0, s0, z1, s1, z2, s2);
    }
  }

  lemma NothingAtNowhere(c: Claim)
    ensures !At(c, Nowhere)
  {
  }

  /** A changed value set gains nothing but the value. */
  lemma ValueStep(zones: Rows, s0: ServerZones, s1: ServerZones, zoneId: string, name: string, typ: RRType, p: Place)
    requires ZonesOK(zones) && zoneId in zones && AddressType(typ)
    requires OnlySet(s0, s1, zones[zoneId].pdnsId, name, typ)
    requires forall v :: v in ContentsAt(s1, zones[zoneId].pdnsId, name, typ) ==>
               v in ContentsAt(s0, zones[zoneId].pdnsId, name, typ) ||
               (p.AtValue? && p == AtValue(zoneId, name, typ, v))
    ensures NoNew(zones, s0, zones, s1, p)
  {
    hide Find, Lower;
    forall c | Present(c, zones, s1) ensures Stays(c, zones, s0, zones, s1) || At(c, p) {
      var k := zones[c.zoneId].pdnsId;
      match c
      case Fwd(_, _, zid, n, t, v) =>
        if k == zones[zoneId].pdnsId && n == name && t == typ {
          assert zid == zoneId;
        } else {
          assert SetAt(s1, k, n, t) == SetAt(s0, k, n, t);
        }
      case Rev(_, _, _, owner) =>
        assert SetAt(s1, k, owner, PTR) == SetAt(s0, k, owner, PTR);
    }
  }

  /** A changed PTR set is new or rewritten at most at its owner. */
  lemma OwnerStep(zones: Rows, s0: ServerZones, s1: ServerZones, zoneId: string, owner: string, p: Place)
    requires ZonesOK(zones) && zoneId in zones
    requires OnlySet(s0, s1, zones[zoneId].pdnsId, owner, PTR)
    requires SetAt(s1, zones[zoneId].pdnsId, owner, PTR).Some? ==> p == AtOwner(zoneId, owner)
    ensures NoNew(zones, s0, zones, s1, p)
  {
    hide Find, Lower;
    forall c | Present(c, zones, s1) ensures Stays(c, zones, s0, zones, s1) || At(c, p) {
      var k := zones[c.zoneId].pdnsId;
      match c
      case Fwd(_, _, _, n, t, v) =>
        assert SetAt(s1, k, n, t) == SetAt(s0, k, n, t);
      case Rev(_, _, zid, o) =>
        if k == zones[zoneId].pdnsId && o == owner {
          assert zid == zoneId;
        } else {
          assert SetAt(s1, k, o, PTR) == SetAt(s0, k, o, PTR);
        }
    }
  }

  lemma SameStep(zones: Rows, server: ServerZones, p: Place)
    ensures NoNew(zones, server, zones, server, p)
  {
    hide Present;
  }

  // ----- zone rows and the server together

  /** Rows are canonical and filed on the server under their name. */
  ghost predicate Filed(zones: Rows, server: ServerZones) {
    && (forall id :: id in zones ==>
          zones[id].pdnsId == zones[id].name && CanonicalZone(zones[id].name) == Some(zones[id].name))
    && (forall k :: k in server ==> server[k].name == k)
  }

  /** A new zone holds an SOA record only. */
  ghost predicate BareZone(server: ServerZones, name: string) {
    name in server && server[name].rrsets == [SoaSet(name, [])]
  }

  lemma BareHoldsNothing(server: ServerZones, name: string, n: string, t: RRType)
    requires BareZone(server, name) && !t.SOA?
    ensures SetAt(server, name, n, t) == None
  {
    hide Lower;
    var sets := server[name].rrsets;
    assert sets[1..] == [];
    assert Find(sets[1..], n, t) == None;
  }

  /** The rows and the server with one bare zone more, with or without its row. */
  ghost predicate ZoneStep(z0: Rows, s0: ServerZones, z1: Rows, s1: ServerZones, tenant: string, newId: string,
                           name: string) {
    || (z1 == z0 && s1 == s0)
    || (&& OneMore(s0, s1, name) && BareZone(s1, name)
        && (forall id :: id in z0 ==> z0[id].name != name)
        && (z1 == z0 || RowAdded(z0, z1, tenant, newId, name)))
  }

  ghost predicate RowAdded(z0: Rows, z1: Rows, tenant: string, newId: string, name: string) {
    && newId in z1 && newId !in z0 && Inserts(z0, z1, z1[newId])
    && z1[newId].id == newId && z1[newId].name == name && z1[newId].pdnsId == name && z1[newId].tenant == tenant
    && z1[newId].kind.Native? && !Conflict(z0, tenant, name)
  }

  // ----- whose server zones a step touches

  ghost predicate TenantZone(zones: Rows, tenant: string, k: string) {
    exists id :: OwnedBy(zones, tenant, id) && zones[id].pdnsId == k
  }

  /** Every server zone that is not the tenant's is as it was. */
  ghost predicate Within(zones: Rows, tenant: string, s0: ServerZones, s1: ServerZones) {
    forall k :: k in s0 && !TenantZone(zones, tenant, k) ==> k in s1 && s1[k] == s0[k]
  }

  lemma WithinNone(zones: Rows, tenant: string, server: ServerZones)
    ensures Within(zones, tenant, server, server)
  {
  }

  lemma WithinSet(zones: Rows, tenant: string, id: string, s0: ServerZones, s1: ServerZones, name: string, typ: RRType)
    requires OwnedBy(zones, tenant, id) && OnlySet(s0, s1, zones[id].pdnsId, name, typ)
    ensures Within(zones, tenant, s0, s1)
  {
    hide SetAt;
  }

  lemma WithinThen(z1: Rows, z2: Rows, tenant: string, s0: ServerZones, s1: ServerZones, s2: ServerZones)
    requires Within(z1, tenant, s0, s1) && Within(z2, tenant, s1, s2)
    requires forall id :: id in z1 ==> id in z2 && z2[id] == z1[id]
    ensures Within(z2, tenant, s0, s2)
  {
    forall k | k in s0 && !TenantZone(z2, tenant, k) ensures k in s2 && s2[k] == s0[k] {
      assert TenantZone(z1, tenant, k) ==> TenantZone(z2, tenant, k);
    }
  }

  lemma WithinStep(z0: Rows, s0: ServerZones, z1: Rows, s1: ServerZones, tenant: string, newId: string, name: string)
    requires ZoneStep(z0, s0, z1, s1, tenant, newId, name)
    ensures Within(z1, tenant, s0, s1)
  {
    hide BareZone, RowAdded;
  }

  lemma ZoneStepAddsNothing(z0: Rows, s0: ServerZones, z1: Rows, s1: ServerZones, tenant: string, newId: string,
                            name: string)
    requires ZoneStep(z0, s0, z1, s1, tenant, newId, name) && Filed(z0, s0)
    ensures NoNew(z0, s0, z1, s1, Nowhere)
  {
    hide Find, Lower, CanonicalZone;
    if !(z1 == z0 && s1 == s0) {
      forall c | Present(c, z1, s1) ensures Stays(c, z0, s0, z1, s1) {
        var k := z1[c.zoneId].pdnsId;
        if k == name {
          match c
          case Fwd(_, _, _, n, t, _) => BareHoldsNothing(s1, name, n, t);
          case Rev(_, _, _, o) => BareHoldsNothing(s1, name, o, PTR);
        }
      }
    }
  }
}
