/** What the IPAM sync (internal/ipamsync/sync.go) relies on between calls, and the zone a
planned target leads to. */
module SyncState {
  import opened Strings
  import opened Names
  import opened Wrappers
  import opened Model
  import opened RecordSets
  import opened Pdns
  import opened Memstore
  import opened Records
  import opened Ownership
  import opened Zones
  import opened Plan
  import opened SyncRecords
  import opened SyncClaims

  /** The references of a row are owner names of their zones. */
  ghost predicate RowRefsOK(zones: Rows, row: SyncRow) {
    && (row.forward.Some? ==>
          var f := row.forward.value;
          AddressType(f.typ) && (OwnedBy(zones, row.tenant, f.zoneId) ==> OwnerIn(zones[f.zoneId], f.name)))
    && (row.reverse.Some? ==>
          var r := row.reverse.value;
          OwnedBy(zones, row.tenant, r.zoneId) ==> OwnerIn(zones[r.zoneId], r.owner))
  }

  ghost predicate RefsOK(zones: Rows, rows: SyncRows) {
    forall k :: k in rows ==> RowRefsOK(zones, rows[k])
  }

  /** An id no row uses and no sync row refers to. */
  ghost predicate FreshId(zones: Rows, rows: SyncRows, id: string) {
    && id !in zones
    && forall k :: k in rows ==> RowFree(rows[k], id)
  }

  ghost predicate RowFree(row: SyncRow, id: string) {
    && (row.forward.Some? ==> row.forward.value.zoneId != id)
    && (row.reverse.Some? ==> row.reverse.value.zoneId != id)
  }

  /** Everything the sync relies on between calls. */
  ghost predicate SystemOK(env: SyncEnv, zones: Rows, server: ServerZones) {
    && SyncLaws(env) && ZonesOK(zones) && NoOverlap(zones) && Filed(zones, server)
    && AllWellFormed(env.base.rules, server)
  }

  /** Every zone row has its server zone. */
  ghost predicate AllLinked(zones: Rows, server: ServerZones) {
    forall id :: id in zones ==> zones[id].pdnsId in server
  }

  /** No call fails from here on, and every zone row has its server zone. */
  ghost predicate Calm(st: Store, pd: Server)
    reads st`faults, st`zones, pd`faults, pd`down, pd`zones
  {
    st.Clean() && pd.Clean() && AllLinked(st.zones, pd.zones)
  }

  lemma FiledUsable(env: SyncEnv, zones: Rows, server: ServerZones, id: string)
    requires SystemOK(env, zones, server) && id in zones
    ensures Usable(zones[id], server)
  {
    hide CanonicalZone, SyncLaws, AllWellFormed;
  }

  lemma ZoneStepKeeps(env: SyncEnv, z0: Rows, s0: ServerZones, z1: Rows, s1: ServerZones, tenant: string, newId: string,
                      name: string)
    requires SystemOK(env, z0, s0) && ZoneStep(z0, s0, z1, s1, tenant, newId, name)
    requires CanonicalZone(name) == Some(name) && AllWellFormed(env.base.rules, s1)
    ensures SystemOK(env, z1, s1) && (AllLinked(z0, s0) ==> AllLinked(z1, s1))
    ensures forall id :: id in z0 ==> id in z1 && z1[id] == z0[id]
    ensures forall id :: id in z1 && id != newId ==> id in z0
    ensures newId in z1 && newId !in z0 ==> !NeedsMasters(z1[newId].kind)
    ensures Within(z1, tenant, s0, s1)
  {
    hide CanonicalZone, SyncLaws, AllWellFormed, BareZone, ZonesOK, NameTaken, NoOverlap, Conflict;
    WithinStep(z0, s0, z1, s1, tenant, newId, name);
    if z1 != z0 {
      assert Rewrites(z0, z1, z1[newId]) || Inserts(z0, z1, z1[newId]);
      assert Raw(z0, z1);
      RawKeepsUnique(z0, z1);
      InsertKeepsApart(z0, z1, z1[newId]);
    }
  }

  lemma RowRefsKept(z0: Rows, z1: Rows, newId: string, row: SyncRow)
    requires RowRefsOK(z0, row) && RowFree(row, newId)
    requires forall id :: id in z0 ==> id in z1 && z1[id] == z0[id]
    requires forall id :: id in z1 && id != newId ==> id in z0
    ensures RowRefsOK(z1, row)
  {
    hide OwnerIn;
  }

  function NativeInput(zone: string): CreateInput {
    CreateInput(zone, Some(Native), [], [], false, "", "", Ipam)
  }

  lemma NativeIsPlain(env: SyncEnv, zone: string)
    requires SyncLaws(env) && ZoneName(env.base.isSuffix, zone) == Some(zone)
    ensures PlainInput(env.base, false, NativeInput(zone))
  {
    hide ZoneName, ParserLaws;
  }

  /** Loads an existing zone of the tenant or creates the planned one. A name another tenant
  owns or overlaps is Duplicate. */
  method ZoneFor(st: Store, pd: Server, env: SyncEnv, tenant: string, t: Target, newId: string)
    returns (r: Result<Zone>)
    requires SystemOK(env, st.zones, pd.zones) && newId !in st.zones
    requires t.New? ==> ZoneName(env.base.isSuffix, t.zone) == Some(t.zone)
    modifies st`faults, st`zones, pd`faults, pd`zones
    ensures old(st.Clean()) ==> st.Clean()
    ensures old(pd.Clean()) ==> pd.Clean()
    ensures t.Existing? ==> st.zones == old(st.zones) && pd.zones == old(pd.zones)
    ensures t.New? ==> ZoneStep(old(st.zones), old(pd.zones), st.zones, pd.zones, tenant, newId, t.zone)
    ensures AllWellFormed(env.base.rules, pd.zones)
    ensures match r
            case Ok(z) =>
              OwnedBy(st.zones, tenant, z.id) && st.zones[z.id] == z &&
              (if t.Existing? then z.id == t.id else z.name == t.zone)
            case Err(e) =>
              && (t.Existing? ==>
                    (e.StoreDown? && !old(st.Clean())) || (e.ZoneNotFound? && !OwnedBy(st.zones, tenant, t.id)))
              && (t.New? && old(st.Clean() && pd.Clean()) ==>
                    && e.Duplicate? && CreateRefused(st.zones, pd.zones, tenant, t.zone)
                    && !HasName(st.zones, tenant, t.zone)
                    && st.zones == old(st.zones) && pd.zones == old(pd.zones))
    ensures t.New? && r.Ok? && !old(HasName(st.zones, tenant, t.zone)) ==>
              !old(CreateRefused(st.zones, pd.zones, tenant, t.zone))
    ensures pd.down ==> st.zones == old(st.zones) && pd.zones == old(pd.zones)
  {
    hide ZoneName, SyncLaws, ParserLaws, WellFormed, CreateRefused, Conflict, CanonicalZone, PlainInput, OneMore,
      Agrees, Atomic, Acceptable, InputOK, RowFor, CreatedFrom, ZoneStep;
    if t.Existing? {
      r := Owned(st, tenant, t.id);
      return;
    }
    NativeIsPlain(env, t.zone);
    PlainIsOK(env.base, st.templates, tenant, false, NativeInput(t.zone), newId);
    LawsOf(env);
    var residue;
    r, residue := Zones.Create(st, pd, env.base, tenant, false, NativeInput(t.zone), newId);
    if r.Ok? { RowFacts(env.base, tenant, NativeInput(t.zone), newId, r.value); }
    CreateIsStep(old(st.zones), old(pd.zones), st.zones, pd.zones, tenant, newId, t.zone, r, residue);
    if r.Err? && r.error.Duplicate? {
      var own := st.GetZoneByName(tenant, t.zone);
      if own.Ok? { r := own; }
    }
  }

  lemma CreateIsStep(z0: Rows, s0: ServerZones, z1: Rows, s1: ServerZones, tenant: string, newId: string, name: string,
                     r: Result<Zone>, residue: bool)
    requires r.Ok? ==>
               && r.value.name == name && r.value.pdnsId == name && r.value.tenant == tenant && r.value.id == newId
               && r.value.kind.Native?
               && !CreateRefused(z0, s0, tenant, name) && Inserts(z0, z1, r.value) && OneMore(s0, s1, name)
               && BareZone(s1, name)
    requires r.Err? ==> z1 == z0 && (!residue ==> s1 == s0)
    requires r.Err? && residue ==>
               OneMore(s0, s1, name) && BareZone(s1, name) && !HasName(z0, tenant, name) && !Conflict(z0, tenant, name)
    ensures ZoneStep(z0, s0, z1, s1, tenant, newId, name)
  {
    hide BareZone, OneMore;
    assert forall id :: id in z0 && z0[id].name == name ==> Overlaps(name, z0[id].name);
  }

  /** Every server zone that was there is as it was. */
  ghost predicate Extended(s0: ServerZones, s1: ServerZones) {
    forall k :: k in s0 ==> k in s1 && s1[k] == s0[k]
  }

  lemma StepExtends(z0: Rows, s0: ServerZones, z1: Rows, s1: ServerZones, tenant: string, newId: string, name: string)
    requires ZoneStep(z0, s0, z1, s1, tenant, newId, name)
    ensures Extended(s0, s1)
  {
    hide BareZone, RowAdded;
  }

  lemma FiledKept(env: SyncEnv, zones: Rows, s0: ServerZones, s1: ServerZones)
    requires SystemOK(env, zones, s0) && AllWellFormed(env.base.rules, s1)
    requires s1.Keys == s0.Keys && forall k :: k in s0 ==> s1[k].name == s0[k].name
    ensures SystemOK(env, zones, s1) && (AllLinked(zones, s0) ==> AllLinked(zones, s1))
  {
    hide CanonicalZone, SyncLaws, AllWellFormed, ZonesOK;
  }

  lemma OnlySetFacts(s0: ServerZones, s1: ServerZones, id: string, name: string, typ: RRType)
    requires OnlySet(s0, s1, id, name, typ)
    ensures s1.Keys == s0.Keys && forall k :: k in s0 ==> s1[k].name == s0[k].name
  {
  }

  lemma SuffixOfInner(name: string, zone: string, suffix: string)
    requires InZone(name, zone) && HasSuffix(zone, suffix)
    ensures HasSuffix(name, suffix)
  {
    if name != zone {
      DottedSuffix(zone, suffix);
      SuffixTransitive(name, "." + zone, suffix);
    }
  }

  lemma NoZoneNoName(zones: Rows, tenant: string, name: string, reverse: bool, zone: string)
    requires NoZone(zones, tenant, name, reverse) && InZone(name, zone) && IsReverse(zone) == reverse
    ensures !HasName(zones, tenant, zone)
  {
    hide InZone, IsReverse;
  }

  /** Existing zones stay as they are; at most a primary one with the new id is added. */
  ghost predicate Grown(z0: Rows, z1: Rows, newId: string) {
    && (forall id :: id in z0 ==> id in z1 && z1[id] == z0[id])
    && (forall id :: id in z1 && id != newId ==> id in z0)
    && (newId in z1 && newId !in z0 ==> !NeedsMasters(z1[newId].kind))
  }

  lemma TargetReached(z0: Rows, s0: ServerZones, z1: Rows, s1: ServerZones, tenant: string, name: string, reverse: bool,
                      newZone: Option<string>, t: Target, newId: string, r: Result<Zone>)
    requires Chosen(z0, tenant, name, reverse, newZone, t)
    requires t.Existing? ==> z1 == z0 && s1 == s0
    requires t.New? ==>
               InZone(name, t.zone) && IsReverse(t.zone) == reverse && ZoneStep(z0, s0, z1, s1, tenant, newId, t.zone)
    requires r.Ok? ==>
               var z := r.value;
               OwnedBy(z1, tenant, z.id) && z1[z.id] == z && (if t.Existing? then z.id == t.id else z.name == t.zone)
    ensures r.Ok? ==> BestZone(z1, tenant, name, reverse, r.value)
  {
    hide InZone, IsReverse, BareZone, OneMore, NameTaken;
    if t.New? {
      NoZoneNoName(z0, tenant, name, reverse, t.zone);
      if r.Ok? {
        CreatedIsChosen(z0, r.value, tenant, name, reverse);
      }
    }
  }

  lemma AfterZoneFor(env: SyncEnv, z0: Rows, s0: ServerZones, z1: Rows, s1: ServerZones, tenant: string, name: string,
                     reverse: bool, newZone: Option<string>, t: Target, newId: string, r: Result<Zone>, prev: SyncRow)
    requires SystemOK(env, z0, s0) && AllWellFormed(env.base.rules, s1) && Chosen(z0, tenant, name, reverse, newZone, t)
    requires RowRefsOK(z0, prev) && RowFree(prev, newId)
    requires t.Existing? ==> z1 == z0 && s1 == s0
    requires t.New? ==>
               && CanonicalZone(t.zone) == Some(t.zone) && InZone(name, t.zone) && IsReverse(t.zone) == reverse
               && ZoneStep(z0, s0, z1, s1, tenant, newId, t.zone)
    requires r.Ok? ==>
               var z := r.value;
               OwnedBy(z1, tenant, z.id) && z1[z.id] == z && (if t.Existing? then z.id == t.id else z.name == t.zone)
    ensures SystemOK(env, z1, s1) && (AllLinked(z0, s0) ==> AllLinked(z1, s1)) && Grown(z0, z1, newId)
    ensures NoNew(z0, s0, z1, s1, Nowhere) && RowRefsOK(z1, prev) && Within(z1, tenant, s0, s1)
    ensures r.Ok? ==>
              && BestZone(z1, tenant, name, reverse, r.value) && InZone(name, r.value.name)
              && CanonicalZone(r.value.name) == Some(r.value.name)
  {
    hide CanonicalZone, InZone, IsReverse, ZoneStep, NoNew, AllWellFormed, RowRefsOK, SyncLaws, AllLinked, NoZone;
    if t.New? {
      ZoneStepKeeps(env, z0, s0, z1, s1, tenant, newId, t.zone);
      ZoneStepAddsNothing(z0, s0, z1, s1, tenant, newId, t.zone);
      RowRefsKept(z0, z1, newId, prev);
    } else {
      SameStep(z0, s0, Nowhere);
      WithinNone(z0, tenant, s0);
    }
    TargetReached(z0, s0, z1, s1, tenant, name, reverse, newZone, t, newId, r);
  }

  /** The zone the plan selects is the best one. */
  lemma PlanSelectsBest(zones: Rows, tenant: string, name: string, reverse: bool, newZone: Option<string>, t: Target,
                        z: Zone)
    requires ZonesOK(zones) && BestZone(zones, tenant, name, reverse, z)
    ensures Chosen(zones, tenant, name, reverse, newZone, t) ==> t == Existing(z.id)
  {
    hide InTree;
    if Chosen(zones, tenant, name, reverse, newZone, t) && t.Existing? {
      BestZoneUnique(zones, tenant, name, reverse, zones[t.id], z);
    }
  }

  lemma BestExcludes(zones: Rows, tenant: string, name: string, reverse: bool, z: Zone)
    requires BestZone(zones, tenant, name, reverse, z)
    ensures !NoZone(zones, tenant, name, reverse)
  {
    hide InTree;
  }

  lemma RefusalKept(zones: Rows, s0: ServerZones, s1: ServerZones, tenant: string, name: string)
    requires CreateRefused(zones, s0, tenant, name) && s0.Keys <= s1.Keys
    ensures CreateRefused(zones, s1, tenant, name)
  {
  }

  lemma GrownSame(zones: Rows, newId: string)
    ensures Grown(zones, zones, newId)
  {
  }

  lemma BestFacts(zones: Rows, tenant: string, name: string, reverse: bool, z: Zone)
    requires BestZone(zones, tenant, name, reverse, z)
    ensures OwnedBy(zones, tenant, z.id) && zones[z.id] == z
  {
  }
}
