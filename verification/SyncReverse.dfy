/** The reverse side of the IPAM sync (internal/ipamsync/sync.go): the PTR set of an address. */
module SyncReverse {
  import opened Strings
  import opened Names
  import opened Wrappers
  import opened Model
  import opened RecordSets
  import opened Pdns
  import opened Memstore
  import opened Records
  import opened Zones
  import opened Plan
  import opened SyncRecords
  import opened SyncClaims
  import opened SyncState

  /** The claim a row's reverse reference stands for. */
  function ReverseClaim(row: SyncRow): Claim
    requires row.reverse.Some?
  {
    Rev(row.tenant, row.id, row.reverse.value.zoneId, row.reverse.value.owner)
  }

  /** The row's PTR set is in a zone that takes its records from a primary. */
  ghost predicate SecondaryRef(zones: Rows, row: SyncRow) {
    && row.reverse.Some? && OwnedBy(zones, row.tenant, row.reverse.value.zoneId)
    && NeedsMasters(zones[row.reverse.value.zoneId].kind)
  }

  /** Only PTR sets changed, in zones that were there. */
  ghost predicate PtrOnly(s0: ServerZones, s1: ServerZones) {
    && s1.Keys == s0.Keys
    && (forall k :: k in s0 ==> s1[k].name == s0[k].name)
    && (forall k, n, t: RRType :: !t.PTR? ==> SetAt(s1, k, n, t) == SetAt(s0, k, n, t))
  }

  lemma PtrStep(s0: ServerZones, s1: ServerZones, id: string, name: string)
    requires OnlySet(s0, s1, id, name, PTR)
    ensures PtrOnly(s0, s1)
  {
    hide Find, Lower;
  }

  lemma PtrNone(s: ServerZones)
    ensures PtrOnly(s, s)
  {
  }

  lemma PtrChain(s0: ServerZones, s1: ServerZones, s2: ServerZones)
    requires PtrOnly(s0, s1) && PtrOnly(s1, s2)
    ensures PtrOnly(s0, s2)
  {
    hide SetAt;
  }

  lemma PtrKeys(s0: ServerZones, s1: ServerZones)
    requires PtrOnly(s0, s1)
    ensures s1.Keys == s0.Keys && forall k :: k in s0 ==> s1[k].name == s0[k].name
  {
  }

  /** The owner's set cannot be pointed at the host, for good. */
  ghost predicate PtrRefused(env: SyncEnv, z: Zone, server: ServerZones, owner: string, host: string) {
    ContentsAt(server, z.pdnsId, owner, PTR) != [host] &&
    PutRefused(env.base.rules, z, server, PtrInput(env, owner, host))
  }

  /** A PTR set that is there can always be rewritten, except in a secondary zone. */
  lemma PresentPtrWritable(env: SyncEnv, z: Zone, server: ServerZones, owner: string, host: string)
    requires SyncLaws(env) && AllWellFormed(env.base.rules, server) && Usable(z, server) && OwnerIn(z, owner)
    requires Hostname(host) == Some(host) && SetAt(server, z.pdnsId, owner, PTR).Some?
    ensures PutRefused(env.base.rules, z, server, PtrInput(env, owner, host)) ==> NeedsMasters(z.kind)
  {
    hide CanonicalZone, RecordName, Hostname;
    var rules, sets := env.base.rules, server[z.pdnsId].rrsets;
    var inp := PtrInput(env, owner, host);
    HostIsPtr(env, host);
    CommentFits();
    assert inp.values == [Record(host, false)];
    NoClashBesidePtr(rules, z.name, sets, owner);
    OneValueParses(rules, PTR, host);
    assert RecordSetOf(rules, z.name, inp, sets).Ok?;
  }

  lemma CommentFits()
    ensures |COMMENT| <= MAX_COMMENT && !HasControl(COMMENT)
  {
  }

  lemma OneValueParses(rules: Rules, t: RRType, v: string)
    requires rules.content(t, v).Some?
    ensures ParsedValues(rules, t, [Record(v, false)]).Some?
  {
  }

  lemma NoClashBesidePtr(rules: Rules, zone: string, sets: seq<RRset>, owner: string)
    requires WellFormed(rules, zone, sets) && Find(sets, owner, PTR).Some?
    ensures !Clash(sets, owner, PTR)
  {
    WellFormedLower(rules, zone, sets);
    var p := Find(sets, owner, PTR).value;
    assert forall e :: e in sets && EqualFold(e.name, owner) ==> e.name == p.name;
  }

  /** Nothing but a fault can keep the row's PTR set. */
  ghost predicate ReverseRemovable(zones: Rows, server: ServerZones, row: SyncRow) {
    row.reverse.Some? && OwnedBy(zones, row.tenant, row.reverse.value.zoneId) ==>
      zones[row.reverse.value.zoneId].pdnsId in server && !NeedsMasters(zones[row.reverse.value.zoneId].kind)
  }

  /** More zones leave the row's PTR set as removable as it was. */
  lemma ReverseStillRemovable(z0: Rows, s0: ServerZones, z1: Rows, s1: ServerZones, newId: string, row: SyncRow)
    requires Grown(z0, z1, newId) && RowFree(row, newId) && s0.Keys <= s1.Keys
    ensures ReverseRemovable(z0, s0, row) ==> ReverseRemovable(z1, s1, row)
  {
  }

  /** The removal of what moved, the first half of the side. */
  method DropReverse(st: Store, pd: Server, env: SyncEnv, prev: SyncRow) returns (err: Option<Error>)
    requires SystemOK(env, st.zones, pd.zones) && RowRefsOK(st.zones, prev) && prev.reverse.Some?
    modifies st`faults, pd`faults, pd`zones
    ensures old(st.Clean()) ==> st.Clean()
    ensures old(pd.Clean()) ==> pd.Clean()
    ensures SystemOK(env, st.zones, pd.zones) && (old(AllLinked(st.zones, pd.zones)) ==> AllLinked(st.zones, pd.zones))
    ensures NoNew(st.zones, old(pd.zones), st.zones, pd.zones, Nowhere)
    ensures Within(st.zones, prev.tenant, old(pd.zones), pd.zones)
    ensures PtrOnly(old(pd.zones), pd.zones)
    ensures err.None? ==> !Present(ReverseClaim(prev), st.zones, pd.zones)
    ensures err.Some? ==> pd.zones == old(pd.zones)
    ensures pd.down ==> pd.zones == old(pd.zones)
    ensures old(st.Clean() && pd.Clean() && ReverseRemovable(st.zones, pd.zones, prev)) ==> err.None?
  {
    hide Within, AllWellFormed, SyncLaws, OwnerIn, OnlySet, NoNew, PtrOnly, Find, CanonicalZone;
    var f := prev.reverse.value;
    if OwnedBy(st.zones, prev.tenant, f.zoneId) { FiledUsable(env, st.zones, pd.zones, f.zoneId); }
    SameStep(st.zones, pd.zones, Nowhere);
    PtrNone(pd.zones);
    WithinNone(st.zones, prev.tenant, pd.zones);
    err := RemoveSet(st, pd, env, prev.tenant, f.zoneId, f.owner, PTR);
    if OwnedBy(st.zones, prev.tenant, f.zoneId) {
      if err.None? {
        OwnerStep(st.zones, old(pd.zones), pd.zones, f.zoneId, f.owner, Nowhere);
        PtrStep(old(pd.zones), pd.zones, st.zones[f.zoneId].pdnsId, f.owner);
        WithinSet(st.zones, prev.tenant, f.zoneId, old(pd.zones), pd.zones, f.owner, PTR);
      }
    }
    PtrKeys(old(pd.zones), pd.zones);
    FiledKept(env, st.zones, old(pd.zones), pd.zones);
  }

  function PointedAt(err: Option<Error>, zoneId: string, owner: string): Place {
    if err.None? then AtOwner(zoneId, owner) else Nowhere
  }

  /** The write half: the reference after it, and what it left behind. */
  method WriteReverse(st: Store, pd: Server, env: SyncEnv, prev: SyncRow, z: Zone, owner: string, host: string)
    returns (next: Option<ReverseRef>, err: Option<Error>)
    requires SystemOK(env, st.zones, pd.zones)
    requires OwnerIn(z, owner) && Hostname(host) == Some(host)
    requires z.id in st.zones && st.zones[z.id] == z
    modifies pd`faults, pd`zones
    ensures old(pd.Clean()) ==> pd.Clean()
    ensures SystemOK(env, st.zones, pd.zones) && (old(AllLinked(st.zones, pd.zones)) ==> AllLinked(st.zones, pd.zones))
    ensures Within(st.zones, z.tenant, old(pd.zones), pd.zones)
    ensures PtrOnly(old(pd.zones), pd.zones)
    ensures NoNew(st.zones, old(pd.zones), st.zones, pd.zones, PointedAt(err, z.id, owner))
    ensures err.None? ==>
              !pd.down && next == Some(ReverseRef(z.id, owner)) && ContentsAt(pd.zones, z.pdnsId, owner, PTR) == [host]
    ensures err.Some? ==> pd.zones == old(pd.zones) && next == if Permanent(err.value) then None else prev.reverse
    ensures err.Some? && Permanent(err.value) ==> PtrRefused(env, z, pd.zones, owner, host)
    ensures err.Some? && Permanent(err.value) && SetAt(pd.zones, z.pdnsId, owner, PTR).Some? ==> NeedsMasters(z.kind)
    ensures err.Some? && old(pd.Clean() && AllLinked(st.zones, pd.zones)) ==> Permanent(err.value)
    ensures old(ContentsAt(pd.zones, z.pdnsId, owner, PTR)) == [host] ==> pd.zones == old(pd.zones)
    ensures old(pd.Clean() && AllLinked(st.zones, pd.zones)) &&
            old(ContentsAt(pd.zones, z.pdnsId, owner, PTR)) == [host] ==>
              err.None?
    ensures old(pd.Clean() && PtrRefused(env, z, pd.zones, owner, host)) ==> err.Some?
    ensures prev.reverse.Some? && !Present(ReverseClaim(prev), st.zones, old(pd.zones)) &&
            prev.reverse.value != ReverseRef(z.id, owner) ==>
              !Present(ReverseClaim(prev), st.zones, pd.zones)
  {
    hide Within, AllWellFormed, SyncLaws, OwnerIn, OnlySet, PtrOnly, Find, CanonicalZone, Hostname, PutRefused,
      PtrInput, Present;
    FiledUsable(env, st.zones, pd.zones, z.id);
    if SetAt(pd.zones, z.pdnsId, owner, PTR).Some? { PresentPtrWritable(env, z, pd.zones, owner, host); }
    err := SetPTR(pd, env, z, owner, host);
    OwnerStep(st.zones, old(pd.zones), pd.zones, z.id, owner, AtOwner(z.id, owner));
    if err.Some? { SameStep(st.zones, pd.zones, Nowhere); }
    PtrStep(old(pd.zones), pd.zones, z.pdnsId, owner);
    WithinSet(st.zones, z.tenant, z.id, old(pd.zones), pd.zones, owner, PTR);
    PtrKeys(old(pd.zones), pd.zones);
    FiledKept(env, st.zones, old(pd.zones), pd.zones);
    next := if err.None? then Some(ReverseRef(z.id, owner)) else if Permanent(err.value) then None else prev.reverse;
  }

  predicate ReverseMoved(prev: SyncRow, target: Result<Zone>, owner: string) {
    prev.reverse.Some? && (target.Err? || prev.reverse.value != ReverseRef(target.value.id, owner))
  }

  /** Without faults a side fails for good only, and what is in place already is left alone. */
  ghost predicate ReverseMoveCalm(env: SyncEnv, s0: ServerZones, s1: ServerZones, prev: SyncRow, target: Result<Zone>,
                                  owner: string, host: string,
                                  next: Option<ReverseRef>, err: Option<Error>, note: Option<Error>) {
    && (note.None? && err.Some? && (target.Ok? || Permanent(target.error)) ==>
          && Permanent(err.value) && next.None?
          && (if target.Err? then err.value == target.error else PtrRefused(env, target.value, s1, owner, host)))
    && (prev.reverse.None? && target.Err? ==> s1 == s0 && next.None? && note.None?)
    && (target.Ok? && prev.reverse == Some(ReverseRef(target.value.id, owner)) &&
        ContentsAt(s0, target.value.pdnsId, owner, PTR) == [host] ==>
          s1 == s0 && next == prev.reverse && note.None? && err.None?)
    && (target.Ok? && (prev.reverse.None? || prev.reverse == Some(ReverseRef(target.value.id, owner))) &&
        PtrRefused(env, target.value, s0, owner, host) ==>
          s1 == s0 && note.None? && next.None?)
  }

  /** One side's transition for the PTR set: what moved is removed first, unless the new target
  failed transiently; a failed removal keeps the reference instead of writing. */
  method ReverseMove(st: Store, pd: Server, env: SyncEnv, prev: SyncRow, target: Result<Zone>, owner: string,
                     host: string)
    returns (next: Option<ReverseRef>, err: Option<Error>, note: Option<Error>)
    requires SystemOK(env, st.zones, pd.zones) && RowRefsOK(st.zones, prev) && Hostname(host) == Some(host)
    requires target.Ok? ==>
               var z := target.value; OwnedBy(st.zones, prev.tenant, z.id) && st.zones[z.id] == z && OwnerIn(z, owner)
    modifies st`faults, pd`faults, pd`zones
    ensures old(st.Clean()) ==> st.Clean()
    ensures old(pd.Clean()) ==> pd.Clean()
    ensures SystemOK(env, st.zones, pd.zones) && (old(AllLinked(st.zones, pd.zones)) ==> AllLinked(st.zones, pd.zones))
    ensures Within(st.zones, prev.tenant, old(pd.zones), pd.zones)
    ensures PtrOnly(old(pd.zones), pd.zones)
    // only a failed removal is noted
    ensures note.Some? ==> err == note && prev.reverse.Some?
    ensures old(st.Clean() && pd.Clean() && ReverseRemovable(st.zones, pd.zones, prev)) ==> note.None?
    // a target that failed for now leaves everything as it is
    ensures target.Err? && !Permanent(target.error) ==>
              next == prev.reverse && err == Some(target.error) && note.None? && pd.zones == old(pd.zones)
    ensures pd.down ==> pd.zones == old(pd.zones)
    // written, and nothing else appeared
    ensures NoNew(st.zones, old(pd.zones), st.zones, pd.zones,
                  if target.Ok? then PointedAt(err, target.value.id, owner) else Nowhere)
    ensures err.None? ==>
              && !pd.down && target.Ok? && next == Some(ReverseRef(target.value.id, owner))
              && ContentsAt(pd.zones, target.value.pdnsId, owner, PTR) == [host]
    // the previous record is gone, or still named, or stuck in a secondary zone
    ensures err.None? && prev.reverse.Some? && next != prev.reverse ==> !Present(ReverseClaim(prev), st.zones, pd.zones)
    ensures err.Some? ==>
              || next == prev.reverse
              || (next.None? && (prev.reverse.Some? ==>
                                   !Present(ReverseClaim(prev), st.zones, pd.zones) || SecondaryRef(st.zones, prev)))
    ensures old(Calm(st, pd)) ==>
              ReverseMoveCalm(env, old(pd.zones), pd.zones, prev, target, owner, host, next, err, note)
  {
    hide Within, AllWellFormed, SyncLaws, OwnerIn, NoNew, PtrOnly, Find, CanonicalZone, Hostname, RowRefsOK, PtrRefused,
      AllLinked, Filed, Present, ContentsAt;
    note := None;
    SameStep(st.zones, pd.zones, Nowhere);
    PtrNone(pd.zones);
    WithinNone(st.zones, prev.tenant, pd.zones);
    if ReverseMoved(prev, target, owner) {
      if target.Err? && !Permanent(target.error) { return prev.reverse, Some(target.error), None; }
      var rerr := DropReverse(st, pd, env, prev);
      if rerr.Some? { return prev.reverse, rerr, rerr; }
    }
    if target.Err? { return None, Some(target.error), None; }
    ghost var mid := pd.zones;
    next, err := WriteReverse(st, pd, env, prev, target.value, owner, host);
    AbsentOrSecondary(st.zones, pd.zones, target.value, prev, owner);
    NoNewThen(st.zones, old(pd.zones), st.zones, mid, st.zones, pd.zones, PointedAt(err, target.value.id, owner));
    PtrChain(old(pd.zones), mid, pd.zones);
    WithinThen(st.zones, st.zones, prev.tenant, old(pd.zones), mid, pd.zones);
  }

  lemma AbsentOrSecondary(zones: Rows, server: ServerZones, z: Zone, prev: SyncRow, owner: string)
    requires z.id in zones && zones[z.id] == z && z.tenant == prev.tenant
    ensures prev.reverse == Some(ReverseRef(z.id, owner)) &&
            (SetAt(server, z.pdnsId, owner, PTR).Some? ==> NeedsMasters(z.kind)) ==>
              !Present(ReverseClaim(prev), zones, server) || SecondaryRef(zones, prev)
  {
  }

  // ----- the reverse side at rest

  /** No zone can hold the PTR set: another tenant's name, or refused for good. */
  ghost predicate ReverseRefused(env: SyncEnv, zones: Rows, server: ServerZones, tenant: string, owner: string,
                                 zone: string, host: string) {
    || (NoZone(zones, tenant, owner, true) && CreateRefused(zones, server, tenant, zone))
    || (exists z :: BestZone(zones, tenant, owner, true, z) && PtrRefused(env, z, server, owner, host))
  }

  /** The PTR set points at exactly the host in the zone the plan selects, and the row says so. */
  ghost predicate ReverseSettled(zones: Rows, server: ServerZones, tenant: string, rev: Option<ReverseRef>,
                                 owner: string, host: string, z: Zone) {
    && BestZone(zones, tenant, owner, true, z) && ContentsAt(server, z.pdnsId, owner, PTR) == [host]
    && rev == Some(ReverseRef(z.id, owner))
  }

  ghost predicate ReverseRest(env: SyncEnv, zones: Rows, server: ServerZones, tenant: string, rev: Option<ReverseRef>,
                              owner: string, zone: string, host: string)
  {
    || (exists z :: ReverseSettled(zones, server, tenant, rev, owner, host, z))
    || (rev.None? && ReverseRefused(env, zones, server, tenant, owner, zone, host))
  }

  lemma OwnerIsOwner(env: SyncEnv, z: Zone, w: Want)
    requires Wanted(env, w) && CanonicalZone(z.name) == Some(z.name) && InZone(w.owner, z.name)
    ensures OwnerIn(z, w.owner)
  {
    hide CanonicalZone, InZone, RecordName, ZoneName, CanonicalHost, Hostname;
    RecordNameAbsolute(z.name, w.owner);
  }

  lemma WantedZone(env: SyncEnv, w: Want)
    requires Wanted(env, w)
    ensures InZone(w.owner, w.zone) && IsReverse(w.zone) && CanonicalZone(w.zone) == Some(w.zone)
    ensures Hostname(w.host) == Some(w.host)
    ensures ZoneName(env.base.isSuffix, w.zone) == Some(w.zone)
  {
  }

  /** Rows grew by at most one reverse zone, and of the old zones only PTR sets changed. */
  ghost predicate ReverseOnly(z0: Rows, s0: ServerZones, z1: Rows, s1: ServerZones, newId: string) {
    && Grown(z0, z1, newId)
    && (newId in z1 && newId !in z0 ==> z1[newId].id == newId && IsReverse(z1[newId].name))
    && (forall k :: k in s0 ==> k in s1 && s1[k].name == s0[k].name)
    && (forall k, n, t: RRType :: k in s0 && !t.PTR? ==> SetAt(s1, k, n, t) == SetAt(s0, k, n, t))
  }

  /** Nothing, or a bare reverse zone more. */
  ghost predicate MaybeZone(z0: Rows, s0: ServerZones, z1: Rows, s1: ServerZones, tenant: string, newId: string,
                            name: string) {
    (z1 == z0 && s1 == s0) || (ZoneStep(z0, s0, z1, s1, tenant, newId, name) && IsReverse(name))
  }

  lemma ZoneThenPtr(z0: Rows, s0: ServerZones, z1: Rows, s1: ServerZones, s2: ServerZones, tenant: string,
                    newId: string, name: string)
    requires MaybeZone(z0, s0, z1, s1, tenant, newId, name)
    requires Grown(z0, z1, newId) && newId !in z0 && PtrOnly(s1, s2)
    ensures ReverseOnly(z0, s0, z1, s2, newId)
  {
    hide Find, IsReverse, BareZone, NameTaken;
  }

  /** Without faults only a taken name leaves no target, and an existing zone is the target. */
  ghost predicate ReverseTargetClean(z0: Rows, s0: ServerZones, z1: Rows, s1: ServerZones, tenant: string, w: Want,
                                     target: Result<Zone>) {
    && (target.Err? ==>
          && z1 == z0 && s1 == s0 && target.error.Duplicate?
          && NoZone(z1, tenant, w.owner, true) && CreateRefused(z1, s1, tenant, w.zone))
    && (forall z :: BestZone(z0, tenant, w.owner, true, z) ==> target == Ok(z) && z1 == z0 && s1 == s0)
    && (NoZone(z0, tenant, w.owner, true) && CreateRefused(z0, s0, tenant, w.zone) ==> target.Err?)
  }

  /** The plan and its zone. */
  method ReverseTarget(st: Store, pd: Server, env: SyncEnv, all: seq<Zone>, ghost before: Rows, prev: SyncRow, w: Want,
                       newId: string)
    returns (target: Result<Zone>)
    requires SystemOK(env, st.zones, pd.zones) && RowRefsOK(st.zones, prev) && RowFree(prev, newId) &&
             newId !in st.zones
    requires Lists(all, before, prev.tenant) && SameReverse(before, st.zones, prev.tenant)
    requires Wanted(env, w)
    modifies st`faults, st`zones, pd`faults, pd`zones
    ensures old(st.Clean()) ==> st.Clean()
    ensures old(pd.Clean()) ==> pd.Clean()
    ensures SystemOK(env, st.zones, pd.zones) && (old(AllLinked(st.zones, pd.zones)) ==> AllLinked(st.zones, pd.zones))
    ensures Grown(old(st.zones), st.zones, newId) && NoNew(old(st.zones), old(pd.zones), st.zones, pd.zones, Nowhere)
    ensures Within(st.zones, prev.tenant, old(pd.zones), pd.zones)
    ensures RowRefsOK(st.zones, prev)
    ensures pd.down ==> st.zones == old(st.zones) && pd.zones == old(pd.zones)
    ensures Extended(old(pd.zones), pd.zones)
    ensures MaybeZone(old(st.zones), old(pd.zones), st.zones, pd.zones, prev.tenant, newId, w.zone)
    ensures target.Ok? ==>
              && BestZone(st.zones, prev.tenant, w.owner, true, target.value)
              && OwnedBy(st.zones, prev.tenant, target.value.id) && st.zones[target.value.id] == target.value
              && OwnerIn(target.value, w.owner)
    ensures old(st.Clean() && pd.Clean()) ==>
              ReverseTargetClean(old(st.zones), old(pd.zones), st.zones, pd.zones, prev.tenant, w, target)
  {
    hide Within, AllWellFormed, SyncLaws, OwnerIn, NoNew, CanonicalZone, InZone, RowRefsOK, AllLinked, Filed, Wanted,
      ZoneName, BestZone, NoZone, CreateRefused, ZoneStep, HasName, Lists, IsReverse, Grown, ZonesOK, RowFree,
      SameReverse;
    var tenant, owner, zone := prev.tenant, w.owner, w.zone;
    WantedZone(env, w);
    var t := PlanReverse(all, w, before, tenant);
    ChosenLater(before, st.zones, tenant, owner, Some(zone), t);
    forall z | BestZone(st.zones, tenant, owner, true, z)
      ensures !NoZone(st.zones, tenant, owner, true) && t == Existing(z.id) && OwnedBy(st.zones, tenant, z.id)
      ensures st.zones[z.id] == z
    {
      BestExcludes(st.zones, tenant, owner, true, z);
      PlanSelectsBest(st.zones, tenant, owner, true, Some(zone), t, z);
      BestFacts(st.zones, tenant, owner, true, z);
    }
    if t.New? {
      NoZoneNoName(st.zones, tenant, owner, true, zone);
    } else {
      BestFacts(st.zones, tenant, owner, true, st.zones[t.id]);
    }
    target := ZoneFor(st, pd, env, tenant, t, newId);
    AfterZoneFor(env, old(st.zones), old(pd.zones), st.zones, pd.zones, tenant, owner, true, Some(zone), t, newId,
                 target, prev);
    if t.New? { StepExtends(old(st.zones), old(pd.zones), st.zones, pd.zones, tenant, newId, zone); }
    if target.Ok? { OwnerIsOwner(env, target.value, w); }
  }

  /** The tenant's reverse zones are the same: the zone list was read before the forward side,
  which creates forward zones only. */
  ghost predicate SameReverse(z0: Rows, z1: Rows, tenant: string) {
    && (forall id :: OwnedBy(z0, tenant, id) ==> OwnedBy(z1, tenant, id) && z1[id] == z0[id])
    && (forall id :: OwnedBy(z1, tenant, id) && IsReverse(z1[id].name) ==> OwnedBy(z0, tenant, id))
  }

  lemma ChosenLater(z0: Rows, z1: Rows, tenant: string, owner: string, newZone: Option<string>, t: Target)
    requires SameReverse(z0, z1, tenant) && Chosen(z0, tenant, owner, true, newZone, t)
    ensures Chosen(z1, tenant, owner, true, newZone, t)
  {
    hide IsReverse, InZone;
  }

  /** What the reverse side did with the previous PTR and wrote: as on the forward side, except
  that a PTR in a secondary zone may be forgotten. */
  ghost predicate ReverseTracked(z0: Rows, s0: ServerZones, z1: Rows, s1: ServerZones, prev: SyncRow, w: Want,
                                 next: Option<ReverseRef>, err: Option<Error>) {
    && NoNew(z0, s0, z1, s1, if err.None? && next.Some? then AtOwner(next.value.zoneId, w.owner) else Nowhere)
    && (err.None? ==>
          && next.Some? && next == Some(ReverseRef(next.value.zoneId, w.owner))
          && OwnedBy(z1, prev.tenant, next.value.zoneId) && OwnerIn(z1[next.value.zoneId], w.owner))
    && (err.None? && prev.reverse.Some? && next != prev.reverse ==> !Present(ReverseClaim(prev), z1, s1))
    && (err.Some? ==>
          || next == prev.reverse
          || (next.None? && (prev.reverse.Some? ==> !Present(ReverseClaim(prev), z1, s1) || SecondaryRef(z1, prev))))
  }

  /** The previous PTR set, in the zone the plan selects, is refused its new value. */
  ghost predicate RefusedThere(env: SyncEnv, zones: Rows, server: ServerZones, prev: SyncRow, w: Want) {
    prev.reverse.Some? && exists z ::
      && BestZone(zones, prev.tenant, w.owner, true, z) && prev.reverse.value == ReverseRef(z.id, w.owner)
      && PtrRefused(env, z, server, w.owner, w.host)
  }

  /** Without faults the side ends at rest and does nothing when it was at rest; a PTR set that
  cannot be rewritten is forgotten and stays. */
  ghost predicate ReverseCalm(env: SyncEnv, z0: Rows, s0: ServerZones, z1: Rows, s1: ServerZones, prev: SyncRow,
                              w: Want, next: Option<ReverseRef>, note: Option<Error>) {
    && (note.None? ==> ReverseRest(env, z1, s1, prev.tenant, next, w.owner, w.zone, w.host))
    && (ReverseRest(env, z0, s0, prev.tenant, prev.reverse, w.owner, w.zone, w.host) ==>
          z1 == z0 && s1 == s0 && next == prev.reverse && note.None?)
    && (RefusedThere(env, z0, s0, prev, w) ==> next.None? && z1 == z0 && s1 == s0 && note.None?)
  }

  /** The whole reverse side. */
  method ReverseSide(st: Store, pd: Server, env: SyncEnv, all: seq<Zone>, ghost before: Rows, prev: SyncRow, w: Want,
                     newId: string)
    returns (next: Option<ReverseRef>, err: Option<Error>, note: Option<Error>)
    requires SystemOK(env, st.zones, pd.zones) && RowRefsOK(st.zones, prev) && RowFree(prev, newId) &&
             newId !in st.zones
    requires Lists(all, before, prev.tenant) && SameReverse(before, st.zones, prev.tenant)
    requires Wanted(env, w)
    modifies st`faults, st`zones, pd`faults, pd`zones
    ensures old(st.Clean()) ==> st.Clean()
    ensures old(pd.Clean()) ==> pd.Clean()
    ensures SystemOK(env, st.zones, pd.zones) && (old(AllLinked(st.zones, pd.zones)) ==> AllLinked(st.zones, pd.zones))
    ensures Within(st.zones, prev.tenant, old(pd.zones), pd.zones)
    ensures ReverseOnly(old(st.zones), old(pd.zones), st.zones, pd.zones, newId)
    // only a failed removal is noted
    ensures note.Some? ==> err == note && prev.reverse.Some?
    ensures old(st.Clean() && pd.Clean() && ReverseRemovable(st.zones, pd.zones, prev)) ==> note.None?
    ensures pd.down ==> err.Some? && st.zones == old(st.zones) && pd.zones == old(pd.zones)
    ensures ReverseTracked(old(st.zones), old(pd.zones), st.zones, pd.zones, prev, w, next, err)
    ensures old(Calm(st, pd)) ==>
              ReverseCalm(env, old(st.zones), old(pd.zones), st.zones, pd.zones, prev, w, next, note)
  {
    hide Within, AllWellFormed, SyncLaws, OwnerIn, NoNew, PtrOnly, CanonicalZone, InZone, RowRefsOK, AllLinked, Filed,
      Wanted, BestZone, NoZone, CreateRefused, ZoneStep, HasName, Lists, IsReverse, Grown, ZonesOK, RowFree,
      SameReverse, ReverseOnly, PtrRefused, ContentsAt, Hostname, Present, SystemOK, ReverseTracked, ReverseCalm,
      ReverseMoveCalm, ReverseTargetClean, ReverseRemovable, Extended, SecondaryRef, MaybeZone;
    WantedZone(env, w);
    var owner := w.owner;
    var target := ReverseTarget(st, pd, env, all, before, prev, w, newId);
    MoreKeys(old(pd.zones), pd.zones);
    ReverseStillRemovable(old(st.zones), old(pd.zones), st.zones, pd.zones, newId, prev);
    ghost var z1, s1 := st.zones, pd.zones;
    next, err, note := ReverseMove(st, pd, env, prev, target, owner, w.host);
    ReverseTracks(old(st.zones), old(pd.zones), z1, s1, pd.zones, prev, w, target, next, err);
    ZoneThenPtr(old(st.zones), old(pd.zones), z1, s1, pd.zones, prev.tenant, newId, w.zone);
    PtrSameKeys(s1, pd.zones);
    WithinThen(z1, z1, prev.tenant, old(pd.zones), s1, pd.zones);
    if old(Calm(st, pd)) {
      ReverseEndsCalm(env, old(st.zones), old(pd.zones), z1, s1, pd.zones, prev, w, target, next, err, note);
    }
  }

  lemma PtrSameKeys(s0: ServerZones, s1: ServerZones)
    requires PtrOnly(s0, s1)
    ensures s1.Keys == s0.Keys
  {
  }

  lemma MoreKeys(s0: ServerZones, s1: ServerZones)
    requires Extended(s0, s1)
    ensures s0.Keys <= s1.Keys
  {
  }

  /** What the move tracks, the side does. */
  lemma ReverseTracks(z0: Rows, s0: ServerZones, z1: Rows, s1: ServerZones, s2: ServerZones, prev: SyncRow, w: Want,
                      target: Result<Zone>, next: Option<ReverseRef>, err: Option<Error>)
    requires NoNew(z0, s0, z1, s1, Nowhere)
    requires NoNew(z1, s1, z1, s2, if target.Ok? then PointedAt(err, target.value.id, w.owner) else Nowhere)
    requires err.None? ==> target.Ok? && next == Some(ReverseRef(target.value.id, w.owner))
    requires target.Ok? ==>
               OwnedBy(z1, prev.tenant, target.value.id) && z1[target.value.id] == target.value &&
               OwnerIn(target.value, w.owner)
    requires err.None? && prev.reverse.Some? && next != prev.reverse ==> !Present(ReverseClaim(prev), z1, s2)
    requires err.Some? ==>
               || next == prev.reverse
               || (next.None? &&
                   (prev.reverse.Some? ==> !Present(ReverseClaim(prev), z1, s2) || SecondaryRef(z1, prev)))
    ensures ReverseTracked(z0, s0, z1, s2, prev, w, next, err)
  {
    hide NoNew, Present, OwnerIn, SecondaryRef;
    NoNewThen(z0, s0, z1, s1, z1, s2, if target.Ok? then PointedAt(err, target.value.id, w.owner) else Nowhere);
  }

  lemma ReverseEndsCalm(env: SyncEnv, z0: Rows, s0: ServerZones, zones: Rows, s1: ServerZones, s2: ServerZones,
                        prev: SyncRow, w: Want, target: Result<Zone>, next: Option<ReverseRef>, err: Option<Error>,
                        note: Option<Error>)
    requires ReverseTargetClean(z0, s0, zones, s1, prev.tenant, w, target)
    requires ReverseMoveCalm(env, s1, s2, prev, target, w.owner, w.host, next, err, note) && s2.Keys == s1.Keys
    requires target.Ok? ==> BestZone(zones, prev.tenant, w.owner, true, target.value)
    requires err.None? ==>
               && target.Ok? && next == Some(ReverseRef(target.value.id, w.owner))
               && ContentsAt(s2, target.value.pdnsId, w.owner, PTR) == [w.host]
    requires note.Some? ==> err == note
    ensures ReverseCalm(env, z0, s0, zones, s2, prev, w, next, note)
  {
    hide BestZone, NoZone, CreateRefused, PtrRefused, ContentsAt;
    if target.Err? {
      RefusalKept(zones, s1, s2, prev.tenant, w.zone);
    } else if err.None? {
      assert ReverseSettled(zones, s2, prev.tenant, next, w.owner, w.host, target.value);
    }
  }
}
