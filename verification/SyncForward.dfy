/** The forward side of the IPAM sync (internal/ipamsync/sync.go): one address record of a
host, moved, written, kept or dropped, with what each outcome leaves behind. */
module SyncForward {
  import opened Strings
  import opened Names
  import opened Wrappers
  import opened Model
  import opened RecordSets
  import opened Pdns
  import opened Memstore
  import opened Records
  import opened Zones
  import opened Plan
  import opened SyncRecords
  import opened SyncClaims
  import opened SyncState

  // ----- the forward side

  lemma WantedHost(env: SyncEnv, w: Want)
    requires Wanted(env, w)
    ensures CanonicalHost(w.host) == Some(w.host) && AddressType(w.typ) &&
            env.base.rules.content(w.typ, w.lit) == Some(w.lit)
  {
    hide CanonicalHost;
  }

  lemma HostIsOwner(z: Zone, host: string)
    requires CanonicalZone(z.name) == Some(z.name) && CanonicalHost(host) == Some(host) && InZone(host, z.name)
    ensures OwnerIn(z, host)
  {
    hide CanonicalZone, InZone, RecordName;
    HostnameIdempotent(host);
    RecordNameAbsolute(z.name, host);
  }

  /** The claim a row's forward reference stands for. */
  function ForwardClaim(row: SyncRow): Claim
    requires row.forward.Some?
  {
    var f := row.forward.value;
    Fwd(row.tenant, row.id, f.zoneId, f.name, f.typ, row.address)
  }

  /** Only sets of address types changed, in zones that were there. */
  ghost predicate AddressesOnly(s0: ServerZones, s1: ServerZones) {
    && s1.Keys == s0.Keys
    && (forall k :: k in s0 ==> s1[k].name == s0[k].name)
    && (forall k, n, t :: !AddressType(t) ==> SetAt(s1, k, n, t) == SetAt(s0, k, n, t))
  }

  lemma AddressStep(s0: ServerZones, s1: ServerZones, s2: ServerZones, id: string, name: string, typ: RRType)
    requires AddressesOnly(s0, s1) && OnlySet(s1, s2, id, name, typ) && AddressType(typ)
    ensures AddressesOnly(s0, s2)
  {
    hide Find, Lower;
  }

  lemma AddressNone(s: ServerZones)
    ensures AddressesOnly(s, s)
  {
  }

  /** Nothing but a fault can keep the row's address record. */
  ghost predicate ForwardRemovable(env: SyncEnv, zones: Rows, server: ServerZones, row: SyncRow) {
    row.forward.Some? && OwnedBy(zones, row.tenant, row.forward.value.zoneId) ==>
      Removable(env.base.rules, zones[row.forward.value.zoneId], server, row.forward.value.name, row.forward.value.typ,
                row.address)
  }

  /** A new zone leaves the row's address record as removable as it was. */
  lemma ForwardStillRemovable(env: SyncEnv, z0: Rows, s0: ServerZones, z1: Rows, s1: ServerZones, newId: string,
                              row: SyncRow)
    requires Grown(z0, z1, newId) && RowFree(row, newId) && Extended(s0, s1)
    ensures ForwardRemovable(env, z0, s0, row) ==> ForwardRemovable(env, z1, s1, row)
  {
    hide RecordSetOf, Find, RestOf, Minus;
  }

  /** The removal of what moved, the first half of the side. */
  method DropForward(st: Store, pd: Server, env: SyncEnv, prev: SyncRow) returns (err: Option<Error>)
    requires SystemOK(env, st.zones, pd.zones) && RowRefsOK(st.zones, prev) && prev.forward.Some?
    modifies st`faults, pd`faults, pd`zones
    ensures old(st.Clean()) ==> st.Clean()
    ensures old(pd.Clean()) ==> pd.Clean()
    ensures SystemOK(env, st.zones, pd.zones) && (old(AllLinked(st.zones, pd.zones)) ==> AllLinked(st.zones, pd.zones))
    ensures NoNew(st.zones, old(pd.zones), st.zones, pd.zones, Nowhere)
    ensures Within(st.zones, prev.tenant, old(pd.zones), pd.zones)
    ensures AddressesOnly(old(pd.zones), pd.zones)
    ensures err.None? ==> !Present(ForwardClaim(prev), st.zones, pd.zones)
    ensures err.Some? ==> pd.zones == old(pd.zones)
    ensures pd.down ==> pd.zones == old(pd.zones)
    ensures pd.down && old(st.Clean()) && OwnedBy(st.zones, prev.tenant, prev.forward.value.zoneId) ==> err.Some?
    ensures old(st.Clean() && pd.Clean()) ==> (err.None? <==> old(ForwardRemovable(env, st.zones, pd.zones, prev)))
  {
    hide Removable, Within, AllWellFormed, SyncLaws, OwnerIn, OnlySet, NoNew, AddressesOnly, Find, CanonicalZone,
      ContentsAt;
    var f := prev.forward.value;
    if OwnedBy(st.zones, prev.tenant, f.zoneId) { FiledUsable(env, st.zones, pd.zones, f.zoneId); }
    SameStep(st.zones, pd.zones, Nowhere);
    AddressNone(pd.zones);
    WithinNone(st.zones, prev.tenant, pd.zones);
    err := RemoveValue(st, pd, env, prev.tenant, f.zoneId, f.name, f.typ, prev.address);
    if OwnedBy(st.zones, prev.tenant, f.zoneId) {
      var id := st.zones[f.zoneId].pdnsId;
      if err.None? {
        ValueStep(st.zones, old(pd.zones), pd.zones, f.zoneId, f.name, f.typ, Nowhere);
        AddressStep(old(pd.zones), old(pd.zones), pd.zones, id, f.name, f.typ);
      }
      OnlySetFacts(old(pd.zones), pd.zones, id, f.name, f.typ);
      WithinSet(st.zones, prev.tenant, f.zoneId, old(pd.zones), pd.zones, f.name, f.typ);
    }
    FiledKept(env, st.zones, old(pd.zones), pd.zones);
  }

  /** The host's set cannot take the address, for good. */
  ghost predicate AddRefused(env: SyncEnv, z: Zone, server: ServerZones, host: string, typ: RRType, lit: string) {
    && !HasValue(server, z.pdnsId, host, typ, lit)
    && PutRefused(env.base.rules, z, server, AddInput(env, server, z.pdnsId, host, typ, lit))
  }

  predicate ForwardMoved(prev: SyncRow, target: Result<Zone>, host: string, typ: RRType, lit: string) {
    prev.forward.Some? &&
    (target.Err? || prev.forward.value != ForwardRef(target.value.id, host, typ) || prev.address != lit)
  }

  /** Without faults a side fails for good only, and what is in place already is left alone. */
  ghost predicate ForwardMoveCalm(env: SyncEnv, s0: ServerZones, s1: ServerZones, prev: SyncRow, target: Result<Zone>,
                                  w: Want, next: Option<ForwardRef>, err: Option<Error>, note: Option<Error>) {
    && (note.None? && err.Some? && (target.Ok? || Permanent(target.error)) ==>
          && Permanent(err.value) && next.None?
          && (if target.Err? then err.value == target.error
              else AddRefused(env, target.value, s1, w.host, w.typ, w.lit)))
    && (prev.forward.None? && target.Err? ==> s1 == s0 && next.None? && note.None?)
    && (target.Ok? && prev.forward == Some(ForwardRef(target.value.id, w.host, w.typ)) && prev.address == w.lit &&
        HasValue(s0, target.value.pdnsId, w.host, w.typ, w.lit) ==>
          s1 == s0 && next == prev.forward && note.None? && err.None?)
    && (target.Ok? && prev.forward.None? && AddRefused(env, target.value, s0, w.host, w.typ, w.lit) ==>
          s1 == s0 && next.None? && note.None?)
  }

  /** One side's transition for the address record: what moved is removed first, unless the new
  target failed transiently; a failed removal keeps the reference instead of writing. */
  method ForwardMove(st: Store, pd: Server, env: SyncEnv, prev: SyncRow, target: Result<Zone>, w: Want)
    returns (next: Option<ForwardRef>, err: Option<Error>, note: Option<Error>)
    requires SystemOK(env, st.zones, pd.zones) && RowRefsOK(st.zones, prev)
    requires Wanted(env, w)
    requires target.Ok? ==>
               var z := target.value;
               OwnedBy(st.zones, prev.tenant, z.id) && st.zones[z.id] == z && InZone(w.host, z.name)
    modifies st`faults, pd`faults, pd`zones
    ensures old(st.Clean()) ==> st.Clean()
    ensures old(pd.Clean()) ==> pd.Clean()
    ensures SystemOK(env, st.zones, pd.zones) && (old(AllLinked(st.zones, pd.zones)) ==> AllLinked(st.zones, pd.zones))
    ensures Within(st.zones, prev.tenant, old(pd.zones), pd.zones)
    ensures AddressesOnly(old(pd.zones), pd.zones)
    // only a failed removal is noted
    ensures note.Some? ==> err == note && prev.forward.Some?
    ensures old(st.Clean() && pd.Clean() && ForwardRemovable(env, st.zones, pd.zones, prev)) ==> note.None?
    // a target that failed for now leaves everything as it is
    ensures target.Err? && !Permanent(target.error) ==>
              next == prev.forward && err == Some(target.error) && note.None? && pd.zones == old(pd.zones)
    // written, and nothing else appeared
    ensures NoNew(st.zones, old(pd.zones), st.zones, pd.zones,
                  if target.Ok? then WrittenAt(err, target.value.id, w.host, w.typ, w.lit) else Nowhere)
    ensures err.None? ==>
              && !pd.down && target.Ok? && next == Some(ForwardRef(target.value.id, w.host, w.typ))
              && HasValue(pd.zones, target.value.pdnsId, w.host, w.typ, w.lit)
    // the previous record is gone, or still named
    ensures err.None? && prev.forward.Some? && (next != prev.forward || prev.address != w.lit) ==>
              !Present(ForwardClaim(prev), st.zones, pd.zones)
    ensures err.Some? ==>
              next == prev.forward ||
              (next.None? && (prev.forward.Some? ==> !Present(ForwardClaim(prev), st.zones, pd.zones)))
    ensures next == prev.forward || next.None? || err.None?
    ensures old(Calm(st, pd)) ==> ForwardMoveCalm(env, old(pd.zones), pd.zones, prev, target, w, next, err, note)
    // an unreachable server keeps the previous reference of a changed address
    ensures pd.down ==> pd.zones == old(pd.zones)
    ensures pd.down && old(st.Clean()) && prev.forward.Some? && prev.address != w.lit &&
            OwnedBy(st.zones, prev.tenant, prev.forward.value.zoneId) ==>
              next == prev.forward
  {
    hide Within, AllWellFormed, SyncLaws, OwnerIn, OnlySet, NoNew, AddressesOnly, Find, CanonicalZone, ContentsAt,
      InZone, Wanted, RowRefsOK, AddRefused, AllLinked, Filed, Present;
    note := None;
    SameStep(st.zones, pd.zones, Nowhere);
    AddressNone(pd.zones);
    WithinNone(st.zones, prev.tenant, pd.zones);
    if ForwardMoved(prev, target, w.host, w.typ, w.lit) {
      if target.Err? && !Permanent(target.error) { return prev.forward, Some(target.error), None; }
      var rerr := DropForward(st, pd, env, prev);
      if rerr.Some? { return prev.forward, rerr, rerr; }
    }
    if target.Err? { return None, Some(target.error), None; }
    ghost var mid := pd.zones;
    next, err := WriteForward(st, pd, env, prev, target.value, w);
    RefusedIsAbsent(env, st.zones, pd.zones, target.value, prev, w.host, w.typ, w.lit);
    NoNewThen(st.zones, old(pd.zones), st.zones, mid, st.zones, pd.zones,
              WrittenAt(err, target.value.id, w.host, w.typ, w.lit));
    AddressChain(old(pd.zones), mid, pd.zones);
    WithinThen(st.zones, st.zones, prev.tenant, old(pd.zones), mid, pd.zones);
  }

  function WrittenAt(err: Option<Error>, zoneId: string, host: string, typ: RRType, lit: string): Place {
    if err.None? then AtValue(zoneId, host, typ, lit) else Nowhere
  }

  lemma RefusedIsAbsent(env: SyncEnv, zones: Rows, server: ServerZones, z: Zone, prev: SyncRow, host: string,
                        typ: RRType, lit: string)
    requires z.id in zones && zones[z.id] == z
    ensures AddRefused(env, z, server, host, typ, lit) && prev.forward == Some(ForwardRef(z.id, host, typ)) &&
            prev.address == lit ==>
              !Present(ForwardClaim(prev), zones, server)
  {
    hide PutRefused, ContentsAt;
  }

  lemma AddressChain(s0: ServerZones, s1: ServerZones, s2: ServerZones)
    requires AddressesOnly(s0, s1) && AddressesOnly(s1, s2)
    ensures AddressesOnly(s0, s2)
  {
    hide SetAt;
  }

  lemma ValueNeedsZone(server: ServerZones, id: string, name: string, typ: RRType, value: string)
    requires HasValue(server, id, name, typ, value)
    ensures id in server
  {
  }

  /** The write half: the reference after it, and what it left behind. */
  method WriteForward(st: Store, pd: Server, env: SyncEnv, prev: SyncRow, z: Zone, w: Want)
    returns (next: Option<ForwardRef>, err: Option<Error>)
    requires SystemOK(env, st.zones, pd.zones)
    requires Wanted(env, w)
    requires z.id in st.zones && st.zones[z.id] == z && InZone(w.host, z.name)
    modifies pd`faults, pd`zones
    ensures old(pd.Clean()) ==> pd.Clean()
    ensures SystemOK(env, st.zones, pd.zones) && (old(AllLinked(st.zones, pd.zones)) ==> AllLinked(st.zones, pd.zones))
    ensures Within(st.zones, z.tenant, old(pd.zones), pd.zones)
    ensures AddressesOnly(old(pd.zones), pd.zones)
    ensures NoNew(st.zones, old(pd.zones), st.zones, pd.zones, WrittenAt(err, z.id, w.host, w.typ, w.lit))
    ensures err.None? ==>
              !pd.down && next == Some(ForwardRef(z.id, w.host, w.typ)) &&
              HasValue(pd.zones, z.pdnsId, w.host, w.typ, w.lit)
    ensures err.Some? ==> pd.zones == old(pd.zones) && next == if Permanent(err.value) then None else prev.forward
    ensures err.Some? && Permanent(err.value) ==> AddRefused(env, z, pd.zones, w.host, w.typ, w.lit)
    ensures err.Some? && old(pd.Clean() && AllLinked(st.zones, pd.zones)) ==> Permanent(err.value)
    ensures old(HasValue(pd.zones, z.pdnsId, w.host, w.typ, w.lit)) ==>
              pd.zones == old(pd.zones) && (old(pd.Clean()) ==> err.None?)
    ensures old(pd.Clean() && AddRefused(env, z, pd.zones, w.host, w.typ, w.lit)) ==> err.Some?
    ensures prev.forward.Some? && !Present(ForwardClaim(prev), st.zones, old(pd.zones)) &&
            !(prev.forward.value == ForwardRef(z.id, w.host, w.typ) && prev.address == w.lit) ==>
              !Present(ForwardClaim(prev), st.zones, pd.zones)
  {
    hide Within, AllWellFormed, SyncLaws, OwnerIn, OnlySet, NoNew, AddressesOnly, Find, CanonicalZone, ContentsAt,
      InZone, Wanted, PutRefused, AddInput, Present;
    FiledUsable(env, st.zones, pd.zones, z.id);
    WantedHost(env, w);
    HostIsOwner(z, w.host);
    if HasValue(pd.zones, z.pdnsId, w.host, w.typ, w.lit) { ValueNeedsZone(pd.zones, z.pdnsId, w.host, w.typ, w.lit); }
    err := AddValue(pd, env, z, w.host, w.typ, w.lit);
    WithinSet(st.zones, z.tenant, z.id, old(pd.zones), pd.zones, w.host, w.typ);
    AfterAdd(env, st.zones, old(pd.zones), pd.zones, z, w.host, w.typ, w.lit, err.None?, prev);
    next :=
      if err.None? then Some(ForwardRef(z.id, w.host, w.typ))
      else if Permanent(err.value) then None else prev.forward;
  }

  /** The facts about the state after AddValue, from those before it. */
  lemma AfterAdd(env: SyncEnv, zones: Rows, s1: ServerZones, s2: ServerZones,
                 z: Zone, host: string, typ: RRType, lit: string, done: bool, prev: SyncRow)
    requires SystemOK(env, zones, s1) && AllWellFormed(env.base.rules, s2)
    requires z.id in zones && zones[z.id] == z && AddressType(typ)
    requires OnlySet(s1, s2, z.pdnsId, host, typ)
    requires done ==> ContentsAt(s2, z.pdnsId, host, typ) ==
                      if HasValue(s1, z.pdnsId, host, typ, lit) then ContentsAt(s1, z.pdnsId, host, typ)
                      else ContentsAt(s1, z.pdnsId, host, typ) + [lit]
    requires !done ==> s2 == s1
    ensures SystemOK(env, zones, s2) && (AllLinked(zones, s1) ==> AllLinked(zones, s2)) && AddressesOnly(s1, s2)
    ensures NoNew(zones, s1, zones, s2, if done then AtValue(z.id, host, typ, lit) else Nowhere)
    ensures done ==> HasValue(s2, z.pdnsId, host, typ, lit)
    ensures prev.forward.Some? && !Present(ForwardClaim(prev), zones, s1) &&
            !(prev.forward.value == ForwardRef(z.id, host, typ) && prev.address == lit) ==>
              !Present(ForwardClaim(prev), zones, s2)
  {
    hide AllWellFormed, SyncLaws, OnlySet, AddressesOnly, Find, CanonicalZone, AllLinked, ContentsAt, Lower;
    AddressNone(s1);
    AddressStep(s1, s1, s2, z.pdnsId, host, typ);
    OnlySetFacts(s1, s2, z.pdnsId, host, typ);
    FiledKept(env, zones, s1, s2);
    if done {
      ValueStep(zones, s1, s2, z.id, host, typ, AtValue(z.id, host, typ, lit));
    } else {
      SameStep(zones, s1, Nowhere);
    }
  }

  // ----- the forward side at rest

  /** No zone can hold the host's record: unmanaged, another tenant's, or refused for good. */
  ghost predicate ForwardRefused(env: SyncEnv, zones: Rows, server: ServerZones, tenant: string, host: string,
                                 typ: RRType, lit: string) {
    || (NoZone(zones, tenant, host, false) && NewForwardZone(env, host).None?)
    || (NoZone(zones, tenant, host, false) && NewForwardZone(env, host).Some? &&
        CreateRefused(zones, server, tenant, NewForwardZone(env, host).value))
    || (exists z :: BestZone(zones, tenant, host, false, z) && AddRefused(env, z, server, host, typ, lit))
  }

  /** The address is in the host's set in the zone the plan selects, and the row says so. */
  ghost predicate ForwardSettled(zones: Rows, server: ServerZones, tenant: string, fwd: Option<ForwardRef>,
                                 host: string, typ: RRType, lit: string, z: Zone)
  {
    && BestZone(zones, tenant, host, false, z) && HasValue(server, z.pdnsId, host, typ, lit)
    && fwd == Some(ForwardRef(z.id, host, typ))
  }

  ghost predicate ForwardRest(env: SyncEnv, zones: Rows, server: ServerZones, tenant: string, fwd: Option<ForwardRef>,
                              host: string, typ: RRType, lit: string)
  {
    || (exists z :: ForwardSettled(zones, server, tenant, fwd, host, typ, lit, z))
    || (fwd.None? && ForwardRefused(env, zones, server, tenant, host, typ, lit))
  }

  lemma HostTree(host: string, zone: string)
    requires CanonicalHost(host) == Some(host) && InZone(host, zone)
    ensures !IsReverse(zone)
  {
    hide Hostname;
    if HasSuffix(zone, "." + V4_SUFFIX) {
      SuffixOfInner(host, zone, "." + V4_SUFFIX);
    }
    if HasSuffix(zone, "." + V6_SUFFIX) {
      SuffixOfInner(host, zone, "." + V6_SUFFIX);
    }
  }

  lemma NewForwardFacts(env: SyncEnv, host: string)
    ensures NewForwardZone(env, host).Some? ==>
              var n := NewForwardZone(env, host).value;
              ZoneName(env.base.isSuffix, n) == Some(n) && CanonicalZone(n) == Some(n) && InZone(host, n)
  {
    hide InZone, CanonicalZone;
    var reg := env.registrable(TrimSuffix(host, "."));
    if reg.Some? { ZoneNameIdempotent(env.base.isSuffix, reg.value); }
  }

  /** What the forward side did with the previous record and wrote: on success the reference is
  the host's and any other previous record is gone; on failure the previous reference is kept,
  unless its record is gone. */
  ghost predicate ForwardTracked(z0: Rows, s0: ServerZones, z1: Rows, s1: ServerZones, prev: SyncRow, w: Want,
                                 next: Option<ForwardRef>, err: Option<Error>) {
    && NoNew(z0, s0, z1, s1,
             if err.None? && next.Some? then AtValue(next.value.zoneId, w.host, w.typ, w.lit) else Nowhere)
    && (err.None? ==>
          && next.Some? && next == Some(ForwardRef(next.value.zoneId, w.host, w.typ))
          && OwnedBy(z1, prev.tenant, next.value.zoneId) && OwnerIn(z1[next.value.zoneId], w.host))
    && (err.None? && prev.forward.Some? && (next != prev.forward || prev.address != w.lit) ==>
          !Present(ForwardClaim(prev), z1, s1))
    && (err.Some? ==>
          next == prev.forward || (next.None? && (prev.forward.Some? ==> !Present(ForwardClaim(prev), z1, s1))))
  }

  /** Without faults the side ends at rest, and does nothing when it was at rest. */
  ghost predicate ForwardCalm(env: SyncEnv, z0: Rows, s0: ServerZones, z1: Rows, s1: ServerZones, prev: SyncRow,
                              w: Want, next: Option<ForwardRef>, note: Option<Error>) {
    && (note.None? ==> ForwardRest(env, z1, s1, prev.tenant, next, w.host, w.typ, w.lit))
    && ((prev.forward.Some? ==> prev.address == w.lit) &&
        ForwardRest(env, z0, s0, prev.tenant, prev.forward, w.host, w.typ, w.lit) ==>
          z1 == z0 && s1 == s0 && next == prev.forward && note.None?)
  }

  /** The whole forward side. */
  method ForwardSide(st: Store, pd: Server, env: SyncEnv, all: seq<Zone>, prev: SyncRow, w: Want, newId: string)
    returns (next: Option<ForwardRef>, err: Option<Error>, note: Option<Error>)
    requires SystemOK(env, st.zones, pd.zones) && RowRefsOK(st.zones, prev) && RowFree(prev, newId) &&
             newId !in st.zones
    requires Lists(all, st.zones, prev.tenant)
    requires Wanted(env, w)
    modifies st`faults, st`zones, pd`faults, pd`zones
    ensures old(st.Clean()) ==> st.Clean()
    ensures old(pd.Clean()) ==> pd.Clean()
    ensures SystemOK(env, st.zones, pd.zones) && (old(AllLinked(st.zones, pd.zones)) ==> AllLinked(st.zones, pd.zones))
    ensures Grown(old(st.zones), st.zones, newId) && AddsForward(old(st.zones), st.zones, newId)
    ensures Within(st.zones, prev.tenant, old(pd.zones), pd.zones)
    ensures KeepsOthers(old(pd.zones), pd.zones)
    // only a failed removal is noted
    ensures note.Some? ==> err == note && prev.forward.Some?
    ensures old(st.Clean() && pd.Clean() && ForwardRemovable(env, st.zones, pd.zones, prev)) ==> note.None?
    // what is tracked
    ensures ForwardTracked(old(st.zones), old(pd.zones), st.zones, pd.zones, prev, w, next, err)
    ensures old(Calm(st, pd)) ==>
              ForwardCalm(env, old(st.zones), old(pd.zones), st.zones, pd.zones, prev, w, next, note)
    // an unreachable server keeps the previous reference of a changed address
    ensures pd.down ==> err.Some? && st.zones == old(st.zones) && pd.zones == old(pd.zones)
    ensures pd.down && old(st.Clean()) && prev.forward.Some? && prev.address != w.lit &&
            OwnedBy(old(st.zones), prev.tenant, prev.forward.value.zoneId) ==>
              next == prev.forward
  {
    hide Within, AllWellFormed, SyncLaws, OwnerIn, NoNew, AddressesOnly, CanonicalZone, ContentsAt, InZone, Wanted,
      RowRefsOK, AddRefused, AllLinked, Filed, Present, ZoneName, NewForwardZone, BestZone, NoZone, CreateRefused,
      ZoneStep, HasName, HasValue, Lists, IsReverse, Grown, ZonesOK, RowFree, KeepsOthers, ForwardRemovable, Extended,
      SystemOK, ForwardTracked, ForwardCalm, ForwardMoveCalm, ForwardTargetClean, AddsForward;
    WantedHost(env, w);
    var target := ForwardTarget(st, pd, env, all, prev, w.host, newId);
    ForwardStillRemovable(env, old(st.zones), old(pd.zones), st.zones, pd.zones, newId, prev);
    ghost var z1, s1 := st.zones, pd.zones;
    next, err, note := ForwardMove(st, pd, env, prev, target, w);
    OthersChain(old(pd.zones), s1, pd.zones);
    WithinThen(z1, z1, prev.tenant, old(pd.zones), s1, pd.zones);
    ForwardTracks(old(st.zones), old(pd.zones), z1, s1, pd.zones, prev, w, target, next, err);
    AddressKeys(s1, pd.zones);
    if old(Calm(st, pd)) {
      ForwardEndsCalm(env, old(st.zones), old(pd.zones), z1, s1, pd.zones, prev, w, target, next, err, note);
    }
  }

  /** What the move tracks, the side does. */
  lemma ForwardTracks(z0: Rows, s0: ServerZones, z1: Rows, s1: ServerZones, s2: ServerZones, prev: SyncRow, w: Want,
                      target: Result<Zone>, next: Option<ForwardRef>, err: Option<Error>)
    requires NoNew(z0, s0, z1, s1, Nowhere)
    requires NoNew(z1, s1, z1, s2,
                   if target.Ok? then WrittenAt(err, target.value.id, w.host, w.typ, w.lit) else Nowhere)
    requires err.None? ==> target.Ok? && next == Some(ForwardRef(target.value.id, w.host, w.typ))
    requires target.Ok? ==>
               OwnedBy(z1, prev.tenant, target.value.id) && z1[target.value.id] == target.value &&
               OwnerIn(target.value, w.host)
    requires err.None? && prev.forward.Some? && (next != prev.forward || prev.address != w.lit) ==>
               !Present(ForwardClaim(prev), z1, s2)
    requires err.Some? ==>
               next == prev.forward || (next.None? && (prev.forward.Some? ==> !Present(ForwardClaim(prev), z1, s2)))
    ensures ForwardTracked(z0, s0, z1, s2, prev, w, next, err)
  {
    hide NoNew, Present, OwnerIn;
    NoNewThen(z0, s0, z1, s1, z1, s2,
              if target.Ok? then WrittenAt(err, target.value.id, w.host, w.typ, w.lit) else Nowhere);
  }

  lemma AddressKeys(s0: ServerZones, s1: ServerZones)
    requires AddressesOnly(s0, s1)
    ensures s1.Keys == s0.Keys
  {
  }

  /** Why there is no target: the plan skips the host, or its zone cannot be created. */
  ghost predicate NoTarget(env: SyncEnv, zones: Rows, server: ServerZones, tenant: string, host: string, e: Error) {
    && NoZone(zones, tenant, host, false)
    && if e.Skipped? then NewForwardZone(env, host).None?
       else
         e.Duplicate? && NewForwardZone(env, host).Some? &&
         CreateRefused(zones, server, tenant, NewForwardZone(env, host).value)
  }

  lemma ForwardEndsCalm(env: SyncEnv, z0: Rows, s0: ServerZones, zones: Rows, s1: ServerZones, s2: ServerZones,
                        prev: SyncRow, w: Want, target: Result<Zone>, next: Option<ForwardRef>, err: Option<Error>,
                        note: Option<Error>)
    requires ForwardTargetClean(env, z0, s0, zones, s1, prev.tenant, w.host, target)
    requires ForwardMoveCalm(env, s1, s2, prev, target, w, next, err, note) && s2.Keys == s1.Keys
    requires target.Ok? ==> BestZone(zones, prev.tenant, w.host, false, target.value)
    requires err.None? ==>
               && target.Ok? && next == Some(ForwardRef(target.value.id, w.host, w.typ))
               && HasValue(s2, target.value.pdnsId, w.host, w.typ, w.lit)
    requires note.Some? ==> err == note
    ensures ForwardCalm(env, z0, s0, zones, s2, prev, w, next, note)
  {
    hide BestZone, NoZone, CreateRefused, NewForwardZone, AddRefused, HasValue;
    if target.Err? && target.error.Duplicate? {
      RefusalKept(zones, s1, s2, prev.tenant, NewForwardZone(env, w.host).value);
    }
    if err.None? {
      assert ForwardSettled(zones, s2, prev.tenant, next, w.host, w.typ, w.lit, target.value);
    }
  }

  /** A zone the forward side creates is not a reverse zone. */
  ghost predicate AddsForward(z0: Rows, z1: Rows, newId: string) {
    newId in z1 && newId !in z0 ==> !IsReverse(z1[newId].name)
  }

  /** No set of another type than an address changed in the zones that were there. */
  ghost predicate KeepsOthers(s0: ServerZones, s1: ServerZones) {
    && (forall k :: k in s0 ==> k in s1)
    && (forall k, n, t :: k in s0 && !AddressType(t) ==> SetAt(s1, k, n, t) == SetAt(s0, k, n, t))
  }

  lemma OthersNone(s: ServerZones)
    ensures KeepsOthers(s, s)
  {
  }

  lemma OthersChain(s0: ServerZones, s1: ServerZones, s2: ServerZones)
    requires KeepsOthers(s0, s1) && AddressesOnly(s1, s2)
    ensures KeepsOthers(s0, s2)
  {
    hide Find;
  }

  lemma StepKeepsOthers(z0: Rows, s0: ServerZones, z1: Rows, s1: ServerZones, tenant: string, newId: string,
                        name: string)
    requires ZoneStep(z0, s0, z1, s1, tenant, newId, name)
    ensures KeepsOthers(s0, s1)
  {
    hide Find, BareZone, NameTaken;
  }

  lemma StepAddsForward(z0: Rows, s0: ServerZones, z1: Rows, s1: ServerZones, tenant: string, newId: string,
                        name: string)
    requires ZoneStep(z0, s0, z1, s1, tenant, newId, name) && !IsReverse(name)
    ensures AddsForward(z0, z1, newId)
  {
    hide IsReverse, BareZone, OneMore, NameTaken;
  }

  /** Without faults only the plan or a taken name leaves no target, and an existing zone is the
  target. */
  ghost predicate ForwardTargetClean(env: SyncEnv, z0: Rows, s0: ServerZones, z1: Rows, s1: ServerZones, tenant: string,
                                     host: string, target: Result<Zone>) {
    && (target.Err? ==> z1 == z0 && s1 == s0 && NoTarget(env, z1, s1, tenant, host, target.error))
    && (forall z :: BestZone(z0, tenant, host, false, z) ==> target == Ok(z) && z1 == z0 && s1 == s0)
    && (NoZone(z0, tenant, host, false) &&
        (NewForwardZone(env, host).None? || CreateRefused(z0, s0, tenant, NewForwardZone(env, host).value)) ==>
          target.Err?)
  }

  /** The plan and its zone. */
  method ForwardTarget(st: Store, pd: Server, env: SyncEnv, all: seq<Zone>, prev: SyncRow, host: string, newId: string)
    returns (target: Result<Zone>)
    requires SystemOK(env, st.zones, pd.zones) && RowRefsOK(st.zones, prev) && RowFree(prev, newId) &&
             newId !in st.zones
    requires Lists(all, st.zones, prev.tenant) && CanonicalHost(host) == Some(host)
    modifies st`faults, st`zones, pd`faults, pd`zones
    ensures old(st.Clean()) ==> st.Clean()
    ensures old(pd.Clean()) ==> pd.Clean()
    ensures SystemOK(env, st.zones, pd.zones) && (old(AllLinked(st.zones, pd.zones)) ==> AllLinked(st.zones, pd.zones))
    ensures Grown(old(st.zones), st.zones, newId) && AddsForward(old(st.zones), st.zones, newId)
    ensures Within(st.zones, prev.tenant, old(pd.zones), pd.zones)
    ensures KeepsOthers(old(pd.zones), pd.zones) && Extended(old(pd.zones), pd.zones)
    ensures NoNew(old(st.zones), old(pd.zones), st.zones, pd.zones, Nowhere)
    ensures RowRefsOK(st.zones, prev)
    ensures target.Ok? ==>
              && BestZone(st.zones, prev.tenant, host, false, target.value) && InZone(host, target.value.name)
              && OwnedBy(st.zones, prev.tenant, target.value.id) && st.zones[target.value.id] == target.value
              && OwnerIn(target.value, host)
    ensures old(st.Clean() && pd.Clean()) ==>
              ForwardTargetClean(env, old(st.zones), old(pd.zones), st.zones, pd.zones, prev.tenant, host, target)
    ensures pd.down ==> st.zones == old(st.zones) && pd.zones == old(pd.zones)
  {
    hide Within, AllWellFormed, SyncLaws, OwnerIn, NoNew, CanonicalZone, InZone, CanonicalHost, RowRefsOK, AllLinked,
      Filed, ZoneName, NewForwardZone, BestZone, NoZone, CreateRefused, ZoneStep, HasName, Lists, IsReverse, Grown,
      ZonesOK, RowFree, KeepsOthers;
    var tenant := prev.tenant;
    NewForwardFacts(env, host);
    OthersNone(pd.zones);
    WithinNone(st.zones, tenant, pd.zones);
    var plan := PlanForward(env, all, host, st.zones, tenant);
    forall z | BestZone(st.zones, tenant, host, false, z)
      ensures !NoZone(st.zones, tenant, host, false) && plan == Ok(Existing(z.id)) && OwnedBy(st.zones, tenant, z.id)
      ensures st.zones[z.id] == z
    {
      BestExcludes(st.zones, tenant, host, false, z);
      PlanSelectsBest(st.zones, tenant, host, false, NewForwardZone(env, host), plan.value, z);
      BestFacts(st.zones, tenant, host, false, z);
    }
    if plan.Err? {
      SameStep(st.zones, pd.zones, Nowhere);
      GrownSame(st.zones, newId);
      return Err(plan.error);
    }
    if plan.value.New? {
      HostTree(host, plan.value.zone);
      NoZoneNoName(st.zones, tenant, host, false, plan.value.zone);
    } else {
      BestFacts(st.zones, tenant, host, false, st.zones[plan.value.id]);
    }
    target := ZoneFor(st, pd, env, tenant, plan.value, newId);
    AfterZoneFor(env, old(st.zones), old(pd.zones), st.zones, pd.zones, tenant, host, false, NewForwardZone(env, host),
                 plan.value, newId, target, prev);
    if plan.value.New? {
      StepAddsForward(old(st.zones), old(pd.zones), st.zones, pd.zones, tenant, newId, plan.value.zone);
      StepKeepsOthers(old(st.zones), old(pd.zones), st.zones, pd.zones, tenant, newId, plan.value.zone);
      StepExtends(old(st.zones), old(pd.zones), st.zones, pd.zones, tenant, newId, plan.value.zone);
    }
    if target.Ok? { HostIsOwner(target.value, host); }
  }

  // ----- the forward side beside the other

  lemma ClashByFind(sets: seq<RRset>, name: string, t: RRType)
    requires !t.CNAME?
    ensures Clash(sets, name, t) <==> Find(sets, name, CNAME).Some?
  {
    hide Lower;
    if Find(sets, name, CNAME).Some? { assert Matches(Find(sets, name, CNAME).value, name, CNAME); }
    if Find(sets, name, CNAME).None? { assert forall e :: e in sets && e.typ.CNAME? ==> !Matches(e, name, CNAME); }
  }

  /** A record set of another type than CNAME depends on its zone only through a CNAME at its name. */
  lemma RecordSetByFind(rules: Rules, zone: string, inp: RecordSetInput, a: seq<RRset>, b: seq<RRset>)
    requires !inp.typ.CNAME? && forall n :: Find(a, n, CNAME) == Find(b, n, CNAME)
    ensures RecordSetOf(rules, zone, inp, a) == RecordSetOf(rules, zone, inp, b)
  {
    hide CanonicalZone, RecordName, ShapeOK, ParsedValues, Clash, Find;
    var z := CanonicalZone(zone);
    if z.Some? && RecordName(z.value, inp.name).Some? {
      ClashByFind(a, RecordName(z.value, inp.name).value, inp.typ);
      ClashByFind(b, RecordName(z.value, inp.name).value, inp.typ);
    }
  }
}
