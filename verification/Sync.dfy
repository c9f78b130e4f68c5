/** The IPAM sync (internal/ipamsync/sync.go): it re-reads an address from IPAM and converges
the tenant's A/AAAA and PTR records to it, keeping in one row per address what it wrote. */
module Sync {
  import opened Names
  import opened Wrappers
  import opened Model
  import opened RecordSets
  import opened Pdns
  import opened Memstore
  import opened Records
  import opened Zones
  import opened ReverseNames
  import opened Plan
  import opened SyncRecords
  import opened SyncClaims
  import opened SyncState
  import opened SyncForward
  import opened SyncReverse

  /** What IPAM answers for an address id. An address that does not parse is `None`; the prefix
  is the subnet's, or -1 when it is unknown. */
  datatype Answer = Gone | ReadFailed | Found(addr: Option<Addr>, sameId: bool, hostname: string, prefix: int)

  // ----- the reverse side leaves the forward side at rest

  lemma BestKept(z0: Rows, s0: ServerZones, z1: Rows, s1: ServerZones, newId: string, tenant: string, name: string)
    requires ReverseOnly(z0, s0, z1, s1, newId)
    ensures forall b :: BestZone(z0, tenant, name, false, b) ==> BestZone(z1, tenant, name, false, b)
    ensures NoZone(z0, tenant, name, false) ==> NoZone(z1, tenant, name, false)
  {
    hide IsReverse, InZone, SetAt;
    forall id | OwnedBy(z1, tenant, id) && InTree(z1[id], name, false)
      ensures OwnedBy(z0, tenant, id) && z0[id] == z1[id] {}
  }

  lemma AddRefusedKept(env: SyncEnv, z0: Rows, s0: ServerZones, z1: Rows, s1: ServerZones, newId: string,
                       z: Zone, host: string, typ: RRType, lit: string)
    requires ReverseOnly(z0, s0, z1, s1, newId) && AddressType(typ) && AddRefused(env, z, s0, host, typ, lit) &&
             z.pdnsId in s0
    ensures AddRefused(env, z, s1, host, typ, lit)
  {
    hide RecordSetOf, Find;
    var id := z.pdnsId;
    assert SetAt(s1, id, host, typ) == SetAt(s0, id, host, typ);
    forall n ensures Find(s1[id].rrsets, n, CNAME) == Find(s0[id].rrsets, n, CNAME) {
      assert SetAt(s1, id, n, CNAME) == SetAt(s0, id, n, CNAME);
    }
    RecordSetByFind(env.base.rules, z.name, AddInput(env, s0, id, host, typ, lit), s0[id].rrsets, s1[id].rrsets);
  }

  lemma CreateRefusedKept(z0: Rows, s0: ServerZones, z1: Rows, s1: ServerZones, newId: string, tenant: string,
                          name: string)
    requires ReverseOnly(z0, s0, z1, s1, newId) && CreateRefused(z0, s0, tenant, name)
    ensures CreateRefused(z1, s1, tenant, name)
  {
    hide Overlaps, SetAt, IsReverse;
    if id :| id in z0 && z0[id].tenant == tenant && z0[id].name == name { assert id in z1; }
    if id :| id in z0 && z0[id].tenant != tenant && Overlaps(name, z0[id].name) { assert id in z1; }
    if id :| id in z0 && z0[id].pdnsId == name { assert id in z1; }
  }

  lemma ForwardRestKept(env: SyncEnv, z0: Rows, s0: ServerZones, z1: Rows, s1: ServerZones, newId: string,
                        tenant: string, fwd: Option<ForwardRef>, host: string, typ: RRType, lit: string)
    requires ReverseOnly(z0, s0, z1, s1, newId) && AddressType(typ) && AllLinked(z0, s0)
    requires ForwardRest(env, z0, s0, tenant, fwd, host, typ, lit)
    ensures ForwardRest(env, z1, s1, tenant, fwd, host, typ, lit)
  {
    hide BestZone, NoZone, CreateRefused, NewForwardZone, AddRefused, HasValue, ReverseOnly;
    BestKept(z0, s0, z1, s1, newId, tenant, host);
    if z :| ForwardSettled(z0, s0, tenant, fwd, host, typ, lit, z) {
      ValueKept(z0, s0, z1, s1, newId, z.pdnsId, host, typ, lit);
      assert ForwardSettled(z1, s1, tenant, fwd, host, typ, lit, z);
    } else if NoZone(z0, tenant, host, false) && NewForwardZone(env, host).None? {
    } else if NoZone(z0, tenant, host, false) && CreateRefused(z0, s0, tenant, NewForwardZone(env, host).value) {
      CreateRefusedKept(z0, s0, z1, s1, newId, tenant, NewForwardZone(env, host).value);
    } else {
      var z :| BestZone(z0, tenant, host, false, z) && AddRefused(env, z, s0, host, typ, lit);
      BestFacts(z0, tenant, host, false, z);
      AddRefusedKept(env, z0, s0, z1, s1, newId, z, host, typ, lit);
    }
  }

  lemma ValueKept(z0: Rows, s0: ServerZones, z1: Rows, s1: ServerZones, newId: string, id: string, host: string,
                  typ: RRType, lit: string)
    requires ReverseOnly(z0, s0, z1, s1, newId) && AddressType(typ) && HasValue(s0, id, host, typ, lit)
    ensures HasValue(s1, id, host, typ, lit)
  {
    hide Find;
    assert SetAt(s1, id, host, typ) == SetAt(s0, id, host, typ);
  }

  // ----- the row and its claims

  /** The row's forward reference holds the address literal the sync is about to write, and its
  reverse reference is not in a secondary zone. */
  ghost predicate Stable(zones: Rows, row: SyncRow, lit: string) {
    (row.forward.Some? ==> row.address == lit) && !SecondaryRef(zones, row)
  }

  /** The zone list read before the forward side still holds every reverse zone. */
  lemma ReverseUnchanged(z0: Rows, z1: Rows, newId: string, tenant: string)
    requires Grown(z0, z1, newId) && AddsForward(z0, z1, newId)
    ensures SameReverse(z0, z1, tenant)
  {
    hide IsReverse;
  }

  ghost predicate AtRest(env: SyncEnv, zones: Rows, server: ServerZones, rows: SyncRows,
                         tenant: string, id: string, w: Want) {
    && (tenant, id) in rows
    && var row := rows[(tenant, id)];
       row == SyncRow(tenant, id, w.lit, w.host, row.forward, row.reverse) && RowRest(env, zones, server, row, w)
  }

  /** Both sides of the row are converged, or refused for good and not referred to. */
  ghost predicate RowRest(env: SyncEnv, zones: Rows, server: ServerZones, row: SyncRow, w: Want) {
    && ForwardRest(env, zones, server, row.tenant, row.forward, w.host, w.typ, w.lit)
    && ReverseRest(env, zones, server, row.tenant, row.reverse, w.owner, w.zone, w.host)
  }

  /** How the two sides left the previous record of each kind: gone, or under the reference the
  row keeps. */
  ghost predicate SidesLeft(zones: Rows, server: ServerZones, prev: SyncRow, next: SyncRow) {
    && (prev.forward.Some? && Present(ForwardClaim(prev), zones, server) ==>
          next.forward == prev.forward)
    && (prev.reverse.Some? && Present(ReverseClaim(prev), zones, server) ==>
          next.reverse == prev.reverse || (next.reverse.None? && SecondaryRef(zones, prev)))
  }

  /** With a stable address the row written after both sides names every live claim. */
  lemma RowNamesClaims(zones: Rows, server: ServerZones, claims: set<Claim>, added: set<Claim>, rows: SyncRows,
                       prev: SyncRow, next: SyncRow)
    requires Tracked(claims, rows) && SidesLeft(zones, server, prev, next) && Stable(zones, prev, next.address)
    requires (prev.tenant, prev.id) == (next.tenant, next.id)
    requires (prev.tenant, prev.id) in rows ==> rows[(prev.tenant, prev.id)] == prev
    requires forall c :: c in added ==> Named(c, rows[(next.tenant, next.id) := next])
    ensures Tracked(Live(claims + added, zones, server), rows[(next.tenant, next.id) := next])
  {
    hide Present, SecondaryRef;
    var after := rows[(next.tenant, next.id) := next];
    forall c | c in Live(claims + added, zones, server) ensures Named(c, after) {
      if c !in added {
        assert Named(c, rows);
        if (c.tenant, c.id) == (next.tenant, next.id) {
          match c
          case Fwd(_, _, _, _, _, _) => assert c == ForwardClaim(prev);
          case Rev(_, _, _, _) => assert c == ReverseClaim(prev);
        }
      }
    }
  }

  /** A changed address whose old record stays under the kept reference is no longer named. */
  lemma ChangedAddressUnnamed(zones: Rows, server: ServerZones, claims: set<Claim>, rows: SyncRows, prev: SyncRow,
                              next: SyncRow)
    requires prev.forward.Some? && ForwardClaim(prev) in claims && Present(ForwardClaim(prev), zones, server)
    requires (prev.tenant, prev.id) == (next.tenant, next.id) && next.address != prev.address
    ensures !Tracked(Live(claims, zones, server), rows[(next.tenant, next.id) := next])
  {
    hide Present;
    assert ForwardClaim(prev) in Live(claims, zones, server);
  }

  lemma ForgottenPtrUnnamed(zones: Rows, server: ServerZones, claims: set<Claim>, rows: SyncRows, prev: SyncRow,
                            next: SyncRow)
    requires prev.reverse.Some? && ReverseClaim(prev) in claims && Present(ReverseClaim(prev), zones, server)
    requires (prev.tenant, prev.id) == (next.tenant, next.id) && next.reverse.None?
    ensures !Tracked(Live(claims, zones, server), rows[(next.tenant, next.id) := next])
  {
    hide Present;
    assert ReverseClaim(prev) in Live(claims, zones, server);
  }

  // ----- other writers

  /** Whatever other writers do to zones and records, the claims that survive stay named. */
  lemma SurvivorsNamed(claims: set<Claim>, rows: SyncRows, zones: Rows, server: ServerZones)
    requires Tracked(claims, rows)
    ensures Tracked(Live(claims, zones, server), rows)
  {
    hide Present, Named;
  }

  /** No record is left in the zone. */
  ghost predicate Vacated(zones: Rows, server: ServerZones, zoneId: string) {
    forall c: Claim :: c.zoneId == zoneId ==> !Present(c, zones, server)
  }

  lemma DeletedIsVacated(zones: Rows, server: ServerZones, zoneId: string)
    requires zoneId in zones ==> zones[zoneId].pdnsId !in server
    ensures Vacated(zones, server, zoneId)
  {
  }

  /** Deleting a zone takes its records away and clears the references to it: what survives is
  still named by the cleared rows. */
  lemma ZoneDeletedNamed(claims: set<Claim>, rows: SyncRows, zones: Rows, server: ServerZones, tenant: string,
                         zoneId: string)
    requires Tracked(claims, rows) && Vacated(zones, server, zoneId)
    ensures Tracked(Live(claims, zones, server), ClearedRows(rows, tenant, zoneId))
  {
    var after := ClearedRows(rows, tenant, zoneId);
    forall c | c in Live(claims, zones, server) ensures Named(c, after) {
      assert Named(c, rows) && Present(c, zones, server);
    }
  }

  // ----- both sides

  /** Rows as they were, and at most the two new ones, both primary. */
  ghost predicate Grown2(z0: Rows, z1: Rows, id1: string, id2: string) {
    && (forall id :: id in z0 ==> id in z1 && z1[id] == z0[id])
    && (forall id :: id in z1 && id != id1 && id != id2 ==> id in z0)
    && (forall id :: id in z1 && id !in z0 ==> !NeedsMasters(z1[id].kind))
  }

  ghost predicate NewIds(zones: Rows, row: SyncRow, id1: string, id2: string) {
    id1 !in zones && id2 !in zones && id1 != id2 && RowFree(row, id1) && RowFree(row, id2)
  }

  /** The reverse side would have to rewrite a PTR set in a secondary zone. */
  ghost predicate StuckPtr(zones: Rows, server: ServerZones, row: SyncRow, owner: string, host: string, z: Zone) {
    && BestZone(zones, row.tenant, owner, true, z) && row.reverse == Some(ReverseRef(z.id, owner))
    && NeedsMasters(z.kind)
    && z.pdnsId in server && SetAt(server, z.pdnsId, owner, PTR).Some?
    && ContentsAt(server, z.pdnsId, owner, PTR) != [host]
  }

  ghost predicate PtrStuck(zones: Rows, server: ServerZones, row: SyncRow, w: Want) {
    exists z :: StuckPtr(zones, server, row, w.owner, w.host, z)
  }

  /** The row after both sides: what it says, and what the sides left of the previous records. */
  ghost predicate NextRow(env: SyncEnv, zones: Rows, server: ServerZones, prev: SyncRow, next: SyncRow, w: Want,
                          fwd: bool, rev: bool) {
    && next == SyncRow(prev.tenant, prev.id, w.lit, w.host, next.forward, next.reverse)
    && RowRefsOK(zones, next) && SidesLeft(zones, server, prev, next)
    && (fwd ==> next.forward.Some?) && (rev ==> next.reverse.Some?)
    && (next.forward.Some? ==> next.forward == prev.forward || next.forward.value.zoneId in zones)
    && (next.reverse.Some? ==> next.reverse == prev.reverse || next.reverse.value.zoneId in zones)
  }

  /** The records the two sides wrote. */
  ghost function Written(next: SyncRow, fwd: bool, rev: bool): set<Claim>
    requires (fwd ==> next.forward.Some?) && (rev ==> next.reverse.Some?)
  {
    (if fwd then {ForwardClaim(next)} else {}) + (if rev then {ReverseClaim(next)} else {})
  }

  /** Every record that is there now stayed as it was, or is one of those the event wrote for the
  address id. */
  ghost predicate WroteOnly(z0: Rows, s0: ServerZones, z1: Rows, s1: ServerZones, id: string, added: set<Claim>) {
    forall c :: Present(c, z1, s1) ==> Stays(c, z0, s0, z1, s1) || c.(id := id) in added
  }

  lemma SidesWrote(z0: Rows, s0: ServerZones, z1: Rows, s1: ServerZones, z2: Rows, s2: ServerZones, id2: string,
                   prev: SyncRow, next: SyncRow, w: Want, ferr: Option<Error>, gerr: Option<Error>)
    requires next == SyncRow(prev.tenant, prev.id, w.lit, w.host, next.forward, next.reverse)
    requires ForwardTracked(z0, s0, z1, s1, prev, w, next.forward, ferr)
    requires ReverseTracked(z1, s1, z2, s2, prev, w, next.reverse, gerr)
    ensures (ferr.None? ==> next.forward.Some?) && (gerr.None? ==> next.reverse.Some?)
    ensures WroteOnly(z0, s0, z2, s2, next.id, Written(next, ferr.None?, gerr.None?))
  {
    hide Present, OwnerIn, SecondaryRef, SetAt;
    forall c | Present(c, z2, s2)
      ensures Stays(c, z0, s0, z2, s2) || c.(id := next.id) in Written(next, ferr.None?, gerr.None?)
    {
      PresentOwned(c, z2, s2);
      PresentOwned(c, z1, s1);
      StaysThen(c, z0, s0, z1, s1, z2, s2);
    }
  }

  /** Nothing but a fault can keep the row's records. */
  ghost predicate RowRemovable(env: SyncEnv, zones: Rows, server: ServerZones, row: SyncRow) {
    ForwardRemovable(env, zones, server, row) && ReverseRemovable(zones, server, row)
  }

  lemma StuckLater(z0: Rows, s0: ServerZones, z1: Rows, s1: ServerZones, env: SyncEnv, row: SyncRow, owner: string,
                   host: string, z: Zone)
    requires StuckPtr(z0, s0, row, owner, host, z) && SameReverse(z0, z1, row.tenant) && KeepsOthers(s0, s1)
    ensures StuckPtr(z1, s1, row, owner, host, z) && PtrRefused(env, z, s1, owner, host)
  {
    hide Find, IsReverse, InZone, RecordSetOf;
    assert SetAt(s1, z.pdnsId, owner, PTR) == SetAt(s0, z.pdnsId, owner, PTR);
  }

  lemma RowRefsNext(z1: Rows, z2: Rows, newId: string, row: SyncRow, next: SyncRow)
    requires Grown(z1, z2, newId) && RowRefsOK(z2, row) && next.tenant == row.tenant
    requires next.forward == row.forward || next.forward.None? ||
             (var f := next.forward.value;
              AddressType(f.typ) && OwnedBy(z1, row.tenant, f.zoneId) && OwnerIn(z1[f.zoneId], f.name))
    requires next.reverse == row.reverse || next.reverse.None? ||
             (var g := next.reverse.value; OwnedBy(z2, row.tenant, g.zoneId) && OwnerIn(z2[g.zoneId], g.owner))
    ensures RowRefsOK(z2, next)
  {
    hide OwnerIn;
  }

  lemma RowRefsGrown(z0: Rows, z1: Rows, newId: string, row: SyncRow)
    requires RowRefsOK(z0, row) && RowFree(row, newId) && Grown(z0, z1, newId)
    ensures RowRefsOK(z1, row)
  {
    hide OwnerIn;
  }

  lemma Grown2Same(zones: Rows, id1: string, id2: string)
    ensures Grown2(zones, zones, id1, id2)
  {
  }

  lemma BeforeReverse(z0: Rows, z1: Rows, id1: string, id2: string, prev: SyncRow)
    requires Grown(z0, z1, id1) && AddsForward(z0, z1, id1) && NewIds(z0, prev, id1, id2) && RowRefsOK(z0, prev)
    ensures RowRefsOK(z1, prev) && RowFree(prev, id2) && id2 !in z1 && SameReverse(z0, z1, prev.tenant)
  {
    hide RowRefsOK, AddsForward, SameReverse, RowFree;
    RowRefsGrown(z0, z1, id1, prev);
    ReverseUnchanged(z0, z1, id1, prev.tenant);
  }

  /** How a side left its previous record, once the other side is done too. */
  lemma SidesDone(env: SyncEnv, z0: Rows, s0: ServerZones, z1: Rows, s1: ServerZones, z2: Rows, s2: ServerZones,
                  id1: string, id2: string, prev: SyncRow, next: SyncRow, w: Want, ferr: Option<Error>,
                  gerr: Option<Error>)
    requires AddressType(w.typ) && next == SyncRow(prev.tenant, prev.id, w.lit, w.host, next.forward, next.reverse)
    requires Grown(z0, z1, id1) && ReverseOnly(z1, s1, z2, s2, id2) && RowRefsOK(z1, prev) && RowFree(prev, id2)
    requires ForwardTracked(z0, s0, z1, s1, prev, w, next.forward, ferr)
    requires ReverseTracked(z1, s1, z2, s2, prev, w, next.reverse, gerr)
    ensures NextRow(env, z2, s2, prev, next, w, ferr.None?, gerr.None?)
    ensures Grown2(z0, z2, id1, id2)
  {
    hide Present, OwnerIn, SecondaryRef, RowFree, RowRefsOK, SetAt, IsReverse;
    RowRefsGrown(z1, z2, id2, prev);
    RowRefsNext(z1, z2, id2, prev, next);
    if prev.forward.Some? && Present(ForwardClaim(prev), z2, s2) {
      assert Present(ForwardClaim(prev), z1, s1);
    }
  }

  lemma StuckStays(env: SyncEnv, z0: Rows, s0: ServerZones, z1: Rows, s1: ServerZones, prev: SyncRow, w: Want)
    requires PtrStuck(z0, s0, prev, w)
    requires SameReverse(z0, z1, prev.tenant) && KeepsOthers(s0, s1) && RowRefsOK(z1, prev)
    ensures RefusedThere(env, z1, s1, prev, w) && Present(ReverseClaim(prev), z1, s1)
  {
    hide SameReverse, KeepsOthers, PtrRefused, SetAt, ContentsAt;
    var z :| StuckPtr(z0, s0, prev, w.owner, w.host, z);
    StuckLater(z0, s0, z1, s1, env, prev, w.owner, w.host, z);
    BestFacts(z1, prev.tenant, w.owner, true, z);
  }

  /** Without faults: both sides at rest, nothing done when they were, and a stuck PTR forgotten. */
  ghost predicate BothCalm(env: SyncEnv, z0: Rows, s0: ServerZones, z1: Rows, s1: ServerZones, prev: SyncRow, w: Want,
                           next: SyncRow, first: Option<Error>) {
    && (first.None? ==> RowRest(env, z1, s1, next, w))
    && ((prev.forward.Some? ==> prev.address == w.lit) && RowRest(env, z0, s0, prev, w) ==>
          z1 == z0 && s1 == s0 && first.None? && next.forward == prev.forward && next.reverse == prev.reverse)
    && (PtrStuck(z0, s0, prev, w) ==> prev.reverse.Some? && next.reverse.None? && Present(ReverseClaim(prev), z1, s1))
  }

  lemma SidesCalm(env: SyncEnv, z0: Rows, s0: ServerZones, z1: Rows, s1: ServerZones, z2: Rows, s2: ServerZones,
                  id2: string, prev: SyncRow, next: SyncRow, w: Want, fnote: Option<Error>, gnote: Option<Error>)
    requires AddressType(w.typ) && next == SyncRow(prev.tenant, prev.id, w.lit, w.host, next.forward, next.reverse)
    requires ReverseOnly(z1, s1, z2, s2, id2) && SameReverse(z0, z1, prev.tenant) && KeepsOthers(s0, s1) &&
             RowRefsOK(z1, prev)
    ensures AllLinked(z1, s1) && ForwardCalm(env, z0, s0, z1, s1, prev, w, next.forward, fnote) &&
            ReverseCalm(env, z1, s1, z2, s2, prev, w, next.reverse, gnote) ==>
              BothCalm(env, z0, s0, z2, s2, prev, w, next, if fnote.Some? then fnote else gnote)
  {
    hide ForwardRest, ReverseRest, ReverseOnly, SameReverse, KeepsOthers, RowRefsOK, Present, RefusedThere, AllLinked,
      PtrStuck;
    if && AllLinked(z1, s1) && ForwardCalm(env, z0, s0, z1, s1, prev, w, next.forward, fnote)
       && ReverseCalm(env, z1, s1, z2, s2, prev, w, next.reverse, gnote) {
      if fnote.None? {
        ForwardRestKept(env, z1, s1, z2, s2, id2, prev.tenant, next.forward, w.host, w.typ, w.lit);
      }
      if PtrStuck(z0, s0, prev, w) {
        StuckStays(env, z0, s0, z1, s1, prev, w);
        StuckHasReverse(z0, s0, prev, w);
      }
    }
  }

  lemma StuckHasReverse(zones: Rows, server: ServerZones, prev: SyncRow, w: Want)
    requires PtrStuck(zones, server, prev, w)
    ensures prev.reverse.Some?
  {
  }

  lemma BothWithin(z1: Rows, z2: Rows, tenant: string, s0: ServerZones, s1: ServerZones, s2: ServerZones, id2: string)
    requires Within(z1, tenant, s0, s1) && Within(z2, tenant, s1, s2) && ReverseOnly(z1, s1, z2, s2, id2)
    ensures Within(z2, tenant, s0, s2)
  {
    hide Within, SetAt, IsReverse;
    WithinThen(z1, z2, tenant, s0, s1, s2);
  }

  lemma OtherKeys(s0: ServerZones, s1: ServerZones)
    requires KeepsOthers(s0, s1)
    ensures s0.Keys <= s1.Keys
  {
    hide SetAt;
  }

  lemma PresentOwned(c: Claim, zones: Rows, server: ServerZones)
    ensures Present(c, zones, server) ==> OwnedBy(zones, c.tenant, c.zoneId)
  {
  }

  /** The forward side, then the reverse side, as one transition of the row. */
  method BothSides(st: Store, pd: Server, env: SyncEnv, prev: SyncRow, w: Want, id1: string, id2: string)
    returns (r: Result<SyncRow>, first: Option<Error>, fwd: bool, rev: bool)
    requires st.Valid() && SystemOK(env, st.zones, pd.zones) && RowRefsOK(st.zones, prev) &&
             NewIds(st.zones, prev, id1, id2)
    requires Wanted(env, w)
    modifies st`faults, st`zones, pd`faults, pd`zones
    ensures old(st.Clean()) ==> st.Clean()
    ensures old(pd.Clean()) ==> pd.Clean()
    ensures SystemOK(env, st.zones, pd.zones) && (old(AllLinked(st.zones, pd.zones)) ==> AllLinked(st.zones, pd.zones))
    ensures Grown2(old(st.zones), st.zones, id1, id2)
    ensures Within(st.zones, prev.tenant, old(pd.zones), pd.zones)
    ensures r.Err? ==> st.zones == old(st.zones) && pd.zones == old(pd.zones) && !old(st.Clean()) && r.error.StoreDown?
    ensures old(st.Clean()) ==> r.Ok?
    ensures r.Ok? ==>
              && NextRow(env, st.zones, pd.zones, prev, r.value, w, fwd, rev)
              && (fwd ==> r.value.forward.Some?) && (rev ==> r.value.reverse.Some?)
              && WroteOnly(old(st.zones), old(pd.zones), st.zones, pd.zones, prev.id, Written(r.value, fwd, rev))
    // only a failed removal is noted
    ensures prev.forward.None? && prev.reverse.None? ==> first.None?
    ensures old(st.Clean() && pd.Clean() && RowRemovable(env, st.zones, pd.zones, prev)) ==> first.None?
    // an unreachable server is left alone
    ensures pd.down ==> st.zones == old(st.zones) && pd.zones == old(pd.zones) && !fwd && !rev
    ensures old(Calm(st, pd)) ==>
              r.Ok? && BothCalm(env, old(st.zones), old(pd.zones), st.zones, pd.zones, prev, w, r.value, first)
    // an unreachable server keeps the old record of a changed address
    ensures pd.down && old(st.Clean()) && prev.forward.Some? && prev.address != w.lit &&
            old(Present(ForwardClaim(prev), st.zones, pd.zones)) ==>
              r.Ok? && Present(ForwardClaim(prev), st.zones, pd.zones)
  {
    hide Within, AllWellFormed, SyncLaws, OwnerIn, NoNew, CanonicalZone, Wanted, RowRefsOK, AllLinked, Filed, Present,
      Lists, Grown, ZonesOK, RowFree, AddsForward, KeepsOthers, ForwardRest, ReverseRest, ReverseOnly, SameReverse,
      StuckPtr, SecondaryRef, PtrRefused, BestZone, SystemOK, Grown2, NextRow, ForwardTracked, ReverseTracked,
      ForwardCalm, ReverseCalm, BothCalm, OwnedBy, WroteOnly, Written, ForwardRemovable, ReverseRemovable;
    first, fwd, rev := None, false, false;
    WantedHost(env, w);
    Grown2Same(st.zones, id1, id2);
    WithinNone(st.zones, prev.tenant, pd.zones);
    var all := st.ZonesForTenant(prev.tenant);
    if all.Err? { return Err(all.error), None, false, false; }
    ghost var z0, s0 := st.zones, pd.zones;
    var f, ferr, fnote := ForwardSide(st, pd, env, all.value, prev, w, id1);
    ghost var z1, s1 := st.zones, pd.zones;
    BeforeReverse(z0, z1, id1, id2, prev);
    OtherKeys(s0, s1);
    ReverseStillRemovable(z0, s0, z1, s1, id1, prev);
    var g, gerr, gnote := ReverseSide(st, pd, env, all.value, z0, prev, w, id2);
    ghost var z2, s2 := st.zones, pd.zones;
    var next := SyncRow(prev.tenant, prev.id, w.lit, w.host, f, g);
    first := if fnote.Some? then fnote else gnote;
    fwd, rev := ferr.None?, gerr.None?;
    BothWithin(z1, z2, prev.tenant, s0, s1, s2, id2);
    SidesDone(env, z0, s0, z1, s1, z2, s2, id1, id2, prev, next, w, ferr, gerr);
    SidesWrote(z0, s0, z1, s1, z2, s2, id2, prev, next, w, ferr, gerr);
    SidesCalm(env, z0, s0, z1, s1, z2, s2, id2, prev, next, w, fnote, gnote);
    r := Ok(next);
  }
}
