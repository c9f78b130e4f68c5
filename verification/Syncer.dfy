/** Handling one IPAM event, and runs of events (internal/ipamsync/sync.go). The ghost set
`mine` holds every record the sync wrote and that is still there. */
module Syncer {
  import opened Strings
  import opened Names
  import opened Wrappers
  import opened Model
  import opened Pdns
  import opened Memstore
  import opened Records
  import opened Ownership
  import opened Zones
  import opened ReverseNames
  import opened Plan
  import opened SyncRecords
  import opened SyncClaims
  import opened SyncState
  import opened SyncForward
  import opened SyncReverse
  import opened Sync

  /** What holds between events, and `mine` is what is still there. */
  ghost predicate Inv(env: SyncEnv, zones: Rows, server: ServerZones, rows: SyncRows, mine: set<Claim>) {
    && SystemOK(env, zones, server) && SyncOK(rows) && RefsOK(zones, rows)
    && forall c :: c in mine ==> Present(c, zones, server)
  }

  /** The row of an address id as the event finds it; an unknown id starts empty. */
  function RowOf(rows: SyncRows, tenant: string, id: string): SyncRow {
    if (tenant, id) in rows then rows[(tenant, id)] else SyncRow(tenant, id, "", "", None, None)
  }

  ghost predicate TwoFresh(zones: Rows, rows: SyncRows, id1: string, id2: string) {
    FreshId(zones, rows, id1) && FreshId(zones, rows, id2) && id1 != id2
  }

  /** Ids that were fresh stay fresh, except the two used. */
  ghost predicate FreshKept(z0: Rows, r0: SyncRows, z1: Rows, r1: SyncRows, id1: string, id2: string) {
    forall x :: x != id1 && x != id2 && FreshId(z0, r0, x) ==> FreshId(z1, r1, x)
  }

  /** Only the row of this id changed. */
  ghost predicate OnlyRow(r0: SyncRows, r1: SyncRows, tenant: string, id: string) {
    forall k :: k != (tenant, id) ==> (k in r1 <==> k in r0) && (k in r0 ==> r1[k] == r0[k])
  }

  /** What the sync wrote is followed: every record that is new on the server or rewritten there is
  now one of the id's, and every record of before that is still there still is one. */
  ghost predicate Follows(z0: Rows, s0: ServerZones, mine0: set<Claim>, z1: Rows, s1: ServerZones, mine1: set<Claim>,
                          tenant: string, id: string) {
    && (forall c :: Present(c, z1, s1) && !Stays(c, z0, s0, z1, s1) ==> c.tenant == tenant && c.(id := id) in mine1)
    && (forall c :: c in mine0 && Present(c, z1, s1) ==> c in mine1)
  }

  lemma WroteFollows(z0: Rows, s0: ServerZones, z1: Rows, s1: ServerZones, mine: set<Claim>, next: SyncRow, fwd: bool,
                     rev: bool)
    requires (fwd ==> next.forward.Some?) && (rev ==> next.reverse.Some?)
    requires WroteOnly(z0, s0, z1, s1, next.id, Written(next, fwd, rev))
    ensures Follows(z0, s0, mine, z1, s1, Live(mine + Written(next, fwd, rev), z1, s1), next.tenant, next.id)
  {
    hide Present, Stays;
    forall c | Present(c, z1, s1) && !Stays(c, z0, s0, z1, s1)
      ensures c.tenant == next.tenant && c.(id := next.id) in Live(mine + Written(next, fwd, rev), z1, s1)
    {
      PresentForAll(c, next.id, z1, s1);
    }
  }

  /** A record is there whoever claims it. */
  lemma PresentForAll(c: Claim, id: string, zones: Rows, server: ServerZones)
    ensures Present(c.(id := id), zones, server) == Present(c, zones, server)
  {
  }

  lemma DropFollows(zones: Rows, s0: ServerZones, s1: ServerZones, mine: set<Claim>, tenant: string, id: string)
    requires NoNew(zones, s0, zones, s1, Nowhere)
    ensures Follows(zones, s0, mine, zones, s1, Live(mine, zones, s1), tenant, id)
  {
    hide Present, Stays;
    forall c | Present(c, zones, s1) ensures Stays(c, zones, s0, zones, s1) { NothingAtNowhere(c); }
  }

  lemma FollowsNone(zones: Rows, server: ServerZones, mine: set<Claim>, tenant: string, id: string)
    ensures Follows(zones, server, mine, zones, server, mine, tenant, id)
  {
    hide Present;
  }

  // ----- what the invariant needs after each kind of step

  lemma RowRefsGrown2(z0: Rows, z1: Rows, id1: string, id2: string, row: SyncRow)
    requires RowRefsOK(z0, row) && RowFree(row, id1) && RowFree(row, id2) && Grown2(z0, z1, id1, id2)
    ensures RowRefsOK(z1, row)
  {
    hide OwnerIn;
  }

  lemma RefsAfter(z0: Rows, z1: Rows, rows: SyncRows, id1: string, id2: string)
    requires RefsOK(z0, rows) && TwoFresh(z0, rows, id1, id2) && Grown2(z0, z1, id1, id2)
    ensures RefsOK(z1, rows)
  {
    hide RowRefsOK, Grown2, RowFree;
    forall k | k in rows ensures RowRefsOK(z1, rows[k]) { RowRefsGrown2(z0, z1, id1, id2, rows[k]); }
  }

  lemma RefsWith(zones: Rows, rows: SyncRows, next: SyncRow)
    requires RefsOK(zones, rows) && RowRefsOK(zones, next)
    ensures RefsOK(zones, rows[(next.tenant, next.id) := next])
  {
    hide RowRefsOK;
  }

  lemma FreshWith(z0: Rows, z1: Rows, rows: SyncRows, prev: SyncRow, next: SyncRow, id1: string, id2: string)
    requires Grown2(z0, z1, id1, id2) && prev == RowOf(rows, prev.tenant, prev.id)
    requires next.forward.Some? ==> next.forward == prev.forward || next.forward.value.zoneId in z1
    requires next.reverse.Some? ==> next.reverse == prev.reverse || next.reverse.value.zoneId in z1
    ensures FreshKept(z0, rows, z1, rows, id1, id2) &&
            FreshKept(z0, rows, z1, rows[(next.tenant, next.id) := next], id1, id2)
  {
    forall x | x != id1 && x != id2 && FreshId(z0, rows, x)
      ensures FreshId(z1, rows, x) && FreshId(z1, rows[(next.tenant, next.id) := next], x)
    {
      assert x !in z1;
      assert RowFree(prev, x);
    }
  }

  lemma FreshSame(zones: Rows, rows: SyncRows, id1: string, id2: string)
    ensures FreshKept(zones, rows, zones, rows, id1, id2)
  {
    hide FreshId;
  }

  lemma SecondaryKept(z0: Rows, z1: Rows, id1: string, id2: string, row: SyncRow)
    requires Grown2(z0, z1, id1, id2) && RowFree(row, id1) && RowFree(row, id2)
    ensures SecondaryRef(z1, row) == SecondaryRef(z0, row)
  {
  }

  // ----- one address with a host name

  /** With a stable literal and no secondary reverse zone, what the sync wrote stays named. */
  ghost predicate UpsertTracks(zones: Rows, r0: SyncRows, r1: SyncRows, prev: SyncRow, w: Want, mine0: set<Claim>,
                               mine1: set<Claim>) {
    Tracked(mine0, r0) && Stable(zones, prev, w.lit) ==> Tracked(mine1, r1)
  }

  lemma SavedTracks(env: SyncEnv, z0: Rows, z1: Rows, s1: ServerZones, rows: SyncRows, prev: SyncRow, next: SyncRow,
                    w: Want, fwd: bool, rev: bool, id1: string, id2: string, mine: set<Claim>)
    requires NextRow(env, z1, s1, prev, next, w, fwd, rev) && prev == RowOf(rows, prev.tenant, prev.id) && SyncOK(rows)
    requires NewIds(z0, prev, id1, id2) && Grown2(z0, z1, id1, id2)
    ensures UpsertTracks(z0, rows, rows[(next.tenant, next.id) := next], prev, w, mine,
                         Live(mine + Written(next, fwd, rev), z1, s1))
  {
    hide Present, RowRefsOK, SidesLeft, SecondaryRef, Grown2, RowFree, Live;
    SecondaryKept(z0, z1, id1, id2, prev);
    if Tracked(mine, rows) && Stable(z0, prev, w.lit) {
      RowNamesClaims(z1, s1, mine, Written(next, fwd, rev), rows, prev, next);
    }
  }

  /** Without faults: at rest, and nothing done when it was; a PTR set stuck in a secondary
  zone is no longer named. */
  ghost predicate UpsertCalm(env: SyncEnv, z0: Rows, s0: ServerZones, r0: SyncRows, z1: Rows, s1: ServerZones,
                             r1: SyncRows, prev: SyncRow, w: Want, mine0: set<Claim>, mine1: set<Claim>,
                             err: Option<Error>) {
    && (err.None? ==> AtRest(env, z1, s1, r1, prev.tenant, prev.id, w))
    && (AtRest(env, z0, s0, r0, prev.tenant, prev.id, w) ==> err.None? && z1 == z0 && s1 == s0 && r1 == r0)
    && (PtrStuck(z0, s0, prev, w) && prev.reverse.Some? && ReverseClaim(prev) in mine0 ==> !Tracked(mine1, r1))
  }

  lemma SavedCalm(env: SyncEnv, z0: Rows, s0: ServerZones, z1: Rows, s1: ServerZones, rows: SyncRows, prev: SyncRow,
                  next: SyncRow, w: Want, mine0: set<Claim>, added: set<Claim>, first: Option<Error>)
    requires prev == RowOf(rows, prev.tenant, prev.id) && SyncOK(rows)
    requires next == SyncRow(prev.tenant, prev.id, w.lit, w.host, next.forward, next.reverse)
    ensures BothCalm(env, z0, s0, z1, s1, prev, w, next, first) ==>
              UpsertCalm(env, z0, s0, rows, z1, s1, rows[(next.tenant, next.id) := next], prev, w, mine0,
                         Live(mine0 + added, z1, s1), first)
  {
    hide RowRest, PtrStuck, Present, Tracked, Live;
    var after := rows[(next.tenant, next.id) := next];
    if BothCalm(env, z0, s0, z1, s1, prev, w, next, first) {
      if AtRest(env, z0, s0, rows, prev.tenant, prev.id, w) {
        assert next == prev && after == rows;
      }
      if PtrStuck(z0, s0, prev, w) && ReverseClaim(prev) in mine0 {
        ForgottenPtrUnnamed(z1, s1, mine0 + added, rows, prev, next);
      }
    }
  }

  /** Converges both records to the answer and saves the row. Only removal errors are returned. */
  method Upsert(st: Store, pd: Server, env: SyncEnv, prev: SyncRow, w: Want, id1: string, id2: string,
                ghost mine: set<Claim>)
    returns (err: Option<Error>, ghost now: set<Claim>)
    requires st.Valid() && Inv(env, st.zones, pd.zones, st.sync, mine) && TwoFresh(st.zones, st.sync, id1, id2)
    requires prev == RowOf(st.sync, prev.tenant, prev.id) && Wanted(env, w)
    modifies st`faults, st`zones, st`sync, pd`faults, pd`zones
    ensures old(st.Clean()) ==> st.Clean()
    ensures old(pd.Clean()) ==> pd.Clean()
    ensures Inv(env, st.zones, pd.zones, st.sync, now) &&
            (old(AllLinked(st.zones, pd.zones)) ==> AllLinked(st.zones, pd.zones))
    ensures Grown2(old(st.zones), st.zones, id1, id2) &&
            FreshKept(old(st.zones), old(st.sync), st.zones, st.sync, id1, id2)
    ensures Within(st.zones, prev.tenant, old(pd.zones), pd.zones) &&
            OnlyRow(old(st.sync), st.sync, prev.tenant, prev.id)
    ensures RowOf(st.sync, prev.tenant, prev.id) == prev || RowOf(st.sync, prev.tenant, prev.id).address == w.lit
    ensures Follows(old(st.zones), old(pd.zones), mine, st.zones, pd.zones, now, prev.tenant, prev.id)
    ensures err != Some(SaveState) ==> UpsertTracks(old(st.zones), old(st.sync), st.sync, prev, w, mine, now)
    ensures old(Calm(st, pd)) ==>
              UpsertCalm(env, old(st.zones), old(pd.zones), old(st.sync), st.zones, pd.zones, st.sync, prev, w, mine,
                         now, err)
    // only a failed removal, or the row store, is an error
    ensures old(st.Clean()) && prev.forward.None? && prev.reverse.None? ==> err.None?
    ensures old(st.Clean() && pd.Clean() && RowRemovable(env, st.zones, pd.zones, prev)) ==> err.None?
    // an unreachable server is left alone; a changed address is then no longer named
    ensures pd.down ==> st.zones == old(st.zones) && pd.zones == old(pd.zones)
    ensures pd.down && old(st.Clean()) && prev.forward.Some? && prev.address != w.lit && ForwardClaim(prev) in mine ==>
              !Tracked(now, st.sync)
  {
    hide Grown2, FreshKept, Within, SystemOK, RefsOK, SyncOK, RowRefsOK, Present, AllLinked, FreshId, RowFree, Wanted,
      BothCalm, UpsertCalm, UpsertTracks, ZonesOK, ChallengesOK, Follows, WroteOnly, Written, RowRemovable, NextRow,
      Live, Tracked;
    PrevFacts(st.zones, st.sync, prev, id1, id2);
    FreshSame(st.zones, st.sync, id1, id2);
    var r, first, fwd, rev := BothSides(st, pd, env, prev, w, id1, id2);
    if r.Err? {
      now := mine;
      FollowsNone(st.zones, pd.zones, mine, prev.tenant, prev.id);
      Unsaved(st.zones, st.sync, prev, w, mine);
      return Some(r.error), now;
    }
    var next := r.value;
    ghost var zones, server, rows := st.zones, pd.zones, st.sync;
    NextFacts(env, zones, server, prev, next, w, fwd, rev);
    ghost var added := Written(next, fwd, rev);
    now := Live(mine + added, zones, server);
    AllLive(mine + added, zones, server);
    WroteFollows(old(st.zones), old(pd.zones), zones, server, mine, next, fwd, rev);
    RefsAfter(old(st.zones), zones, rows, id1, id2);
    RefsWith(zones, rows, next);
    FreshWith(old(st.zones), zones, rows, prev, next, id1, id2);
    var serr := st.UpsertSync(next);
    Saved(rows, next);
    if serr.Some? { return Some(SaveState), now; }
    SavedTracks(env, old(st.zones), zones, server, rows, prev, next, w, fwd, rev, id1, id2, mine);
    SavedCalm(env, old(st.zones), old(pd.zones), zones, server, rows, prev, next, w, mine, added, first);
    if prev.forward.Some? && prev.address != w.lit && ForwardClaim(prev) in mine &&
       Present(ForwardClaim(prev), zones, server)
    {
      ChangedAddressUnnamed(zones, server, mine + added, rows, prev, next);
    }
    err := first;
  }

  lemma AllLive(claims: set<Claim>, zones: Rows, server: ServerZones)
    ensures forall c :: c in Live(claims, zones, server) ==> Present(c, zones, server)
  {
    hide Present;
  }

  lemma Saved(rows: SyncRows, next: SyncRow)
    requires SyncOK(rows)
    ensures SyncOK(rows[(next.tenant, next.id) := next])
  {
  }

  lemma Unsaved(zones: Rows, rows: SyncRows, prev: SyncRow, w: Want, mine: set<Claim>)
    ensures UpsertTracks(zones, rows, rows, prev, w, mine, mine)
  {
  }

  lemma NextFacts(env: SyncEnv, zones: Rows, server: ServerZones, prev: SyncRow, next: SyncRow, w: Want, fwd: bool,
                  rev: bool)
    requires NextRow(env, zones, server, prev, next, w, fwd, rev)
    ensures next == SyncRow(prev.tenant, prev.id, w.lit, w.host, next.forward, next.reverse) && RowRefsOK(zones, next)
    ensures (fwd ==> next.forward.Some?) && (rev ==> next.reverse.Some?)
    ensures next.forward.Some? ==> next.forward == prev.forward || next.forward.value.zoneId in zones
    ensures next.reverse.Some? ==> next.reverse == prev.reverse || next.reverse.value.zoneId in zones
  {
    hide RowRefsOK, SidesLeft;
  }

  lemma PrevFacts(zones: Rows, rows: SyncRows, prev: SyncRow, id1: string, id2: string)
    requires RefsOK(zones, rows) && TwoFresh(zones, rows, id1, id2) && prev == RowOf(rows, prev.tenant, prev.id)
    ensures RowRefsOK(zones, prev) && NewIds(zones, prev, id1, id2)
  {
    hide OwnerIn;
  }

  // ----- an address without a host name, and a deleted one

  /** Removes the forward value and the PTR set the row refers to; the zones stay. */
  method Drop(st: Store, pd: Server, env: SyncEnv, prev: SyncRow) returns (first: Option<Error>)
    requires SystemOK(env, st.zones, pd.zones) && RowRefsOK(st.zones, prev)
    modifies st`faults, pd`faults, pd`zones
    ensures old(st.Clean()) ==> st.Clean()
    ensures old(pd.Clean()) ==> pd.Clean()
    ensures SystemOK(env, st.zones, pd.zones) && (old(AllLinked(st.zones, pd.zones)) ==> AllLinked(st.zones, pd.zones))
    ensures NoNew(st.zones, old(pd.zones), st.zones, pd.zones, Nowhere) &&
            Within(st.zones, prev.tenant, old(pd.zones), pd.zones)
    ensures first.None? ==> RowGone(st.zones, pd.zones, prev)
    ensures pd.down ==> pd.zones == old(pd.zones)
    ensures old(st.Clean() && pd.Clean() && RowRemovable(env, st.zones, pd.zones, prev)) ==> first.None?
  {
    hide SystemOK, RowRefsOK, AllLinked, NoNew, Within, Present, AddressesOnly, PtrOnly, ForwardRemovable;
    first := None;
    SameStep(st.zones, pd.zones, Nowhere);
    WithinNone(st.zones, prev.tenant, pd.zones);
    if prev.forward.Some? {
      first := DropForward(st, pd, env, prev);
      AddressKeys(old(pd.zones), pd.zones);
    }
    ghost var mid := pd.zones;
    if prev.reverse.Some? {
      var err := DropReverse(st, pd, env, prev);
      if err.Some? && first.None? { first := err; }
      NoNewThen(st.zones, old(pd.zones), st.zones, mid, st.zones, pd.zones, Nowhere);
      WithinThen(st.zones, st.zones, prev.tenant, old(pd.zones), mid, pd.zones);
      if prev.forward.Some? { StaysGone(ForwardClaim(prev), st.zones, mid, pd.zones); }
    }
  }

  /** Neither record of the row is there. */
  ghost predicate RowGone(zones: Rows, server: ServerZones, row: SyncRow) {
    && (row.forward.Some? ==> !Present(ForwardClaim(row), zones, server))
    && (row.reverse.Some? ==> !Present(ReverseClaim(row), zones, server))
  }

  lemma StaysGone(c: Claim, zones: Rows, s0: ServerZones, s1: ServerZones)
    requires NoNew(zones, s0, zones, s1, Nowhere)
    ensures !Present(c, zones, s0) ==> !Present(c, zones, s1)
  {
    hide Present;
    NothingAtNowhere(c);
  }

  /** Nothing of this id is left. */
  ghost predicate NoneOf(mine: set<Claim>, tenant: string, id: string) {
    forall c :: c in mine ==> (c.tenant, c.id) != (tenant, id)
  }

  lemma ClaimOfRow(c: Claim, rows: SyncRows, row: SyncRow)
    requires Named(c, rows) && (c.tenant, c.id) == (row.tenant, row.id) && rows[(row.tenant, row.id)] == row
    ensures c.Fwd? ==> row.forward.Some? && c == ForwardClaim(row)
    ensures c.Rev? ==> row.reverse.Some? && c == ReverseClaim(row)
  {
  }

  /** Of the id's claims nothing is left once its row's records are gone. */
  lemma GoneIsClear(zones: Rows, server: ServerZones, rows: SyncRows, prev: SyncRow, mine: set<Claim>)
    requires Tracked(mine, rows) && (prev.tenant, prev.id) in rows && rows[(prev.tenant, prev.id)] == prev
    requires RowGone(zones, server, prev)
    ensures NoneOf(Live(mine, zones, server), prev.tenant, prev.id)
  {
    hide Present, Named;
    forall c | c in mine && (c.tenant, c.id) == (prev.tenant, prev.id) ensures !Present(c, zones, server) {
      ClaimOfRow(c, rows, prev);
    }
  }

  /** Changing the row of an id without claims keeps the rest named. */
  lemma OthersNamed(mine: set<Claim>, r0: SyncRows, r1: SyncRows, tenant: string, id: string)
    requires Tracked(mine, r0) && NoneOf(mine, tenant, id) && OnlyRow(r0, r1, tenant, id)
    ensures Tracked(mine, r1)
  {
    forall c | c in mine ensures Named(c, r1) { assert Named(c, r0); }
  }

  /** The cleared row: its references stay when a removal failed. */
  function ClearedRow(prev: SyncRow, failed: bool): SyncRow {
    SyncRow(prev.tenant, prev.id, prev.address, "", if failed then prev.forward else None,
            if failed then prev.reverse else None)
  }

  lemma SameRefsNamed(mine: set<Claim>, rows: SyncRows, prev: SyncRow)
    requires Tracked(mine, rows) && (prev.tenant, prev.id) in rows && rows[(prev.tenant, prev.id)] == prev
    ensures Tracked(mine, rows[(prev.tenant, prev.id) := ClearedRow(prev, true)])
  {
    forall c | c in mine ensures Named(c, rows[(prev.tenant, prev.id) := ClearedRow(prev, true)]) {
      assert Named(c, rows);
    }
  }

  /** Both ways of forgetting a row: whatever fails, what the sync wrote stays named; on success
  nothing of the id is left and the row refers to nothing. */
  ghost predicate Forgets(zones: Rows, server: ServerZones, r0: SyncRows, r1: SyncRows, prev: SyncRow,
                          mine0: set<Claim>, mine1: set<Claim>, err: Option<Error>) {
    && (err.None? ==> RowGone(zones, server, prev))
    && (Tracked(mine0, r0) ==> Tracked(mine1, r1) && (err.None? ==> NoneOf(mine1, prev.tenant, prev.id)))
    && OnlyRow(r0, r1, prev.tenant, prev.id)
    && (err.None? ==> var row := RowOf(r1, prev.tenant, prev.id); row.forward.None? && row.reverse.None?)
    && (var row := RowOf(r1, prev.tenant, prev.id);
        row.forward.Some? ==> row.address == prev.address && row.forward == prev.forward)
  }

  /** What a removal leaves of the invariant. */
  lemma AfterDrop(env: SyncEnv, zones: Rows, s0: ServerZones, s1: ServerZones, rows: SyncRows, mine: set<Claim>)
    requires Inv(env, zones, s0, rows, mine) && SystemOK(env, zones, s1)
    ensures Inv(env, zones, s1, rows, Live(mine, zones, s1))
    ensures Tracked(mine, rows) ==> Tracked(Live(mine, zones, s1), rows)
  {
    hide Present, SystemOK, RefsOK, SyncOK, Named;
  }

  lemma ClearedKeeps(zones: Rows, rows: SyncRows, prev: SyncRow, failed: bool, id1: string, id2: string)
    requires SyncOK(rows) && RefsOK(zones, rows) && (prev.tenant, prev.id) in rows &&
             rows[(prev.tenant, prev.id)] == prev
    ensures var after := rows[(prev.tenant, prev.id) := ClearedRow(prev, failed)];
            && SyncOK(after) && RefsOK(zones, after) && FreshKept(zones, rows, zones, after, id1, id2)
            && OnlyRow(rows, after, prev.tenant, prev.id)
  {
    hide OwnerIn;
  }

  /** The host name was cleared: both records go, the row stays with empty references. */
  method Clear(st: Store, pd: Server, env: SyncEnv, prev: SyncRow, id1: string, id2: string, ghost mine: set<Claim>)
    returns (err: Option<Error>, ghost now: set<Claim>)
    requires st.Valid() && Inv(env, st.zones, pd.zones, st.sync, mine)
    requires (prev.tenant, prev.id) in st.sync && st.sync[(prev.tenant, prev.id)] == prev
    modifies st`faults, st`sync, pd`faults, pd`zones
    ensures old(st.Clean()) ==> st.Clean()
    ensures old(pd.Clean()) ==> pd.Clean()
    ensures Inv(env, st.zones, pd.zones, st.sync, now) &&
            (old(AllLinked(st.zones, pd.zones)) ==> AllLinked(st.zones, pd.zones))
    ensures FreshKept(st.zones, old(st.sync), st.zones, st.sync, id1, id2) &&
            Within(st.zones, prev.tenant, old(pd.zones), pd.zones)
    ensures Forgets(st.zones, pd.zones, old(st.sync), st.sync, prev, mine, now, err)
    ensures Follows(st.zones, old(pd.zones), mine, st.zones, pd.zones, now, prev.tenant, prev.id)
    ensures old(st.Clean() && pd.Clean() && RowRemovable(env, st.zones, pd.zones, prev)) ==> err.None?
    ensures pd.down ==> pd.zones == old(pd.zones)
  {
    hide RowRemovable, FreshKept, Within, SystemOK, RefsOK, SyncOK, RowRefsOK, Present, AllLinked, FreshId, NoNew,
      ZonesOK, ChallengesOK, RowGone, Tracked, NoneOf, OnlyRow, Live, Follows;
    RefOf(st.zones, st.sync, prev);
    FreshSame(st.zones, st.sync, id1, id2);
    var derr := Drop(st, pd, env, prev);
    ghost var rows := st.sync;
    AfterDrop(env, st.zones, old(pd.zones), pd.zones, rows, mine);
    now := Live(mine, st.zones, pd.zones);
    DropFollows(st.zones, old(pd.zones), pd.zones, mine, prev.tenant, prev.id);
    var next := ClearedRow(prev, derr.Some?);
    ClearedKeeps(st.zones, rows, prev, derr.Some?, id1, id2);
    UnchangedRow(rows, prev);
    var serr := st.UpsertSync(next);
    if Tracked(mine, rows) {
      if derr.Some? {
        SameRefsNamed(now, rows, prev);
      } else {
        GoneIsClear(st.zones, pd.zones, rows, prev, mine);
        OthersNamed(now, rows, rows[(prev.tenant, prev.id) := next], prev.tenant, prev.id);
      }
    }
    err := if serr.Some? then Some(SaveState) else derr;
  }

  lemma UnchangedRow(rows: SyncRows, prev: SyncRow)
    ensures OnlyRow(rows, rows, prev.tenant, prev.id) &&
            OnlyRow(rows, rows - {(prev.tenant, prev.id)}, prev.tenant, prev.id)
  {
  }

  lemma RefOf(zones: Rows, rows: SyncRows, prev: SyncRow)
    requires RefsOK(zones, rows) && (prev.tenant, prev.id) in rows && rows[(prev.tenant, prev.id)] == prev
    ensures RowRefsOK(zones, prev)
  {
    hide RowRefsOK;
  }

  lemma RemovedKeeps(zones: Rows, rows: SyncRows, prev: SyncRow, id1: string, id2: string)
    requires SyncOK(rows) && RefsOK(zones, rows)
    ensures var after := rows - {(prev.tenant, prev.id)};
            SyncOK(after) && RefsOK(zones, after) && FreshKept(zones, rows, zones, after, id1, id2)
  {
    hide RowRefsOK;
  }

  /** The address is gone: both records go, then the row. */
  method Release(st: Store, pd: Server, env: SyncEnv, prev: SyncRow, id1: string, id2: string, ghost mine: set<Claim>)
    returns (err: Option<Error>, ghost now: set<Claim>)
    requires st.Valid() && Inv(env, st.zones, pd.zones, st.sync, mine)
    requires (prev.tenant, prev.id) in st.sync && st.sync[(prev.tenant, prev.id)] == prev
    modifies st`faults, st`sync, pd`faults, pd`zones
    ensures old(st.Clean()) ==> st.Clean()
    ensures old(pd.Clean()) ==> pd.Clean()
    ensures Inv(env, st.zones, pd.zones, st.sync, now) &&
            (old(AllLinked(st.zones, pd.zones)) ==> AllLinked(st.zones, pd.zones))
    ensures FreshKept(st.zones, old(st.sync), st.zones, st.sync, id1, id2) &&
            Within(st.zones, prev.tenant, old(pd.zones), pd.zones)
    ensures Forgets(st.zones, pd.zones, old(st.sync), st.sync, prev, mine, now, err)
    ensures Follows(st.zones, old(pd.zones), mine, st.zones, pd.zones, now, prev.tenant, prev.id)
    ensures old(st.Clean() && pd.Clean() && RowRemovable(env, st.zones, pd.zones, prev)) ==> err.None?
    ensures err.None? ==> (prev.tenant, prev.id) !in st.sync
    ensures pd.down ==> pd.zones == old(pd.zones)
  {
    hide RowRemovable, FreshKept, Within, SystemOK, RefsOK, SyncOK, RowRefsOK, Present, AllLinked, FreshId, NoNew,
      ZonesOK, ChallengesOK, RowGone, Tracked, NoneOf, OnlyRow, Live, Follows;
    RefOf(st.zones, st.sync, prev);
    FreshSame(st.zones, st.sync, id1, id2);
    UnchangedRow(st.sync, prev);
    err := Drop(st, pd, env, prev);
    ghost var rows := st.sync;
    AfterDrop(env, st.zones, old(pd.zones), pd.zones, rows, mine);
    now := Live(mine, st.zones, pd.zones);
    DropFollows(st.zones, old(pd.zones), pd.zones, mine, prev.tenant, prev.id);
    if err.Some? { return; }
    RemovedKeeps(st.zones, rows, prev, id1, id2);
    err := st.DeleteSync(prev.tenant, prev.id);
    if Tracked(mine, rows) {
      GoneIsClear(st.zones, pd.zones, rows, prev, mine);
      OthersNamed(now, rows, rows - {(prev.tenant, prev.id)}, prev.tenant, prev.id);
    }
    if err == Some(RowNotFound) { err := None; }
  }

  // ----- events

  /** What the answer asks for; None when it names no usable host. */
  function Asked(env: SyncEnv, ans: Answer): Option<Want> {
    if Readable(ans) && CanonicalHost(ans.hostname).Some?
    then Some(WantFor(env, Unmap(ans.addr.value), CanonicalHost(ans.hostname).value, ans.prefix))
    else None
  }

  /** IPAM returned the address asked for, and it parses. */
  predicate Readable(ans: Answer) {
    ans.Found? && ans.sameId && ans.addr.Some? && ValidAddr(ans.addr.value)
  }

  lemma AskedIsWanted(env: SyncEnv, ans: Answer)
    requires SyncLaws(env) && Asked(env, ans).Some?
    ensures Wanted(env, Asked(env, ans).value)
  {
    hide SyncLaws, Wanted, Hostname, WantFor;
    HostnameIdempotent(ans.hostname);
    UnmapIdempotent(ans.addr.value);
    WantedFor(env, Unmap(ans.addr.value), CanonicalHost(ans.hostname).value, ans.prefix);
  }

  /** A record the sync wrote and did not remove stays named by its id's row, unless the answer
  changes the address literal, the PTR set is in a secondary zone, or the row is not saved. */
  ghost predicate HandleTracks(env: SyncEnv, zones: Rows, r0: SyncRows, r1: SyncRows, tenant: string, id: string,
                               ans: Answer, mine0: set<Claim>, mine1: set<Claim>, err: Option<Error>) {
    Tracked(mine0, r0) &&
    (Asked(env, ans).Some? ==>
       err != Some(SaveState) && Stable(zones, RowOf(r0, tenant, id), Asked(env, ans).value.lit)) ==>
      Tracked(mine1, r1)
  }

  /** An address IPAM no longer has leaves neither row nor record. */
  ghost predicate HandleForgets(a: State, b: State, tenant: string, id: string, ans: Answer, err: Option<Error>) {
    ans.Gone? && err.None? && tenant != "" && id != "" ==>
      && (tenant, id) !in b.rows && RowGone(b.zones, b.server, RowOf(a.rows, tenant, id))
      && (Tracked(a.mine, a.rows) ==> NoneOf(b.mine, tenant, id))
  }

  /** Without faults a usable answer converges when the row's records can be removed, and the same
  answer again changes nothing. */
  ghost predicate HandleCalm(env: SyncEnv, z0: Rows, s0: ServerZones, r0: SyncRows, z1: Rows, s1: ServerZones,
                             r1: SyncRows, tenant: string, id: string, ans: Answer, err: Option<Error>) {
    Asked(env, ans).Some? && tenant != "" && id != "" ==>
      && (RowRemovable(env, z0, s0, RowOf(r0, tenant, id)) ==> err.None?)
      && (err.None? ==> AtRest(env, z1, s1, r1, tenant, id, Asked(env, ans).value))
      && (AtRest(env, z0, s0, r0, tenant, id, Asked(env, ans).value) ==> err.None? && z1 == z0 && s1 == s0 && r1 == r0)
  }

  /** Where the row's forward reference and address come from. */
  ghost predicate AddressFrom(env: SyncEnv, r0: SyncRows, r1: SyncRows, tenant: string, id: string, ans: Answer) {
    var row0, row1 := RowOf(r0, tenant, id), RowOf(r1, tenant, id);
    row1.forward.Some? ==>
      || (row1.address == row0.address && row1.forward == row0.forward)
      || (Asked(env, ans).Some? && row1.address == Asked(env, ans).value.lit)
  }

  datatype State = State(zones: Rows, server: ServerZones, rows: SyncRows, mine: set<Claim>)

  /** What one event does to the server, the rows and what the sync wrote. */
  ghost predicate Handled(env: SyncEnv, a: State, b: State, tenant: string, id: string, ans: Answer,
                          err: Option<Error>) {
    && Follows(a.zones, a.server, a.mine, b.zones, b.server, b.mine, tenant, id)
    && Within(b.zones, tenant, a.server, b.server)
    && HandleTracks(env, a.zones, a.rows, b.rows, tenant, id, ans, a.mine, b.mine, err)
    && HandleForgets(a, b, tenant, id, ans, err)
    && OnlyRow(a.rows, b.rows, tenant, id) && AddressFrom(env, a.rows, b.rows, tenant, id, ans)
  }

  lemma NoRowNoClaims(mine: set<Claim>, rows: SyncRows, tenant: string, id: string)
    requires (tenant, id) !in rows
    ensures Tracked(mine, rows) ==> NoneOf(mine, tenant, id)
  {
    if Tracked(mine, rows) {
      forall c | c in mine ensures (c.tenant, c.id) != (tenant, id) { assert Named(c, rows); }
    }
  }

  /** What an event that only reads leaves. */
  lemma Untouched(env: SyncEnv, zones: Rows, server: ServerZones, rows: SyncRows, tenant: string, id: string,
                  ans: Answer, mine: set<Claim>, err: Option<Error>, id1: string, id2: string)
    ensures Grown2(zones, zones, id1, id2) && FreshKept(zones, rows, zones, rows, id1, id2) &&
            Within(zones, tenant, server, server)
    ensures err.Some? || (tenant, id) !in rows ==>
              Handled(env, State(zones, server, rows, mine), State(zones, server, rows, mine), tenant, id, ans, err)
  {
    hide Grown2, FreshKept, Within, Tracked, Asked, Stable, NoneOf, Follows, Present;
    FollowsNone(zones, server, mine, tenant, id);
    Grown2Same(zones, id1, id2);
    FreshSame(zones, rows, id1, id2);
    WithinNone(zones, tenant, server);
    if (tenant, id) !in rows { NoRowNoClaims(mine, rows, tenant, id); }
  }

  /** Re-reads the event's address from IPAM and converges the tenant's records to it. Only the
  event's tenant is touched. */
  method Handle(st: Store, pd: Server, env: SyncEnv, tenant: string, id: string, ans: Answer, id1: string, id2: string,
                ghost mine: set<Claim>)
    returns (err: Option<Error>, ghost now: set<Claim>)
    requires st.Valid() && Inv(env, st.zones, pd.zones, st.sync, mine) && TwoFresh(st.zones, st.sync, id1, id2)
    modifies st`faults, st`zones, st`sync, pd`faults, pd`zones
    ensures old(st.Clean()) ==> st.Clean()
    ensures old(pd.Clean()) ==> pd.Clean()
    ensures Inv(env, st.zones, pd.zones, st.sync, now) &&
            (old(AllLinked(st.zones, pd.zones)) ==> AllLinked(st.zones, pd.zones))
    ensures Grown2(old(st.zones), st.zones, id1, id2) &&
            FreshKept(old(st.zones), old(st.sync), st.zones, st.sync, id1, id2)
    ensures Handled(env, State(old(st.zones), old(pd.zones), old(st.sync), mine),
                    State(st.zones, pd.zones, st.sync, now), tenant, id, ans, err)
    ensures old(Calm(st, pd)) ==>
              HandleCalm(env, old(st.zones), old(pd.zones), old(st.sync), st.zones, pd.zones, st.sync, tenant, id, ans,
                         err)
    // an error without a row, or with a row whose records can be removed, is a fault of the row store
    ensures old(st.Clean()) && tenant != "" && id != "" && Asked(env, ans).Some? && old(NoRefs(st.sync, tenant, id)) ==>
              err.None?
    // an unreachable server is left alone
    ensures pd.down ==> st.zones == old(st.zones) && pd.zones == old(pd.zones)
    // without faults a deleted or cleared address succeeds when its records can be removed
    ensures old(st.Clean() && pd.Clean()) && tenant != "" && id != "" &&
            (ans.Gone? || (Readable(ans) && Asked(env, ans).None?)) &&
            old((tenant, id) in st.sync ==> RowRemovable(env, st.zones, pd.zones, st.sync[(tenant, id)])) ==>
              err.None?
    ensures tenant == "" || id == "" || (ans.Found? && !Readable(ans)) ==>
              err.Some? && st.zones == old(st.zones) && pd.zones == old(pd.zones) && st.sync == old(st.sync)
  {
    hide RowRemovable, Grown2, FreshKept, Within, SystemOK, RefsOK, SyncOK, RowRefsOK, Present, AllLinked, FreshId,
      RowFree, Wanted, UpsertCalm, UpsertTracks, ZonesOK, ChallengesOK, OnlyRow, AddressFrom, Handled, HandleCalm,
      Forgets, CanonicalHost, WantFor, TwoFresh, Tracked, ForwardClaim, Asked, Follows;
    now := mine;
    AskedNothing(env, ans);
    if tenant == "" || id == "" {
      err := Some(Malformed);
      Untouched(env, st.zones, pd.zones, st.sync, tenant, id, ans, mine, err, id1, id2);
      Idle(env, st.zones, pd.zones, st.sync, tenant, id, ans, err);
      return;
    }
    var row := st.GetSync(tenant, id);
    if row.Err? && !row.error.RowNotFound? {
      err := Some(row.error);
      Untouched(env, st.zones, pd.zones, st.sync, tenant, id, ans, mine, err, id1, id2);
      return;
    }
    if ans.ReadFailed? || (ans.Found? && !Readable(ans)) {
      err := Some(if ans.ReadFailed? then IpamDown else Malformed);
      Untouched(env, st.zones, pd.zones, st.sync, tenant, id, ans, mine, err, id1, id2);
      Idle(env, st.zones, pd.zones, st.sync, tenant, id, ans, err);
      return;
    }
    if ans.Gone? || CanonicalHost(ans.hostname).None? {
      if row.Err? {
        err := None;
        Untouched(env, st.zones, pd.zones, st.sync, tenant, id, ans, mine, err, id1, id2);
        Idle(env, st.zones, pd.zones, st.sync, tenant, id, ans, err);
        return;
      }
      RowKeys(st.sync, tenant, id);
      Grown2Same(st.zones, id1, id2);
      if ans.Gone? {
        err, now := Release(st, pd, env, row.value, id1, id2, mine);
      } else {
        err, now := Clear(st, pd, env, row.value, id1, id2, mine);
      }
      Forgotten(env, st.zones, old(pd.zones), pd.zones, old(st.sync), st.sync, row.value, ans, mine, now, err);
      return;
    }
    var prev := if row.Ok? then row.value else SyncRow(tenant, id, "", "", None, None);
    RowKeys(st.sync, tenant, id);
    AskedFacts(env, ans);
    Laws(env, st.zones, pd.zones);
    AskedIsWanted(env, ans);
    var w := WantFor(env, Unmap(ans.addr.value), CanonicalHost(ans.hostname).value, ans.prefix);
    err, now := Upsert(st, pd, env, prev, w, id1, id2, mine);
    Upserted(env, State(old(st.zones), old(pd.zones), old(st.sync), mine), State(st.zones, pd.zones, st.sync, now),
             prev, ans, err);
    UpsertedCalm(env, old(st.zones), old(pd.zones), old(st.sync), st.zones, pd.zones, st.sync, prev, ans, mine, now,
                 err);
  }

  /** The id has no row, or one that refers to nothing. */
  predicate NoRefs(rows: SyncRows, tenant: string, id: string) {
    RowOf(rows, tenant, id).forward.None? && RowOf(rows, tenant, id).reverse.None?
  }

  lemma AskedNothing(env: SyncEnv, ans: Answer)
    ensures !Readable(ans) || CanonicalHost(ans.hostname).None? ==> Asked(env, ans).None?
  {
    hide CanonicalHost, WantFor;
  }

  lemma Laws(env: SyncEnv, zones: Rows, server: ServerZones)
    requires SystemOK(env, zones, server)
    ensures SyncLaws(env)
  {
    hide SyncLaws;
  }

  lemma AskedFacts(env: SyncEnv, ans: Answer)
    requires Readable(ans) && CanonicalHost(ans.hostname).Some?
    ensures Asked(env, ans) == Some(WantFor(env, Unmap(ans.addr.value), CanonicalHost(ans.hostname).value, ans.prefix))
  {
    hide CanonicalHost, WantFor;
  }

  /** An answer that asks for nothing, or an event without an id. */
  lemma Idle(env: SyncEnv, zones: Rows, server: ServerZones, rows: SyncRows, tenant: string, id: string, ans: Answer,
             err: Option<Error>)
    requires tenant == "" || id == "" || !Readable(ans) || CanonicalHost(ans.hostname).None?
    ensures HandleCalm(env, zones, server, rows, zones, server, rows, tenant, id, ans, err)
  {
    hide CanonicalHost, WantFor, AtRest;
  }

  lemma RowKeys(rows: SyncRows, tenant: string, id: string)
    requires SyncOK(rows)
    ensures RowOf(rows, tenant, id).tenant == tenant && RowOf(rows, tenant, id).id == id
  {
  }

  lemma Forgotten(env: SyncEnv, zones: Rows, s0: ServerZones, s1: ServerZones, r0: SyncRows, r1: SyncRows,
                  prev: SyncRow, ans: Answer, mine0: set<Claim>, mine1: set<Claim>, err: Option<Error>)
    requires Forgets(zones, s1, r0, r1, prev, mine0, mine1, err) && RowOf(r0, prev.tenant, prev.id) == prev
    requires Follows(zones, s0, mine0, zones, s1, mine1, prev.tenant, prev.id) && Within(zones, prev.tenant, s0, s1)
    requires ans.Gone? && err.None? ==> (prev.tenant, prev.id) !in r1
    requires ans.Gone? || (ans.Found? && CanonicalHost(ans.hostname).None?)
    ensures Handled(env, State(zones, s0, r0, mine0), State(zones, s1, r1, mine1), prev.tenant, prev.id, ans, err)
    ensures HandleCalm(env, zones, s0, r0, zones, s1, r1, prev.tenant, prev.id, ans, err)
  {
    hide CanonicalHost, WantFor, AtRest, Tracked, NoneOf, OnlyRow, Follows, Within, RowGone, RowRemovable;
  }

  lemma Upserted(env: SyncEnv, a: State, b: State, prev: SyncRow, ans: Answer, err: Option<Error>)
    requires prev == RowOf(a.rows, prev.tenant, prev.id) && Asked(env, ans).Some? &&
             OnlyRow(a.rows, b.rows, prev.tenant, prev.id)
    requires RowOf(b.rows, prev.tenant, prev.id) == prev ||
             RowOf(b.rows, prev.tenant, prev.id).address == Asked(env, ans).value.lit
    requires Follows(a.zones, a.server, a.mine, b.zones, b.server, b.mine, prev.tenant, prev.id)
    requires Within(b.zones, prev.tenant, a.server, b.server)
    requires err != Some(SaveState) ==>
               UpsertTracks(a.zones, a.rows, b.rows, prev, Asked(env, ans).value, a.mine, b.mine)
    ensures Handled(env, a, b, prev.tenant, prev.id, ans, err)
  {
    hide CanonicalHost, WantFor, Tracked, Stable, Follows, Within, OnlyRow;
  }

  lemma UpsertedCalm(env: SyncEnv, z0: Rows, s0: ServerZones, r0: SyncRows, z1: Rows, s1: ServerZones, r1: SyncRows,
                     prev: SyncRow, ans: Answer,
                     mine0: set<Claim>, mine1: set<Claim>, err: Option<Error>)
    requires Asked(env, ans).Some? && prev == RowOf(r0, prev.tenant, prev.id)
    ensures UpsertCalm(env, z0, s0, r0, z1, s1, r1, prev, Asked(env, ans).value, mine0, mine1, err) &&
            (RowRemovable(env, z0, s0, prev) ==> err.None?) ==>
              HandleCalm(env, z0, s0, r0, z1, s1, r1, prev.tenant, prev.id, ans, err)
  {
    hide Asked, AtRest, PtrStuck, Tracked, RowRemovable;
  }

  lemma UnmapIdempotent(a: Addr)
    requires ValidAddr(a)
    ensures Unmap(Unmap(a)) == Unmap(a)
  {
  }

  // ----- the same event twice

  /** Without faults: an event whose row's records can be removed, or that has no row, converges,
  and the same answer again changes no zone, record set or row. A zone the first event created is
  the one the plan then selects. */
  lemma AgainChangesNothing(env: SyncEnv, a: State, b: State, c: State, tenant: string, id: string, ans: Answer,
                            first: Option<Error>, second: Option<Error>)
    requires tenant != "" && id != "" && Asked(env, ans).Some? &&
             RowRemovable(env, a.zones, a.server, RowOf(a.rows, tenant, id))
    requires HandleCalm(env, a.zones, a.server, a.rows, b.zones, b.server, b.rows, tenant, id, ans, first)
    requires HandleCalm(env, b.zones, b.server, b.rows, c.zones, c.server, c.rows, tenant, id, ans, second)
    ensures first.None? && second.None? && AtRest(env, b.zones, b.server, b.rows, tenant, id, Asked(env, ans).value)
    ensures (c.zones, c.server, c.rows) == (b.zones, b.server, b.rows)
  {
    hide AtRest, Asked, RowRemovable;
  }

  /** One event after the other; `mid` is the state between them. */
  method HandleTwice(st: Store, pd: Server, env: SyncEnv, tenant: string, id: string, ans: Answer, ids: seq<string>,
                     ghost mine: set<Claim>)
    returns (first: Option<Error>, second: Option<Error>, ghost mid: State)
    requires st.Valid() && Inv(env, st.zones, pd.zones, st.sync, mine) && Calm(st, pd)
    requires |ids| == 4 && Distinct(ids) && forall x :: x in ids ==> FreshId(st.zones, st.sync, x)
    requires tenant != "" && id != "" && Asked(env, ans).Some?
    modifies st`faults, st`zones, st`sync, pd`faults, pd`zones
    ensures HandleCalm(env, old(st.zones), old(pd.zones), old(st.sync), mid.zones, mid.server, mid.rows, tenant, id,
                       ans, first)
    ensures HandleCalm(env, mid.zones, mid.server, mid.rows, st.zones, pd.zones, st.sync, tenant, id, ans, second)
    ensures old(RowRemovable(env, st.zones, pd.zones, RowOf(st.sync, tenant, id))) ==>
              && first.None? && second.None?
              && AtRest(env, st.zones, pd.zones, st.sync, tenant, id, Asked(env, ans).value)
              && mid.zones == st.zones && mid.server == pd.zones && mid.rows == st.sync
  {
    hide SystemOK, RefsOK, SyncOK, Present, AllLinked, FreshId, Asked, AtRest, Grown2, ZonesOK, ChallengesOK, Handled,
      HandleCalm, RowRemovable;
    ghost var now;
    first, now := Handle(st, pd, env, tenant, id, ans, ids[0], ids[1], mine);
    mid := State(st.zones, pd.zones, st.sync, now);
    StillValid(env, st, pd, now);
    second, now := Handle(st, pd, env, tenant, id, ans, ids[2], ids[3], now);
    if old(RowRemovable(env, st.zones, pd.zones, RowOf(st.sync, tenant, id))) {
      AgainChangesNothing(env, State(old(st.zones), old(pd.zones), old(st.sync), mine), mid,
                          State(st.zones, pd.zones, st.sync, now),
                          tenant, id, ans, first, second);
    }
  }

  lemma StillValid(env: SyncEnv, st: Store, pd: Server, now: set<Claim>)
    requires Inv(env, st.zones, pd.zones, st.sync, now) && ChallengesOK(st.challenges)
    ensures st.Valid()
  {
    hide SyncLaws, AllWellFormed, Filed, NoOverlap, RefsOK, Present;
  }

  // ----- no error is not convergence

  /** A host with a zone that would take its address is not at rest without the address. */
  lemma NotAtRest(env: SyncEnv, zones: Rows, server: ServerZones, rows: SyncRows, tenant: string, id: string, w: Want,
                  z: Zone)
    requires ZonesOK(zones) && BestZone(zones, tenant, w.host, false, z)
    requires !HasValue(server, z.pdnsId, w.host, w.typ, w.lit) && !AddRefused(env, z, server, w.host, w.typ, w.lit)
    ensures !AtRest(env, zones, server, rows, tenant, id, w)
  {
    hide BestZone, NoZone, HasValue, AddRefused, CreateRefused, NewForwardZone, ReverseRest, ZonesOK;
    BestExcludes(zones, tenant, w.host, false, z);
    forall y | BestZone(zones, tenant, w.host, false, y) ensures y == z {
      BestZoneUnique(zones, tenant, w.host, false, y, z);
    }
  }

  /** With the server unreachable a new address returns no error, though nothing was written. */
  method HandleUnreachable(st: Store, pd: Server, env: SyncEnv, tenant: string, id: string, ans: Answer, id1: string,
                           id2: string, ghost z: Zone)
    returns (err: Option<Error>)
    requires st.Valid() && Inv(env, st.zones, pd.zones, st.sync, {}) && TwoFresh(st.zones, st.sync, id1, id2)
    requires pd.down && st.Clean() && tenant != "" && id != "" && Asked(env, ans).Some? && NoRefs(st.sync, tenant, id)
    requires var w := Asked(env, ans).value;
             && BestZone(st.zones, tenant, w.host, false, z) && !HasValue(pd.zones, z.pdnsId, w.host, w.typ, w.lit)
             && !AddRefused(env, z, pd.zones, w.host, w.typ, w.lit)
    modifies st`faults, st`zones, st`sync, pd`faults, pd`zones
    ensures err.None? && pd.zones == old(pd.zones) &&
            !AtRest(env, st.zones, pd.zones, st.sync, tenant, id, Asked(env, ans).value)
  {
    hide Handled, HandleCalm, AtRest, Asked, TwoFresh, BestZone, HasValue, AddRefused, NoRefs, AllLinked, Grown2,
      FreshKept, RefsOK, SyncOK, FreshId, ChallengesOK;
    ghost var now;
    err, now := Handle(st, pd, env, tenant, id, ans, id1, id2, {});
    NotAtRest(env, st.zones, pd.zones, st.sync, tenant, id, Asked(env, ans).value, z);
  }

  // ----- runs

  /** A step of a run: an IPAM event, or anything other writers do to zones and records, with
  the references to a zone cleared only when none of its records is left. */
  datatype Step = Event(tenant: string, id: string, ans: Answer, err: Option<Error>) | Others

  ghost predicate OthersWrote(a: State, b: State) {
    && b.mine == Live(a.mine, b.zones, b.server)
    && (b.rows == a.rows || exists t, z :: Vacated(b.zones, b.server, z) && b.rows == ClearedRows(a.rows, t, z))
  }

  /** A deletion of a zone is such a step, wherever it fails. */
  lemma DeleteIsStep(a: State, b: State, tenant: string, id: string)
    requires DeletedSoFar(a.zones, a.server, a.rows, b.zones, b.server, b.rows, tenant, id)
    requires b.mine == Live(a.mine, b.zones, b.server)
    ensures OthersWrote(a, b)
  {
    hide Vacated, Live, ClearedRows;
    if b.rows != a.rows { DeletedIsVacated(b.zones, b.server, id); }
  }

  ghost predicate Steps(env: SyncEnv, a: State, b: State, step: Step) {
    match step
    case Event(tenant, id, ans, err) => Handled(env, a, b, tenant, id, ans, err)
    case Others => OthersWrote(a, b)
  }

  ghost predicate IsRun(env: SyncEnv, states: seq<State>, steps: seq<Step>) {
    && |states| == |steps| + 1
    && forall i :: 0 <= i < |steps| ==> Steps(env, states[i], states[i + 1], steps[i])
  }

  /** Every address id keeps its literal. */
  ghost predicate Literals(rows: SyncRows, lit: (string, string) -> string) {
    forall k :: k in rows && rows[k].forward.Some? ==> rows[k].address == lit(k.0, k.1)
  }

  /** An event with a host saves its row, keeps the id's literal, and finds the id's PTR set in a
  primary zone. */
  ghost predicate StableStep(env: SyncEnv, a: State, step: Step, lit: (string, string) -> string) {
    step.Event? && Asked(env, step.ans).Some? ==>
      && step.err != Some(SaveState) && Asked(env, step.ans).value.lit == lit(step.tenant, step.id)
      && !SecondaryRef(a.zones, RowOf(a.rows, step.tenant, step.id))
  }

  lemma StepTracks(env: SyncEnv, a: State, b: State, step: Step, lit: (string, string) -> string)
    requires Steps(env, a, b, step) && StableStep(env, a, step, lit)
    requires Tracked(a.mine, a.rows) && Literals(a.rows, lit)
    ensures Tracked(b.mine, b.rows) && Literals(b.rows, lit)
  {
    hide Asked, Present, Tracked, Live, Follows, Within, RowGone, SecondaryRef, NoneOf;
    match step
    case Event(tenant, id, ans, err) =>
    case Others =>
      SurvivorsNamed(a.mine, a.rows, b.zones, b.server);
      if b.rows != a.rows {
        var t, z :| Vacated(b.zones, b.server, z) && b.rows == ClearedRows(a.rows, t, z);
        ZoneDeletedNamed(a.mine, a.rows, b.zones, b.server, t, z);
      }
  }

  ghost predicate There(c: Claim, s: State) { Present(c, s.zones, s.server) }

  /** An event of the record's own address id put it on the server in step i or rewrote it there,
  and it has been there ever since. */
  ghost predicate WrittenSince(states: seq<State>, steps: seq<Step>, c: Claim, i: nat, n: nat) {
    && i < n < |states| == |steps| + 1
    && steps[i].Event? && (steps[i].tenant, steps[i].id) == (c.tenant, c.id)
    && !Stays(c, states[i].zones, states[i].server, states[i + 1].zones, states[i + 1].server)
    && forall j :: i < j <= n ==> There(c, states[j])
  }

  /** The ghost set holds every such record: nothing the sync wrote escapes it. */
  lemma {:induction false} WrittenIsMine(env: SyncEnv, states: seq<State>, steps: seq<Step>, c: Claim, i: nat, n: nat)
    requires IsRun(env, states, steps) && WrittenSince(states, steps, c, i, n)
    ensures c in states[n].mine
    decreases n
  {
    hide Present, HandleTracks, HandleForgets, OnlyRow, AddressFrom, Within;
    assert Steps(env, states[n - 1], states[n], steps[n - 1]);
    assert There(c, states[n]);
    if n == i + 1 {
      assert c.(id := c.id) == c;
    } else {
      assert There(c, states[n - 1]);
      WrittenIsMine(env, states, steps, c, i, n - 1);
    }
  }

  lemma {:induction false} RunKeepsNames(env: SyncEnv, states: seq<State>, steps: seq<Step>,
                                         lit: (string, string) -> string, n: nat)
    requires IsRun(env, states, steps) && n <= |steps|
    requires forall i :: 0 <= i < |steps| ==> StableStep(env, states[i], steps[i], lit)
    requires Tracked(states[0].mine, states[0].rows) && Literals(states[0].rows, lit)
    ensures Tracked(states[n].mine, states[n].rows) && Literals(states[n].rows, lit)
  {
    hide Steps, StableStep, Tracked, Literals;
    if n > 0 {
      RunKeepsNames(env, states, steps, lit, n - 1);
      StepTracks(env, states[n - 1], states[n], steps[n - 1], lit);
    }
  }

  /** Over every run, with any calls failing at any point but the saving of a row, an id's literal
  stable and its PTR zone primary: every record that an event wrote and that has been on the
  server since is named by its id's row. */
  lemma RunTracks(env: SyncEnv, states: seq<State>, steps: seq<Step>, lit: (string, string) -> string, n: nat, c: Claim,
                  i: nat)
    requires IsRun(env, states, steps) && n <= |steps|
    requires forall k :: 0 <= k < |steps| ==> StableStep(env, states[k], steps[k], lit)
    requires Tracked(states[0].mine, states[0].rows) && Literals(states[0].rows, lit)
    requires WrittenSince(states, steps, c, i, n)
    ensures Named(c, states[n].rows)
  {
    hide Steps, StableStep, Named, Literals, There;
    RunKeepsNames(env, states, steps, lit, n);
    WrittenIsMine(env, states, steps, c, i, n);
  }

  /** So when an event for an address IPAM no longer has returns no error, the row is gone and no
  record of the address that an event of the run wrote has stayed on the server. */
  lemma RunForgets(env: SyncEnv, states: seq<State>, steps: seq<Step>, lit: (string, string) -> string, n: nat,
                   c: Claim, i: nat)
    requires IsRun(env, states, steps) && n < |steps|
    requires forall k :: 0 <= k < |steps| ==> StableStep(env, states[k], steps[k], lit)
    requires Tracked(states[0].mine, states[0].rows) && Literals(states[0].rows, lit)
    requires steps[n].Event? && steps[n].ans.Gone? && steps[n].err.None? && steps[n].tenant != "" && steps[n].id != ""
    ensures (steps[n].tenant, steps[n].id) !in states[n + 1].rows
    ensures (c.tenant, c.id) == (steps[n].tenant, steps[n].id) ==> !WrittenSince(states, steps, c, i, n + 1)
  {
    hide StableStep, Tracked, Literals, HandleTracks, OnlyRow, AddressFrom, OthersWrote, Follows, Within, RowGone,
      There;
    RunKeepsNames(env, states, steps, lit, n);
    assert Steps(env, states[n], states[n + 1], steps[n]);
    if WrittenSince(states, steps, c, i, n + 1) { WrittenIsMine(env, states, steps, c, i, n + 1); }
  }
}
