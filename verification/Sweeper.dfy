/** The sweeper of challenge values whose clean-up never arrived (internal/acmechallenge/sweeper.go). */
module Sweeper {
  import opened Strings
  import opened Names
  import opened Wrappers
  import opened Model
  import opened RecordSets
  import opened Pdns
  import opened Memstore
  import opened Records
  import opened Zones
  import opened SyncRecords
  import opened SyncClaims
  import opened Challenges

  // ----- what a pass does to the server

  /** A challenge value at its place on the server. */
  datatype Loc = Loc(id: string, name: string, value: string)

  function LocOf(zones: Rows, c: Challenge): Loc
    requires OwnedBy(zones, c.tenant, c.zoneId)
  {
    Loc(zones[c.zoneId].pdnsId, c.fqdn, c.value)
  }

  function BadAt(gone: set<Loc>, id: string, name: string): set<string> {
    set l | l in gone && l.id == id && l.name == name :: Quoted(l.value)
  }

  /** Exactly these values were struck from their TXT sets; everything else is as it was. */
  ghost predicate Swept(s0: ServerZones, s1: ServerZones, gone: set<Loc>) {
    && s1.Keys == s0.Keys
    && (forall id, n, t :: t != TXT ==> SetAt(s1, id, n, t) == SetAt(s0, id, n, t))
    && (forall id, n :: Lower(n) == n ==> TxtAt(s1, id, n) == Struck(TxtAt(s0, id, n), BadAt(gone, id, n)))
  }

  lemma SweptNothing(server: ServerZones)
    ensures Swept(server, server, {})
  {
    hide SetAt;
    forall id, n ensures TxtAt(server, id, n) == Struck(TxtAt(server, id, n), BadAt({}, id, n)) {
      StruckNothing(TxtAt(server, id, n), BadAt({}, id, n));
    }
  }

  lemma SweptOneMore(s0: ServerZones, s1: ServerZones, s2: ServerZones, gone: set<Loc>, l: Loc)
    requires Swept(s0, s1, gone) && OnlySet(s1, s2, l.id, l.name, TXT) && Lower(l.name) == l.name
    requires TxtAt(s2, l.id, l.name) == Struck(TxtAt(s1, l.id, l.name), {Quoted(l.value)})
    ensures Swept(s0, s2, gone + {l})
  {
    hide SetAt, Lower, TxtAt, Struck, Quoted;
    OtherTxt(s1, s2, l.id, l.name);
    forall id, n | Lower(n) == n ensures TxtAt(s2, id, n) == Struck(TxtAt(s0, id, n), BadAt(gone + {l}, id, n)) {
      if id == l.id && n == l.name {
        StruckTwice(TxtAt(s0, id, n), BadAt(gone, id, n), {Quoted(l.value)});
        assert BadAt(gone + {l}, id, n) == BadAt(gone, id, n) + {Quoted(l.value)};
      } else {
        assert BadAt(gone + {l}, id, n) == BadAt(gone, id, n);
      }
    }
  }

  lemma OtherTxt(s1: ServerZones, s2: ServerZones, id: string, name: string)
    requires OnlySet(s1, s2, id, name, TXT)
    ensures forall k, n :: Lower(n) == n && !(k == id && n == name) ==> TxtAt(s2, k, n) == TxtAt(s1, k, n)
    ensures forall k, n, t :: t != TXT ==> SetAt(s2, k, n, t) == SetAt(s1, k, n, t)
  {
    hide SetAt, Lower;
  }

  /** The values struck belong to rows older than the cutoff. */
  ghost predicate FromRows(zones: Rows, rows: ChallengeRows, before: int, gone: set<Loc>) {
    forall l :: l in gone ==>
      exists k :: k in OlderThan(rows, before) && OwnedBy(zones, rows[k].tenant, rows[k].zoneId) &&
        l == LocOf(zones, rows[k])
  }

  /** A value whose row is younger than the cutoff is never touched: its record stays, with its
  disabled flag. */
  lemma YoungKept(zones: Rows, s0: ServerZones, s1: ServerZones, rows: ChallengeRows, before: int, gone: set<Loc>,
                  k: string, r: Record)
    requires ZonesOK(zones) && ChallengesOK(rows) && Swept(s0, s1, gone) && FromRows(zones, rows, before, gone)
    requires k in rows && k !in OlderThan(rows, before) && OwnedBy(zones, rows[k].tenant, rows[k].zoneId)
    requires Lower(rows[k].fqdn) == rows[k].fqdn
    requires r in TxtAt(s0, LocOf(zones, rows[k]).id, rows[k].fqdn) && r.content == Quoted(rows[k].value)
    ensures r in TxtAt(s1, LocOf(zones, rows[k]).id, rows[k].fqdn)
  {
    hide SetAt, Lower, TxtAt, Struck;
    var c := rows[k];
    var id := LocOf(zones, c).id;
    forall l | l in gone && l.id == id && l.name == c.fqdn ensures Quoted(l.value) != Quoted(c.value) {
      var j :| j in OlderThan(rows, before) && OwnedBy(zones, rows[j].tenant, rows[j].zoneId) &&
        l == LocOf(zones, rows[j]);
      assert rows[j].zoneId == c.zoneId;
      assert !SameChallenge(rows[j], c.tenant, c.fqdn, c.value);
      QuotedInjective(l.value, c.value);
    }
    StruckMembers(TxtAt(s0, id, c.fqdn), BadAt(gone, id, c.fqdn));
  }

  lemma QuotedInjective(a: string, b: string)
    ensures Quoted(a) == Quoted(b) ==> a == b
  {
    assert Quoted(a)[1..|a| + 1] == a && Quoted(b)[1..|b| + 1] == b;
  }

  // ----- what is shown only shrinks

  /** Whatever is shown afterwards was shown before. */
  ghost predicate NoneShownAnew(zones: Rows, s0: ServerZones, s1: ServerZones) {
    forall v: Value :: Lower(v.fqdn) == v.fqdn && Shown(v, zones, s1) ==> Shown(v, zones, s0)
  }

  lemma ContentsShrink(rs: seq<Record>, bad: set<string>, q: string)
    ensures q in Contents(Struck(rs, bad)) ==> q in Contents(rs)
  {
    StruckMembers(rs, bad);
    var now := Struck(rs, bad);
    if q in Contents(now) {
      var i :| 0 <= i < |now| && Contents(now)[i] == q;
      assert now[i] in rs;
      var j :| 0 <= j < |rs| && rs[j] == now[i];
      assert Contents(rs)[j] == q;
    }
  }

  lemma SweptShowsLess(zones: Rows, s0: ServerZones, s1: ServerZones, gone: set<Loc>)
    requires Swept(s0, s1, gone)
    ensures NoneShownAnew(zones, s0, s1)
  {
    hide TxtAt, Struck, Lower, Contents;
    forall v: Value | Lower(v.fqdn) == v.fqdn && Shown(v, zones, s1) ensures Shown(v, zones, s0) {
      var id := zones[v.zoneId].pdnsId;
      ContentsShrink(TxtAt(s0, id, v.fqdn), BadAt(gone, id, v.fqdn), Quoted(v.value));
    }
  }

  lemma StruckShowsLess(zones: Rows, s0: ServerZones, s1: ServerZones, c: Challenge, struck: set<Loc>)
    requires StruckBy(zones, s0, s1, c, struck)
    ensures NoneShownAnew(zones, s0, s1)
  {
    hide TxtAt, Struck, Lower, Contents, OnlySet;
    if struck != {} {
      var l := LocOf(zones, c);
      OtherTxt(s0, s1, l.id, c.fqdn);
      forall v: Value | Lower(v.fqdn) == v.fqdn && Shown(v, zones, s1) ensures Shown(v, zones, s0) {
        ContentsShrink(TxtAt(s0, l.id, c.fqdn), {Quoted(c.value)}, Quoted(v.value));
      }
    }
  }

  lemma TookOutThen(zones: Rows, a: Ledger, b: Ledger, c: Ledger)
    requires TookOut(zones, a, b) && TookOut(zones, b, c) && NoneShownAnew(zones, b.server, c.server)
    requires forall v :: v in a.vs ==> Lower(v.fqdn) == v.fqdn
    ensures TookOut(zones, a, c)
  {
    hide Shown, Booked, NoOrphans, Lower;
    assert StillShown(StillShown(a.vs, zones, b.server), zones, c.server) == StillShown(a.vs, zones, c.server);
  }

  // ----- one row

  /** Nothing but a fault can keep the row from being swept. */
  ghost predicate Sweepable(rules: Rules, zones: Rows, server: ServerZones, c: Challenge) {
    OwnedBy(zones, c.tenant, c.zoneId) ==> Retractable(rules, zones[c.zoneId], server, c.fqdn)
  }

  ghost predicate KeepsSweepable(rules: Rules, zones: Rows, s0: ServerZones, s1: ServerZones) {
    forall c: Challenge :: OwnName(c.fqdn) && Sweepable(rules, zones, s0, c) ==> Sweepable(rules, zones, s1, c)
  }

  lemma OthersSweepable(rules: Rules, zones: Rows, s0: ServerZones, s1: ServerZones, zoneId: string, name: string)
    requires ZonesOK(zones) && zoneId in zones && OnlySet(s0, s1, zones[zoneId].pdnsId, name, TXT)
    requires Retractable(rules, zones[zoneId], s0, name) ==> Retractable(rules, zones[zoneId], s1, name)
    ensures KeepsSweepable(rules, zones, s0, s1)
  {
    hide SetAt, Lower, Limited, RecordName;
    forall c: Challenge | OwnName(c.fqdn) && Sweepable(rules, zones, s0, c) ensures Sweepable(rules, zones, s1, c) {
      if c.zoneId in zones && c.zoneId != zoneId {
        assert zones[c.zoneId].pdnsId != zones[zoneId].pdnsId;
      }
    }
  }

  lemma SameSweepable(rules: Rules, zones: Rows, server: ServerZones)
    ensures KeepsSweepable(rules, zones, server, server)
  {
    hide Sweepable, OwnName;
  }

  /** A value is unbooked with its one row. */
  lemma UnbookedRow(rows: ChallengeRows, k: string)
    requires ChallengesOK(rows) && k in rows
    ensures Unbooked(rows, rows[k].tenant, rows[k].fqdn, rows[k].value) == rows - {k}
  {
    var c := rows[k];
    forall j | j in rows && j != k ensures !SameChallenge(rows[j], c.tenant, c.fqdn, c.value) {}
  }

  /** The value of one row was struck, or nothing. */
  ghost predicate StruckBy(zones: Rows, s0: ServerZones, s1: ServerZones, c: Challenge, struck: set<Loc>) {
    && (struck != {} ==>
          && OwnedBy(zones, c.tenant, c.zoneId) && struck == {LocOf(zones, c)}
          && OnlySet(s0, s1, LocOf(zones, c).id, c.fqdn, TXT)
          && TxtAt(s1, LocOf(zones, c).id, c.fqdn) == Struck(TxtAt(s0, LocOf(zones, c).id, c.fqdn), {Quoted(c.value)}))
    && (struck == {} ==> s1 == s0)
  }

  /** Forgets a row whose zone is gone, or takes its value out. */
  method SweepOne(st: Store, pd: Server, env: ChallengeEnv, c: Challenge, ghost vs: set<Value>)
    returns (counted: bool, ghost now: set<Value>, ghost struck: set<Loc>)
    requires Inv(env, st.zones, pd.zones, st.challenges, vs) && c.id in st.challenges && st.challenges[c.id] == c
    modifies st`faults, st`challenges, pd`faults, pd`zones
    ensures old(st.Clean()) ==> st.Clean()
    ensures old(pd.Clean()) ==> pd.Clean()
    ensures Inv(env, st.zones, pd.zones, st.challenges, now)
    ensures TookOut(st.zones, Ledger(old(pd.zones), old(st.challenges), vs), Ledger(pd.zones, st.challenges, now))
    ensures st.challenges == old(st.challenges) || st.challenges == old(st.challenges) - {c.id}
    ensures KeepsSweepable(env.rules, st.zones, old(pd.zones), pd.zones)
    ensures StruckBy(st.zones, old(pd.zones), pd.zones, c, struck)
    ensures c.zoneId in st.zones ==> OneEdit(env.rules, st.zones[c.zoneId], old(pd.zones), pd.zones)
    ensures old(st.Clean() && pd.Clean() && Sweepable(env.rules, st.zones, pd.zones, c)) ==>
              && st.challenges == old(st.challenges) - {c.id}
              && counted == OwnedBy(st.zones, c.tenant, c.zoneId) && (counted ==> struck == {LocOf(st.zones, c)})
  {
    hide OwnName, AllWellFormed, ChallengeLaws, Filed, ZonesOK, Shown, InZone, OnlySet, ChallengesOK, ContainingZone,
      SetAt, Booked, StillShown, CanonicalZone, AllRooted, Unbooked, Retractable, KeepsSweepable, OneEdit;
    counted, now, struck := false, vs, {};
    RowsUnique(st.zones, st.challenges);
    UnbookedRow(st.challenges, c.id);
    SameSweepable(env.rules, st.zones, pd.zones);
    TookNothing(st.zones, pd.zones, st.challenges, vs);
    if c.zoneId in st.zones { NoEdit(env.rules, st.zones[c.zoneId], pd.zones); }
    var got := Owned(st, c.tenant, c.zoneId);
    if got.Err? {
      if got.error.ZoneNotFound? {
        OrphanBooks(st.zones, st.challenges, vs, c);
        UnbookedOK(st.zones, st.challenges, c.tenant, c.fqdn, c.value);
        AllStillShown(st.zones, pd.zones, vs);
        var w := Unbook(st, c.tenant, c.fqdn, c.value);
      }
      return;
    }
    var z := got.value;
    FiledIsUsable(st.zones, pd.zones, c.zoneId);
    OwnZone(st.zones, c.zoneId);
    var err, warned := Retract(st, pd, env, z, c.fqdn, c.value);
    OthersSweepable(env.rules, st.zones, old(pd.zones), pd.zones, c.zoneId, c.fqdn);
    if err.Some? { return; }
    struck := {LocOf(st.zones, c)};
    ghost var v := Value(c.tenant, c.zoneId, c.fqdn, c.value);
    now := StillShown(vs, st.zones, pd.zones);
    AfterRetract(env, st.zones, old(pd.zones), pd.zones, old(st.challenges), st.challenges, vs, v, warned);
    counted := true;
  }

  lemma OwnZone(zones: Rows, id: string)
    requires ZonesOK(zones) && id in zones
    ensures zones[id].id == id
  {
  }

  /** No shown value is in a zone that is gone. */
  lemma OrphanBooks(zones: Rows, rows: ChallengeRows, vs: set<Value>, c: Challenge)
    requires ZonesOK(zones) && RowsOK(zones, rows) && AllRooted(zones, vs) && c.id in rows && rows[c.id] == c
    requires !OwnedBy(zones, c.tenant, c.zoneId)
    ensures Booked(vs, rows) ==> Booked(vs, Unbooked(rows, c.tenant, c.fqdn, c.value))
  {
    hide OwnName, ContainingZone;
    if Booked(vs, rows) {
      var after := Unbooked(rows, c.tenant, c.fqdn, c.value);
      forall v | v in vs ensures HasRow(after, v) {
        var k :| k in rows && SameChallenge(rows[k], v.tenant, v.fqdn, v.value) && rows[k].zoneId == v.zoneId;
        assert k != c.id;
        assert !SameChallenge(rows[k], c.tenant, c.fqdn, c.value);
        assert k in after && after[k] == rows[k];
      }
    }
  }

  // ----- a pass

  /** Rows only go, and only those older than the cutoff. */
  ghost predicate OnlyOldGo(r0: ChallengeRows, r1: ChallengeRows, before: int) {
    && (forall k :: k in r1 ==> k in r0 && r1[k] == r0[k])
    && (forall k :: k in r0 && k !in OlderThan(r0, before) ==> k in r1)
  }

  /** A complete pass: the oldest rows are gone, as many as fit a batch, and so are their values. */
  ghost predicate PassDone(zones: Rows, server: ServerZones, r0: ChallengeRows, r1: ChallengeRows, before: int,
                           batch: seq<Challenge>) {
    && Oldest(r0, before, SWEEP_BATCH, batch) && r1 == r0 - Ids(batch)
    && forall c :: c in batch && OwnedBy(zones, c.tenant, c.zoneId) ==>
         !Shown(Value(c.tenant, c.zoneId, c.fqdn, c.value), zones, server)
  }

  /** The rows of a batch whose zone is still there: what a pass reports as removed. */
  function Removed(zones: Rows, batch: seq<Challenge>): nat {
    if batch == [] then 0
    else
      Removed(zones, batch[..|batch| - 1]) +
      if OwnedBy(zones, batch[|batch| - 1].tenant, batch[|batch| - 1].zoneId) then 1 else 0
  }

  lemma NoneRemoved(zones: Rows, batch: seq<Challenge>)
    ensures Removed(zones, batch[..0]) == 0
  {
  }

  lemma RemovedMore(zones: Rows, batch: seq<Challenge>, i: nat)
    requires i < |batch|
    ensures Removed(zones, batch[..i + 1]) ==
            Removed(zones, batch[..i]) + if OwnedBy(zones, batch[i].tenant, batch[i].zoneId) then 1 else 0
  {
    assert batch[..i + 1][..i] == batch[..i];
  }

  /** One pass of the sweeper: every value is struck by its own row only; a row that fails stays
  for the next pass. */
  method Sweep(st: Store, pd: Server, env: ChallengeEnv, before: int, ghost vs: set<Value>)
    returns (r: Result<nat>, ghost now: set<Value>, ghost gone: set<Loc>)
    requires st.Valid() && Inv(env, st.zones, pd.zones, st.challenges, vs)
    modifies st`faults, st`challenges, pd`faults, pd`zones
    ensures old(st.Clean()) ==> st.Clean()
    ensures old(pd.Clean()) ==> pd.Clean()
    ensures Inv(env, st.zones, pd.zones, st.challenges, now)
    ensures TookOut(st.zones, Ledger(old(pd.zones), old(st.challenges), vs), Ledger(pd.zones, st.challenges, now))
    ensures Swept(old(pd.zones), pd.zones, gone) && FromRows(st.zones, old(st.challenges), before, gone)
    ensures OnlyOldGo(old(st.challenges), st.challenges, before)
    ensures KeepsSweepable(env.rules, st.zones, old(pd.zones), pd.zones)
    ensures r.Err? ==> !old(st.Clean()) && st.challenges == old(st.challenges) && pd.zones == old(pd.zones)
    ensures old(st.Clean() && pd.Clean() && AllSweepable(env.rules, st.zones, pd.zones, st.challenges, before)) ==>
              && r.Ok?
              && exists batch ::
                   PassDone(st.zones, pd.zones, old(st.challenges), st.challenges, before, batch) &&
                   r.value == Removed(st.zones, batch)
  {
    hide Inv, Swept, FromRows, KeepsSweepable, ChallengesOK, ZonesOK, SyncOK, Booked, Oldest, OlderThan, Sweepable,
      OnlyOldGo, Midway, MidwayCalm, PassDone, AllSweepable, Struck, Removed, TxtAt, OnlySet, LocOf;
    now, gone := vs, {};
    ghost var zones, s0, r0 := st.zones, pd.zones, st.challenges;
    NothingYet(env, zones, s0, r0, vs, before);
    var rows := st.ChallengesOlderThan(before, SWEEP_BATCH);
    if rows.Err? { return Err(rows.error), now, gone; }
    var batch := rows.value;
    var n: nat, i := 0, 0;
    NoneRemoved(zones, batch);
    MidwayStart(env, zones, s0, r0, vs, before, batch);
    ghost var calm := st.Clean() && pd.Clean() && AllSweepable(env.rules, zones, s0, r0, before);
    while i < |batch|
      invariant 0 <= i <= |batch| && st.zones == zones
      invariant old(st.Clean()) ==> st.Clean()
      invariant old(pd.Clean()) ==> pd.Clean()
      invariant Midway(env, zones, s0, pd.zones, r0, st.challenges, vs, now, gone, before, batch, i)
      invariant calm ==>
                  && st.Clean() && pd.Clean() && MidwayCalm(zones, r0, st.challenges, gone, batch, i)
                  && n == Removed(zones, batch[..i])
    {
      var c := batch[i];
      ghost var s1, r1, vs1 := pd.zones, st.challenges, now;
      MidwayRow(env, zones, s0, s1, r0, r1, vs, now, gone, before, batch, i, calm);
      var counted;
      ghost var struck;
      counted, now, struck := SweepOne(st, pd, env, c, now);
      if counted { n := n + 1; }
      RemovedMore(zones, batch, i);
      MidwayNext(env, zones, s0, s1, pd.zones, r0, r1, st.challenges, vs, vs1, now, gone, struck, before, batch, i,
                 calm);
      gone := gone + struck;
      i := i + 1;
    }
    MidwayEnd(env, zones, s0, pd.zones, r0, st.challenges, vs, now, gone, before, batch, calm);
    assert batch[..i] == batch;
    r := Ok(n);
  }

  /** The loop of a pass after `i` rows of the batch. */
  ghost predicate Midway(env: ChallengeEnv, zones: Rows, s0: ServerZones, s1: ServerZones, r0: ChallengeRows,
                         r1: ChallengeRows, vs: set<Value>, now: set<Value>, gone: set<Loc>, before: int,
                         batch: seq<Challenge>, i: nat) {
    && i <= |batch| && Oldest(r0, before, SWEEP_BATCH, batch) && (forall c :: c in batch ==> Lower(c.fqdn) == c.fqdn)
    && Inv(env, zones, s1, r1, now) && AllRooted(zones, vs) && TookOut(zones, Ledger(s0, r0, vs), Ledger(s1, r1, now))
    && Swept(s0, s1, gone) && FromRows(zones, r0, before, gone) && KeepsSweepable(env.rules, zones, s0, s1)
    && Left(r0, r1, batch, i)
  }

  ghost predicate MidwayCalm(zones: Rows, r0: ChallengeRows, r1: ChallengeRows, gone: set<Loc>, batch: seq<Challenge>,
                             i: nat) {
    && i <= |batch| && r1 == r0 - Ids(batch[..i])
    && forall j :: 0 <= j < i && OwnedBy(zones, batch[j].tenant, batch[j].zoneId) ==> LocOf(zones, batch[j]) in gone
  }

  lemma NothingYet(env: ChallengeEnv, zones: Rows, server: ServerZones, rows: ChallengeRows, vs: set<Value>,
                   before: int)
    ensures Swept(server, server, {}) && FromRows(zones, rows, before, {}) &&
            KeepsSweepable(env.rules, zones, server, server)
    ensures OnlyOldGo(rows, rows, before)
    ensures Inv(env, zones, server, rows, vs) ==> TookOut(zones, Ledger(server, rows, vs), Ledger(server, rows, vs))
  {
    hide Swept, KeepsSweepable, RowsOK, AllRooted, TookOut, Shown;
    if Inv(env, zones, server, rows, vs) { TookNothing(zones, server, rows, vs); }
    SweptNothing(server);
    SameSweepable(env.rules, zones, server);
  }

  lemma MidwayStart(env: ChallengeEnv, zones: Rows, server: ServerZones, rows: ChallengeRows, vs: set<Value>,
                    before: int, batch: seq<Challenge>)
    requires Inv(env, zones, server, rows, vs) && Oldest(rows, before, SWEEP_BATCH, batch)
    requires Swept(server, server, {}) && FromRows(zones, rows, before, {}) &&
             KeepsSweepable(env.rules, zones, server, server)
    ensures Midway(env, zones, server, server, rows, rows, vs, vs, {}, before, batch, 0)
    ensures MidwayCalm(zones, rows, rows, {}, batch, 0)
  {
    hide Inv, Swept, FromRows, KeepsSweepable, Left, InAgeOrder, LocOf, Lower, TookOut;
    AllLeft(rows, batch);
    NothingYet(env, zones, server, rows, vs, before);
    InvRooted(env, zones, server, rows, vs);
    forall c | c in batch ensures Lower(c.fqdn) == c.fqdn { NameOf(env, zones, server, rows, vs, c); }
  }

  lemma MidwayRow(env: ChallengeEnv, zones: Rows, s0: ServerZones, s1: ServerZones, r0: ChallengeRows,
                  r1: ChallengeRows, vs: set<Value>, now: set<Value>, gone: set<Loc>, before: int,
                  batch: seq<Challenge>, i: nat, calm: bool)
    requires Midway(env, zones, s0, s1, r0, r1, vs, now, gone, before, batch, i) && i < |batch|
    requires calm ==> AllSweepable(env.rules, zones, s0, r0, before)
    ensures Inv(env, zones, s1, r1, now) && batch[i].id in r1 && r1[batch[i].id] == batch[i]
    ensures calm ==> Sweepable(env.rules, zones, s1, batch[i])
  {
    hide Inv, Swept, FromRows, KeepsSweepable, Left, Oldest, AllSweepable, Sweepable, OlderThan, Booked, Lower;
    BatchRow(zones, r0, r1, before, batch, i);
    if calm { StillSweepable(env.rules, zones, s0, s1, r0, before, batch[i]); }
  }

  lemma MidwayNext(env: ChallengeEnv, zones: Rows, s0: ServerZones, s1: ServerZones, s2: ServerZones, r0: ChallengeRows,
                   r1: ChallengeRows, r2: ChallengeRows,
                   vs: set<Value>, vs1: set<Value>, vs2: set<Value>, gone: set<Loc>, struck: set<Loc>, before: int,
                   batch: seq<Challenge>, i: nat, calm: bool)
    requires Midway(env, zones, s0, s1, r0, r1, vs, vs1, gone, before, batch, i) && i < |batch|
    requires Inv(env, zones, s2, r2, vs2) && TookOut(zones, Ledger(s1, r1, vs1), Ledger(s2, r2, vs2))
    requires KeepsSweepable(env.rules, zones, s1, s2)
    requires r2 == r1 || r2 == r1 - {batch[i].id}
    requires StruckBy(zones, s1, s2, batch[i], struck)
    requires calm ==> MidwayCalm(zones, r0, r1, gone, batch, i) && r2 == r1 - {batch[i].id} &&
                      (OwnedBy(zones, batch[i].tenant, batch[i].zoneId) ==> struck == {LocOf(zones, batch[i])})
    ensures Midway(env, zones, s0, s2, r0, r2, vs, vs2, gone + struck, before, batch, i + 1)
    ensures calm ==> MidwayCalm(zones, r0, r2, gone + struck, batch, i + 1)
  {
    hide Inv, Swept, FromRows, KeepsSweepable, Left, Oldest, OlderThan, TookOut, Lower, LocOf, StruckBy, NoneShownAnew,
      Rooted;
    StruckShowsLess(zones, s1, s2, batch[i], struck);
    TookOutThen(zones, Ledger(s0, r0, vs), Ledger(s1, r1, vs1), Ledger(s2, r2, vs2));
    BatchRow(zones, r0, r1, before, batch, i);
    AfterOne(env.rules, zones, s0, s1, s2, r0, before, gone, struck, batch[i]);
    LeftNext(r0, r1, r2, batch, i);
  }

  lemma MidwayEnd(env: ChallengeEnv, zones: Rows, s0: ServerZones, s1: ServerZones, r0: ChallengeRows,
                  r1: ChallengeRows, vs: set<Value>, now: set<Value>, gone: set<Loc>, before: int,
                  batch: seq<Challenge>, calm: bool)
    requires Midway(env, zones, s0, s1, r0, r1, vs, now, gone, before, batch, |batch|)
    requires (calm ==> MidwayCalm(zones, r0, r1, gone, batch, |batch|))
    ensures Inv(env, zones, s1, r1, now) && TookOut(zones, Ledger(s0, r0, vs), Ledger(s1, r1, now))
    ensures Swept(s0, s1, gone) && FromRows(zones, r0, before, gone) && KeepsSweepable(env.rules, zones, s0, s1)
    ensures OnlyOldGo(r0, r1, before)
    ensures calm ==> PassDone(zones, s1, r0, r1, before, batch)
  {
    hide Inv, Swept, FromRows, KeepsSweepable, Left, Oldest, OlderThan, Booked, Lower, LocOf, OnlyOldGo, Shown;
    LeftOnlyOld(r0, r1, batch, before);
    if calm {
      assert batch[..|batch|] == batch;
      GoneNotShown(zones, s0, s1, gone, r0, before, batch);
      assert PassDone(zones, s1, r0, r1, before, batch);
    }
  }

  lemma InvRooted(env: ChallengeEnv, zones: Rows, server: ServerZones, rows: ChallengeRows, vs: set<Value>)
    requires Inv(env, zones, server, rows, vs)
    ensures AllRooted(zones, vs)
  {
    hide RowsOK, AllWellFormed, Filed, ChallengeLaws, Shown;
  }

  ghost predicate AllSweepable(rules: Rules, zones: Rows, server: ServerZones, rows: ChallengeRows, before: int) {
    forall k :: k in OlderThan(rows, before) ==> OwnName(rows[k].fqdn) && Sweepable(rules, zones, server, rows[k])
  }

  /** The rows of the rest of the batch are still there. */
  ghost predicate Left(r0: ChallengeRows, r1: ChallengeRows, batch: seq<Challenge>, i: nat)
    requires i <= |batch|
  {
    && (forall k :: k in r1 ==> k in r0 && r1[k] == r0[k])
    && (forall k :: k in r0 && k !in Ids(batch[..i]) ==> k in r1)
  }

  lemma AllLeft(r0: ChallengeRows, batch: seq<Challenge>)
    ensures Left(r0, r0, batch, 0) && r0 == r0 - Ids(batch[..0])
  {
    assert batch[..0] == [];
  }

  /** The next row of the batch is there, and older than the cutoff. */
  lemma BatchRow(zones: Rows, r0: ChallengeRows, r1: ChallengeRows, before: int, batch: seq<Challenge>, i: nat)
    requires Oldest(r0, before, SWEEP_BATCH, batch) && i < |batch| && Left(r0, r1, batch, i)
    ensures batch[i].id in r1 && r1[batch[i].id] == batch[i] && batch[i].id in OlderThan(r0, before) &&
            r0[batch[i].id] == batch[i]
  {
    hide Earlier;
    var c := batch[i];
    forall x | x in batch[..i] ensures x.id != c.id {
      var j :| 0 <= j < i && batch[j] == x;
      EarlierApart(x, c);
    }
  }

  lemma NameOf(env: ChallengeEnv, zones: Rows, server: ServerZones, rows: ChallengeRows, vs: set<Value>, c: Challenge)
    requires Inv(env, zones, server, rows, vs) && c.id in rows && rows[c.id] == c
    ensures OwnName(c.fqdn) && Lower(c.fqdn) == c.fqdn
  {
    hide Rooted, AllWellFormed, Filed, ChallengeLaws;
  }

  lemma StillSweepable(rules: Rules, zones: Rows, s0: ServerZones, s1: ServerZones, r0: ChallengeRows, before: int,
                       c: Challenge)
    requires AllSweepable(rules, zones, s0, r0, before) && KeepsSweepable(rules, zones, s0, s1)
    requires c.id in OlderThan(r0, before) && r0[c.id] == c
    ensures Sweepable(rules, zones, s1, c)
  {
    hide Sweepable, OwnName;
  }

  lemma AfterOne(rules: Rules, zones: Rows, s0: ServerZones, s1: ServerZones, s2: ServerZones, r0: ChallengeRows,
                 before: int, gone: set<Loc>, struck: set<Loc>, c: Challenge)
    requires Swept(s0, s1, gone) && FromRows(zones, r0, before, gone) && KeepsSweepable(rules, zones, s0, s1)
    requires KeepsSweepable(rules, zones, s1, s2)
    requires c.id in OlderThan(r0, before) && r0[c.id] == c && Lower(c.fqdn) == c.fqdn
    requires StruckBy(zones, s1, s2, c, struck)
    ensures Swept(s0, s2, gone + struck) && FromRows(zones, r0, before, gone + struck) &&
            KeepsSweepable(rules, zones, s0, s2)
  {
    hide Swept, Sweepable, OwnName, TxtAt, Struck, OnlySet, Lower;
    if struck != {} {
      SweptOneMore(s0, s1, s2, gone, LocOf(zones, c));
    } else {
      assert gone + struck == gone;
    }
  }

  lemma LeftNext(r0: ChallengeRows, r1: ChallengeRows, r2: ChallengeRows, batch: seq<Challenge>, i: nat)
    requires i < |batch| && Left(r0, r1, batch, i) && (r2 == r1 || r2 == r1 - {batch[i].id})
    ensures Left(r0, r2, batch, i + 1)
    ensures r1 == r0 - Ids(batch[..i]) && r2 == r1 - {batch[i].id} ==> r2 == r0 - Ids(batch[..i + 1])
  {
    assert batch[..i + 1] == batch[..i] + [batch[i]];
    assert Ids(batch[..i + 1]) == Ids(batch[..i]) + {batch[i].id};
  }

  lemma LeftOnlyOld(r0: ChallengeRows, r1: ChallengeRows, batch: seq<Challenge>, before: int)
    requires Left(r0, r1, batch, |batch|) && Oldest(r0, before, SWEEP_BATCH, batch)
    ensures OnlyOldGo(r0, r1, before)
  {
    assert batch[..|batch|] == batch;
  }

  lemma GoneNotShown(zones: Rows, s0: ServerZones, s1: ServerZones, gone: set<Loc>, rows: ChallengeRows, before: int,
                     batch: seq<Challenge>)
    requires Swept(s0, s1, gone) && Oldest(rows, before, SWEEP_BATCH, batch)
    requires forall c :: c in batch ==> Lower(c.fqdn) == c.fqdn
    requires forall j :: 0 <= j < |batch| && OwnedBy(zones, batch[j].tenant, batch[j].zoneId) ==>
               LocOf(zones, batch[j]) in gone
    ensures forall c :: c in batch && OwnedBy(zones, c.tenant, c.zoneId) ==>
              !Shown(Value(c.tenant, c.zoneId, c.fqdn, c.value), zones, s1)
  {
    hide TxtAt, Struck, Lower, Oldest;
    forall c | c in batch && OwnedBy(zones, c.tenant, c.zoneId)
      ensures !Shown(Value(c.tenant, c.zoneId, c.fqdn, c.value), zones, s1)
    {
      var l := LocOf(zones, c);
      var was, now := TxtAt(s0, l.id, l.name), TxtAt(s1, l.id, l.name);
      StruckMembers(was, BadAt(gone, l.id, l.name));
      assert Quoted(c.value) in BadAt(gone, l.id, l.name);
      forall i | 0 <= i < |now| ensures Contents(now)[i] != Quoted(c.value) { assert now[i] in now; }
    }
  }

  // ----- passes

  /** A complete pass takes a batch off the rows older than any earlier time. */
  lemma PassCounts(zones: Rows, server: ServerZones, r0: ChallengeRows, r1: ChallengeRows, before: int,
                   batch: seq<Challenge>, cutoff: int)
    requires PassDone(zones, server, r0, r1, before, batch) && cutoff <= before
    ensures |OlderThan(r1, cutoff)| == Rest(|OlderThan(r0, cutoff)|)
  {
    hide Oldest, Shown;
    BatchTakesOldest(r0, before, SWEEP_BATCH, batch, cutoff);
    assert OlderThan(r1, cutoff) == OlderThan(r0, cutoff) - Ids(batch);
  }

  function Rest(n: nat): nat { if n <= SWEEP_BATCH then 0 else n - SWEEP_BATCH }

  ghost predicate EverySweepable(rules: Rules, zones: Rows, server: ServerZones, rows: ChallengeRows) {
    forall k :: k in rows ==> OwnName(rows[k].fqdn) && Sweepable(rules, zones, server, rows[k])
  }

  lemma SweepableOn(rules: Rules, zones: Rows, s0: ServerZones, s1: ServerZones, r0: ChallengeRows, r1: ChallengeRows,
                    before: int)
    requires EverySweepable(rules, zones, s0, r0) && KeepsSweepable(rules, zones, s0, s1) && OnlyOldGo(r0, r1, before)
    ensures EverySweepable(rules, zones, s1, r1)
  {
    hide Sweepable, OwnName;
  }

  lemma SweepableOld(rules: Rules, zones: Rows, server: ServerZones, rows: ChallengeRows, before: int)
    requires EverySweepable(rules, zones, server, rows)
    ensures AllSweepable(rules, zones, server, rows, before)
  {
    hide Sweepable, OwnName;
  }

  function ValueOf(c: Challenge): Value { Value(c.tenant, c.zoneId, c.fqdn, c.value) }

  /** The value of every row that went is no longer shown. */
  ghost predicate GoneHidden(zones: Rows, server: ServerZones, r0: ChallengeRows, r1: ChallengeRows) {
    forall k :: k in r0 && k !in r1 ==> !Shown(ValueOf(r0[k]), zones, server)
  }

  lemma NoneGone(zones: Rows, server: ServerZones, rows: ChallengeRows)
    ensures GoneHidden(zones, server, rows, rows)
  {
  }

  lemma PassHides(zones: Rows, s1: ServerZones, s2: ServerZones, r0: ChallengeRows, r1: ChallengeRows,
                  r2: ChallengeRows, before: int, batch: seq<Challenge>)
    requires GoneHidden(zones, s1, r0, r1) && PassDone(zones, s2, r1, r2, before, batch) && NoneShownAnew(zones, s1, s2)
    requires (forall k :: k in r1 ==> k in r0 && r1[k] == r0[k]) &&
             forall k :: k in r0 ==> Lower(r0[k].fqdn) == r0[k].fqdn
    ensures GoneHidden(zones, s2, r0, r2) && forall k :: k in r2 ==> k in r0 && r2[k] == r0[k]
  {
    hide Lower, TxtAt, InAgeOrder;
    forall k | k in r0 && k !in r2 ensures !Shown(ValueOf(r0[k]), zones, s2) {
      if k in r1 {
        var c :| c in batch && c.id == k;
        assert c.id in OlderThan(r1, before);
      }
    }
  }

  /** Fault-free passes, whatever their later cutoffs: a hundred rows a pass, oldest first, so
  ceil(n / 100) passes clear the n values that were older than the first cutoff: their rows are
  gone, and none of the values is shown. */
  method Passes(st: Store, pd: Server, env: ChallengeEnv, cutoff: int, times: seq<int>,
                ghost vs: set<Value>) returns (ghost now: set<Value>)
    requires st.Valid() && Inv(env, st.zones, pd.zones, st.challenges, vs) && st.Clean() && pd.Clean()
    requires EverySweepable(env.rules, st.zones, pd.zones, st.challenges) && forall t :: t in times ==> cutoff <= t
    modifies st`faults, st`challenges, pd`faults, pd`zones
    ensures Inv(env, st.zones, pd.zones, st.challenges, now)
    ensures TookOut(st.zones, Ledger(old(pd.zones), old(st.challenges), vs), Ledger(pd.zones, st.challenges, now))
    ensures GoneHidden(st.zones, pd.zones, old(st.challenges), st.challenges)
    ensures old(|OlderThan(st.challenges, cutoff)|) <= SWEEP_BATCH * |times| ==>
              && OlderThan(st.challenges, cutoff) == {}
              && forall k :: k in old(OlderThan(st.challenges, cutoff)) ==>
                   !Shown(ValueOf(old(st.challenges)[k]), st.zones, pd.zones)
  {
    hide Inv, TookOut, EverySweepable, AllSweepable, KeepsSweepable, PassDone, Swept, FromRows, OnlyOldGo, ZonesOK,
      SyncOK, ChallengesOK, NoneShownAnew, Shown, Lower, AllRooted;
    now := vs;
    ghost var zones, first, r0 := st.zones, pd.zones, st.challenges;
    NothingYet(env, zones, first, r0, vs, cutoff);
    NoneGone(zones, first, r0);
    LowerRows(env, zones, first, r0, vs);
    var i := 0;
    while i < |times|
      invariant 0 <= i <= |times| && st.Clean() && pd.Clean() && st.Valid() && st.zones == zones
      invariant Inv(env, zones, pd.zones, st.challenges, now)
      invariant TookOut(zones, Ledger(first, r0, vs), Ledger(pd.zones, st.challenges, now))
      invariant EverySweepable(env.rules, zones, pd.zones, st.challenges)
      invariant GoneHidden(zones, pd.zones, r0, st.challenges)
      invariant forall k :: k in st.challenges ==> k in r0 && st.challenges[k] == r0[k]
      invariant |OlderThan(st.challenges, cutoff)| <=
                  if SWEEP_BATCH * i <= |OlderThan(r0, cutoff)| then |OlderThan(r0, cutoff)| - SWEEP_BATCH * i else 0
    {
      assert times[i] in times;
      ghost var s1, r1, vs1 := pd.zones, st.challenges, now;
      SweepableOld(env.rules, zones, s1, r1, times[i]);
      var r;
      ghost var gone;
      r, now, gone := Sweep(st, pd, env, times[i], now);
      ghost var batch :| PassDone(zones, pd.zones, r1, st.challenges, times[i], batch);
      SweptShowsLess(zones, s1, pd.zones, gone);
      PassHides(zones, s1, pd.zones, r0, r1, st.challenges, times[i], batch);
      TookOutThen(zones, Ledger(first, r0, vs), Ledger(s1, r1, vs1), Ledger(pd.zones, st.challenges, now));
      PassCounts(zones, pd.zones, r1, st.challenges, times[i], batch, cutoff);
      SweepableOn(env.rules, zones, s1, pd.zones, r1, st.challenges, times[i]);
      RowsFine(env, zones, pd.zones, st.challenges, now);
      i := i + 1;
    }
    AllHidden(zones, pd.zones, r0, st.challenges, cutoff);
  }

  lemma AllHidden(zones: Rows, server: ServerZones, r0: ChallengeRows, r1: ChallengeRows, cutoff: int)
    requires GoneHidden(zones, server, r0, r1) && forall k :: k in r1 ==> k in r0 && r1[k] == r0[k]
    ensures |OlderThan(r1, cutoff)| == 0 ==>
              forall k :: k in OlderThan(r0, cutoff) ==> !Shown(ValueOf(r0[k]), zones, server)
  {
    hide Shown;
    if |OlderThan(r1, cutoff)| == 0 {
      forall k | k in OlderThan(r0, cutoff) ensures k !in r1 { assert k in r1 ==> k in OlderThan(r1, cutoff); }
    }
  }

  lemma LowerRows(env: ChallengeEnv, zones: Rows, server: ServerZones, rows: ChallengeRows, vs: set<Value>)
    requires Inv(env, zones, server, rows, vs)
    ensures (forall k :: k in rows ==> Lower(rows[k].fqdn) == rows[k].fqdn) &&
            forall v :: v in vs ==> Lower(v.fqdn) == v.fqdn
  {
    hide Rooted, AllWellFormed, Filed, ChallengeLaws, Shown, Lower;
  }

  lemma RowsFine(env: ChallengeEnv, zones: Rows, server: ServerZones, rows: ChallengeRows, vs: set<Value>)
    requires Inv(env, zones, server, rows, vs)
    ensures ChallengesOK(rows) && ZonesOK(zones)
  {
    hide Rooted, OwnName, AllWellFormed, Filed, ChallengeLaws, ChallengesOK, ZonesOK;
  }
}
