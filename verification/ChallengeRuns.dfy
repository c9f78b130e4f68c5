/** Runs of challenge calls and sweeps (internal/acmechallenge): every value that was published and
is still shown has a row, and what that row's age decides. */
module ChallengeRuns {
  import opened Wrappers
  import opened Model
  import opened Pdns
  import opened Memstore
  import opened Records
  import opened Zones
  import opened SyncRecords
  import opened Challenges
  import opened Sweeper

  // ----- runs

  /** A step of a run: a value was published, values were taken out by a clean-up or a sweep, or a
  call failed and changed nothing. */
  datatype Step = Publishes(v: Value, warned: bool) | TakesOut | Fails

  ghost predicate Next(zones: Rows, a: Ledger, b: Ledger, step: Step) {
    match step
    case Publishes(v, warned) => Published(zones, a, b, v, warned)
    case TakesOut => TookOut(zones, a, b)
    case Fails => b == a
  }

  ghost predicate IsRun(zones: Rows, states: seq<Ledger>, steps: seq<Step>) {
    && |states| == |steps| + 1
    && forall i :: 0 <= i < |steps| ==> Next(zones, states[i], states[i + 1], steps[i])
  }

  ghost predicate There(zones: Rows, v: Value, s: Ledger) { Shown(v, zones, s.server) }

  /** The value was published in step i and has been shown ever since. */
  ghost predicate PublishedSince(zones: Rows, states: seq<Ledger>, steps: seq<Step>, v: Value, i: nat, n: nat) {
    && i < n < |states| == |steps| + 1 && steps[i].Publishes? && steps[i].v == v
    && forall j :: i < j <= n ==> There(zones, v, states[j])
  }

  lemma {:induction false} PublishedIsKept(zones: Rows, states: seq<Ledger>, steps: seq<Step>, v: Value, i: nat, n: nat)
    requires IsRun(zones, states, steps) && PublishedSince(zones, states, steps, v, i, n)
    ensures v in states[n].vs
    decreases n
  {
    hide Shown, Booked, NoOrphans;
    assert Next(zones, states[n - 1], states[n], steps[n - 1]);
    assert There(zones, v, states[n]);
    if n > i + 1 {
      assert There(zones, v, states[n - 1]);
      PublishedIsKept(zones, states, steps, v, i, n - 1);
    }
  }

  lemma {:induction false} RunStaysBooked(zones: Rows, states: seq<Ledger>, steps: seq<Step>, n: nat)
    requires IsRun(zones, states, steps) && n <= |steps|
    requires forall i :: 0 <= i < |steps| ==> !(steps[i].Publishes? && steps[i].warned)
    requires Booked(states[0].vs, states[0].rows) && NoOrphans(zones, states[0].rows)
    ensures Booked(states[n].vs, states[n].rows) && NoOrphans(zones, states[n].rows)
  {
    hide StillShown, Booked, NoOrphans;
    if n > 0 {
      RunStaysBooked(zones, states, steps, n - 1);
      assert Next(zones, states[n - 1], states[n], steps[n - 1]);
    }
  }

  /** Over every run of publications, clean-ups and sweeps in which no row insert fails, with the
  zones fixed: a value that was published and has been shown ever since has a row in its zone. */
  lemma RunBooks(zones: Rows, states: seq<Ledger>, steps: seq<Step>, v: Value, i: nat, n: nat)
    requires IsRun(zones, states, steps) && states[0].vs == {} && NoOrphans(zones, states[0].rows)
    requires forall k :: 0 <= k < |steps| ==> !(steps[k].Publishes? && steps[k].warned)
    requires PublishedSince(zones, states, steps, v, i, n)
    ensures HasRow(states[n].rows, v)
  {
    hide Next, HasRow, NoOrphans, There;
    RunStaysBooked(zones, states, steps, n);
    PublishedIsKept(zones, states, steps, v, i, n);
  }

  // ----- the age of a row is that of the first publication

  /** The only row: one value of one zone. */
  ghost predicate OneRow(rows: ChallengeRows, id: string, z: Zone, fqdn: string, value: string, at: int) {
    rows == map[id := Challenge(id, z.tenant, z.id, fqdn, value, at)]
  }

  lemma FirstBooked(zones: Rows, s0: ServerZones, s1: ServerZones, r1: ChallengeRows, now: set<Value>, z: Zone,
                    fqdn: string, value: string, id: string, at: int)
    requires Published(zones, Ledger(s0, map[], {}), Ledger(s1, r1, now), Value(z.tenant, z.id, fqdn, value), false)
    requires r1 == map[] || OneRow(r1, id, z, fqdn, value, at)
    ensures OneRow(r1, id, z, fqdn, value, at) && Noted(r1, z.tenant, fqdn, value)
  {
    hide StillShown;
    assert Booked({}, map[]) && NoOrphans(zones, map[]);
    assert HasRow(r1, Value(z.tenant, z.id, fqdn, value));
  }

  lemma StillPublishable(env: ChallengeEnv, z: Zone, s0: ServerZones, s1: ServerZones, fqdn: string, q: string)
    requires Publishable(env, z, s0, fqdn) && Retractable(env.rules, z, s1, fqdn) && env.rules.maxValues > 1
    requires TxtAt(s0, z.pdnsId, fqdn) == [] && TxtAt(s1, z.pdnsId, fqdn) == With(TxtAt(s0, z.pdnsId, fqdn), q)
    ensures Publishable(env, z, s1, fqdn) && q in Contents(TxtAt(s1, z.pdnsId, fqdn))
  {
    hide SetAt;
    var rs := TxtAt(s1, z.pdnsId, fqdn);
    assert rs == [Record(q, false)];
    assert Contents(rs)[0] == q;
  }

  lemma OneSweepable(env: ChallengeEnv, zones: Rows, server: ServerZones, rows: ChallengeRows, id: string, z: Zone,
                     fqdn: string, value: string, at: int, before: int)
    requires OneRow(rows, id, z, fqdn, value, at) && OwnName(fqdn) && Retractable(env.rules, z, server, fqdn)
    requires z.id in zones && zones[z.id] == z
    ensures AllSweepable(env.rules, zones, server, rows, before)
  {
    hide Retractable, OwnName;
  }

  lemma OneSwept(zones: Rows, server: ServerZones, r0: ChallengeRows, r1: ChallengeRows, before: int,
                 batch: seq<Challenge>, id: string, z: Zone, fqdn: string, value: string, at: int)
    requires OneRow(r0, id, z, fqdn, value, at) && at < before && PassDone(zones, server, r0, r1, before, batch)
    ensures r1 == map[] && !Shown(Value(z.tenant, z.id, fqdn, value), zones, server)
  {
    hide TxtAt;
    assert OlderThan(r0, before) == {id};
    BatchTakesOldest(r0, before, SWEEP_BATCH, batch, before);
    assert id in Ids(batch) by { assert id in OlderThan(r0, before); }
    var c :| c in batch && c.id == id;
  }

  /** Presented at `first`, presented again at `again`, swept with a cutoff in between: the sweeper
  takes the value although it was presented after the cutoff. */
  method PresentedAgain(st: Store, pd: Server, env: ChallengeEnv, tenant: string, req: Request, ids: (string, string),
                        first: int, again: int, before: int, ghost z: Zone)
    returns (one: Result<string>, two: Result<string>, swept: Result<nat>)
    requires st.Valid() && Inv(env, st.zones, pd.zones, map[], {}) && st.challenges == map[] && st.Clean() && pd.Clean()
    requires ids.0 != ids.1 && first < before <= again
    requires Check(env, req).Ok? && HasZone(st.zones, tenant, Check(env, req).value, z)
    requires Publishable(env, z, pd.zones, Check(env, req).value)
    requires TxtAt(pd.zones, z.pdnsId, Check(env, req).value) == [] && env.rules.maxValues > 1
    modifies st`faults, st`challenges, pd`faults, pd`zones
    ensures one.Ok? && two.Ok? && swept.Ok? && st.challenges == map[]
    ensures !Shown(Value(tenant, z.id, Check(env, req).value, req.value), st.zones, pd.zones)
  {
    hide Inv, Check, OwnName, Publishable, Retractable, Published, Noted, Shown, ContainingZone, TxtAt, Contents,
      ZonesOK, SyncOK, ChallengesOK, OnlySet, TookOut, Swept, FromRows, OnlyOldGo, KeepsSweepable, AllSweepable,
      PassDone, OneRow;
    ghost var zones, fqdn := st.zones, Check(env, req).value;
    CheckedName(env, req);
    ghost var s0, now, gone := pd.zones, {}, {};
    var warned;
    OnlyZone(zones, tenant, fqdn, z);
    one, warned, now := Challenges.Present(st, pd, env, tenant, req, ids.0, first, now);
    ghost var s1, r1 := pd.zones, st.challenges;
    EmptyTxt(TxtAt(s0, z.pdnsId, fqdn), Quoted(req.value));
    RowShape(r1, ids.0, z, fqdn, req.value, first);
    FirstBooked(zones, s0, s1, r1, now, z, fqdn, req.value, ids.0, first);
    StillPublishable(env, z, s0, s1, fqdn, Quoted(req.value));
    RowsFine(env, zones, s1, r1, now);
    OneId(r1, ids.0, ids.1, z, fqdn, req.value, first);
    two, warned, now := Challenges.Present(st, pd, env, tenant, req, ids.1, again, now);
    RowsFine(env, zones, s1, r1, now);
    OneSweepable(env, zones, s1, r1, ids.0, z, fqdn, req.value, first, before);
    swept, now, gone := Sweep(st, pd, env, before, now);
    ghost var batch :| PassDone(zones, pd.zones, r1, st.challenges, before, batch);
    OneSwept(zones, pd.zones, r1, st.challenges, before, batch, ids.0, z, fqdn, req.value, first);
  }

  lemma OnlyZone(zones: Rows, tenant: string, fqdn: string, z: Zone)
    requires ZonesOK(zones) && ContainingZone(zones, tenant, fqdn, z)
    ensures z.id in zones && zones[z.id] == z && z.tenant == tenant
    ensures forall y :: ContainingZone(zones, tenant, fqdn, y) ==> y == z
  {
    forall y | ContainingZone(zones, tenant, fqdn, y) ensures y == z {
      ContainingZoneUnique(zones, tenant, fqdn, y, z);
    }
  }

  lemma EmptyTxt(rs: seq<Record>, q: string)
    ensures rs == [] ==> q !in Contents(rs)
  {
  }

  lemma RowShape(rows: ChallengeRows, id: string, z: Zone, fqdn: string, value: string, at: int)
    ensures rows == map[][id := Challenge(id, z.tenant, z.id, fqdn, value, at)] ==> OneRow(rows, id, z, fqdn, value, at)
  {
  }

  lemma OneId(rows: ChallengeRows, id: string, other: string, z: Zone, fqdn: string, value: string, at: int)
    requires OneRow(rows, id, z, fqdn, value, at) && other != id
    ensures other !in rows
  {
  }
}
