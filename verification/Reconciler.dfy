/** Keeping the recursor's forward table in step with the managed zones
(internal/recursor/reconciler.go), over the table semantics of the in-memory double
(internal/recursor/fake.go). */
module Reconciler {
  import opened Strings
  import opened Wrappers

  type Table = map<string, string>

  /** The name a zone is kept under. */
  function CanonicalForward(z: string): string {
    var t := Lower(Trim(z));
    if HasSuffix(t, ".") then t else t + "."
  }

  /** The name the recursor's client uses; the root and the empty name are refused. */
  function Canon(z: string): Option<string> {
    var t := TrimSuffix(Lower(Trim(z)), ".");
    if t == "" then None else Some(t + ".")
  }

  /** The two spellings agree, and only the root is refused. */
  lemma CanonAgrees(z: string)
    ensures Canon(z).Some? ==> Canon(z).value == CanonicalForward(z)
    ensures Canon(z).None? <==> CanonicalForward(z) == "."
  {
    hide Lower, Trim;
    var t := Lower(Trim(z));
    if HasSuffix(t, ".") { assert t == t[..|t| - 1] + "."; }
  }

  /** A table's keys are names as the client writes them, or the root. */
  ghost predicate Canonical(t: Table) {
    forall k :: k in t ==> CanonicalForward(k) == k
  }

  datatype Call = SyncCall(name: string) | RemoveCall(name: string) | ListCall

  class Recursor {
    var forwards: Table
    const target: string
    const enabled: bool
    var down: bool
    var faults: seq<bool>
    var calls: seq<Call>

    constructor (target: string, enabled: bool)
      ensures this.target == target && this.enabled == enabled && forwards == map[] && !down && faults == [] &&
              calls == []
    {
      this.target, this.enabled := target, enabled;
      forwards, down, faults, calls := map[], false, [], [];
    }

    ghost predicate Clean() reads this`down, this`faults { !down && faults == [] }

    method Begin(c: Call) returns (fail: bool)
      modifies this`faults, this`calls
      ensures calls == old(calls) + [c]
      ensures old(Clean()) ==> !fail && Clean()
    {
      calls := calls + [c];
      if down { return true; }
      if faults == [] { return false; }
      fail := faults[0];
      faults := faults[1..];
    }

    method SyncForward(zone: string) returns (err: Option<Error>)
      modifies this`faults, this`calls, this`forwards
      ensures old(Clean()) ==> Clean()
      ensures calls == if enabled && Canon(zone).Some? then old(calls) + [SyncCall(Canon(zone).value)] else old(calls)
      ensures err.None? && enabled ==> Canon(zone).Some? && forwards == old(forwards)[Canon(zone).value := target]
      ensures err.Some? || !enabled ==> forwards == old(forwards)
      ensures old(Clean()) && (!enabled || Canon(zone).Some?) ==> err.None?
    {
      if !enabled { return None; }
      var name := Canon(zone);
      if name.None? { return Some(BadName); }
      var fail := Begin(SyncCall(name.value));
      if fail { return Some(Unavailable); }
      forwards := forwards[name.value := target];
      err := None;
    }

    method RemoveForward(zone: string) returns (err: Option<Error>)
      modifies this`faults, this`calls, this`forwards
      ensures old(Clean()) ==> Clean()
      ensures calls == if enabled && Canon(zone).Some? then old(calls) + [RemoveCall(Canon(zone).value)] else old(calls)
      ensures err.None? && enabled ==> Canon(zone).Some? && forwards == old(forwards) - {Canon(zone).value}
      ensures err.Some? || !enabled ==> forwards == old(forwards)
      ensures old(Clean()) && (!enabled || Canon(zone).Some?) ==> err.None?
    {
      if !enabled { return None; }
      var name := Canon(zone);
      if name.None? { return Some(BadName); }
      var fail := Begin(RemoveCall(name.value));
      if fail { return Some(Unavailable); }
      forwards := forwards - {name.value};
      err := None;
    }

    /** The names of the table, in any order. */
    method ListForwards() returns (r: Result<set<string>>)
      modifies this`faults, this`calls
      ensures old(Clean()) ==> Clean()
      ensures calls == if enabled then old(calls) + [ListCall] else old(calls)
      ensures r.Ok? ==> r.value == if enabled then forwards.Keys else {}
      ensures r.Err? ==> !old(Clean())
    {
      if !enabled { return Ok({}); }
      var fail := Begin(ListCall);
      if fail { return Err(Unavailable); }
      r := Ok(forwards.Keys);
    }
  }

  // ----- what a pass aims at

  ghost predicate Managed(managed: seq<string>, name: string) {
    exists z :: z in managed && CanonicalForward(z) == name
  }

  ghost predicate Kept(managed: seq<string>, statics: seq<string>, name: string) {
    name == "." || (exists s :: s in statics && CanonicalForward(s) == name) || Managed(managed, name)
  }

  ghost predicate AllNamed(managed: seq<string>) {
    forall z :: z in managed ==> CanonicalForward(z) != "."
  }

  /** The table a fault-free pass leaves: the managed zones at the target, and the static and root
  entries that were there. */
  ghost predicate Reconciled(managed: seq<string>, statics: seq<string>, target: string, before: Table, after: Table) {
    && (forall k :: k in after <==> Managed(managed, k) || (k in before && Kept(managed, statics, k)))
    && (forall k :: k in after ==> after[k] == if Managed(managed, k) then target else before[k])
  }

  /** A pass over the table a pass left changes nothing. */
  lemma ReconciledTwice(managed: seq<string>, statics: seq<string>, target: string, a: Table, b: Table, c: Table)
    requires Reconciled(managed, statics, target, a, b) && Reconciled(managed, statics, target, b, c)
    ensures c == b
  {
    hide Managed;
    assert forall k :: k in c <==> k in b;
  }

  /** No call removes a kept name. */
  ghost predicate NeverRemoves(calls: seq<Call>, managed: seq<string>, statics: seq<string>) {
    forall c :: c in calls && c.RemoveCall? ==> !Kept(managed, statics, c.name)
  }

  // ----- the pass

  ghost predicate Ends(s: string) { s == "" || (!IsSpace(s[0]) && !IsSpace(s[|s| - 1])) }

  lemma {:induction false} TrimLeftEnds(s: string)
    ensures TrimLeft(s) == "" || !IsSpace(TrimLeft(s)[0])
  {
    if s != "" && IsSpace(s[0]) { TrimLeftEnds(s[1..]); }
  }

  lemma {:induction false} TrimRightEnds(s: string)
    requires s == "" || !IsSpace(s[0])
    ensures Ends(TrimRight(s))
  {
    if s != "" && IsSpace(s[|s| - 1]) { TrimRightEnds(s[..|s| - 1]); }
  }

  lemma EndsStay(s: string)
    requires Ends(s)
    ensures Trim(s) == s
  {
    TrimLeftStops(s);
  }

  lemma LowerSpace(c: char)
    ensures IsSpace(LowerChar(c)) == IsSpace(c)
  {
  }

  lemma CanonicalTwice(z: string)
    ensures CanonicalForward(CanonicalForward(z)) == CanonicalForward(z)
  {
    hide IsSpace, LowerChar, Trim;
    var t := Lower(Trim(z));
    assert Ends(Trim(z)) by { TrimIsEnds(z); }
    if t != "" { LowerSpace(Trim(z)[0]); LowerSpace(Trim(z)[|t| - 1]); }
    var c := CanonicalForward(z);
    DotIsNoSpace();
    assert Ends(c);
    EndsStay(c);
    LowerIdempotent(Trim(z));
    LowerDot(t);
  }

  lemma TrimIsEnds(z: string)
    ensures Ends(Trim(z))
  {
    TrimLeftEnds(z);
    TrimRightEnds(TrimLeft(z));
  }

  lemma DotIsNoSpace()
    ensures !IsSpace('.')
  {
  }

  lemma LowerDot(t: string)
    requires Lower(t) == t
    ensures Lower(t + ".") == t + "."
  {
    var u := t + ".";
    forall i | 0 <= i < |u| ensures LowerChar(u[i]) == u[i] { if i < |t| { assert Lower(t)[i] == LowerChar(t[i]); } }
    assert Lower(u) == u;
  }

  /** What the managed zones tried so far did to the table. */
  ghost predicate SyncEffect(done: seq<string>, target: string, before: Table, after: Table) {
    && Canonical(after) && (forall k :: k in before ==> k in after)
    && (forall k :: k in after ==> (k in before && after[k] == before[k]) || (Managed(done, k) && after[k] == target))
  }

  ghost predicate SyncedAll(done: seq<string>, target: string, after: Table) {
    forall k :: Managed(done, k) ==> k in after && after[k] == target
  }

  /** One sync call for every managed zone, and nothing else. */
  ghost predicate SyncCalls(done: seq<string>, calls: seq<Call>) {
    && (forall c :: c in calls ==> c.SyncCall? && Managed(done, c.name))
    && (forall z :: z in done && CanonicalForward(z) != "." ==> SyncCall(CanonicalForward(z)) in calls)
  }

  lemma ManagedMore(done: seq<string>, z: string)
    ensures forall k :: Managed(done + [z], k) <==> Managed(done, k) || k == CanonicalForward(z)
  {
    hide CanonicalForward;
    forall k ensures Managed(done + [z], k) <==> Managed(done, k) || k == CanonicalForward(z) {
      if Managed(done, k) { var x :| x in done && CanonicalForward(x) == k; assert x in done + [z]; }
      if k == CanonicalForward(z) { assert z in done + [z]; }
    }
  }

  lemma SyncNext(done: seq<string>, z: string, target: string, before: Table, t1: Table, t2: Table, c1: seq<Call>,
                 c2: seq<Call>)
    requires SyncEffect(done, target, before, t1) && SyncCalls(done, c1)
    requires t2 == t1 || t2 == t1[CanonicalForward(z) := target]
    requires c2 == if CanonicalForward(z) != "." then c1 + [SyncCall(CanonicalForward(z))] else c1
    ensures SyncEffect(done + [z], target, before, t2) && SyncCalls(done + [z], c2)
    ensures SyncedAll(done, target, t1) && t2 == t1[CanonicalForward(z) := target] ==> SyncedAll(done + [z], target, t2)
  {
    hide CanonicalForward, Managed, SyncEffect, SyncCalls;
    EffectNext(done, z, target, before, t1, t2);
    CallsNext(done, z, c1, c2);
    ManagedMore(done, z);
  }

  lemma EffectNext(done: seq<string>, z: string, target: string, before: Table, t1: Table, t2: Table)
    requires SyncEffect(done, target, before, t1) && (t2 == t1 || t2 == t1[CanonicalForward(z) := target])
    ensures SyncEffect(done + [z], target, before, t2)
  {
    hide CanonicalForward, Managed;
    ManagedMore(done, z);
    CanonicalTwice(z);
  }

  lemma CallsNext(done: seq<string>, z: string, c1: seq<Call>, c2: seq<Call>)
    requires SyncCalls(done, c1)
    requires c2 == if CanonicalForward(z) != "." then c1 + [SyncCall(CanonicalForward(z))] else c1
    ensures SyncCalls(done + [z], c2)
  {
    hide CanonicalForward, Managed;
    ManagedMore(done, z);
    CanonicalTwice(z);
  }

  /** The kept names are the ones before and those of the zones. */
  ghost predicate AlsoKept(keep: set<string>, keep0: set<string>, managed: seq<string>) {
    forall k :: k in keep <==> k in keep0 || Managed(managed, k)
  }

  lemma NothingKept(keep: set<string>)
    ensures AlsoKept(keep, keep, [])
  {
  }

  lemma KeptMore(keep: set<string>, keep0: set<string>, done: seq<string>, z: string)
    requires AlsoKept(keep, keep0, done)
    ensures AlsoKept(keep + {CanonicalForward(z)}, keep0, done + [z])
  {
    hide CanonicalForward, Managed;
    ManagedMore(done, z);
  }

  /** The loop over the managed zones: every one is tried, whatever failed before. */
  method SyncAll(rc: Recursor, managed: seq<string>, keep0: set<string>)
    returns (keep: set<string>, first: Option<Error>)
    requires rc.enabled && Canonical(rc.forwards)
    modifies rc`faults, rc`calls, rc`forwards
    ensures old(rc.Clean()) ==> rc.Clean()
    ensures AlsoKept(keep, keep0, managed)
    ensures old(rc.calls) <= rc.calls && SyncCalls(managed, rc.calls[|old(rc.calls)|..])
    ensures SyncEffect(managed, rc.target, old(rc.forwards), rc.forwards)
    // an error is kept, so no error means that every zone was synced
    ensures first.None? ==> SyncedAll(managed, rc.target, rc.forwards)
    ensures old(rc.Clean()) && AllNamed(managed) ==> first.None?
  {
    hide CanonicalForward, Canon, Managed, SyncEffect, SyncCalls, SyncedAll, Canonical, AlsoKept;
    keep, first := keep0, None;
    NothingKept(keep0);
    var i := 0;
    NothingSynced(rc.target, rc.forwards, rc.calls);
    while i < |managed|
      invariant 0 <= i <= |managed|
      invariant old(rc.Clean()) ==> rc.Clean()
      invariant AlsoKept(keep, keep0, managed[..i])
      invariant old(rc.calls) <= rc.calls && SyncCalls(managed[..i], rc.calls[|old(rc.calls)|..])
      invariant SyncEffect(managed[..i], rc.target, old(rc.forwards), rc.forwards)
      invariant first.None? ==> SyncedAll(managed[..i], rc.target, rc.forwards)
      invariant old(rc.Clean()) && AllNamed(managed) ==> first.None?
    {
      var z := managed[i];
      CanonAgrees(z);
      ghost var calls, table := rc.calls, rc.forwards;
      KeptMore(keep, keep0, managed[..i], z);
      keep := keep + {CanonicalForward(z)};
      var err := rc.SyncForward(z);
      if err.Some? && first.None? { first := err; }
      assert managed[..i + 1] == managed[..i] + [z];
      CallsSince(old(rc.calls), calls, rc.calls);
      SyncNext(managed[..i], z, rc.target, old(rc.forwards), table, rc.forwards, calls[|old(rc.calls)|..],
               rc.calls[|old(rc.calls)|..]);
      i := i + 1;
    }
    assert managed[..i] == managed;
  }

  lemma NothingSynced(target: string, table: Table, calls: seq<Call>)
    requires Canonical(table)
    ensures SyncEffect([], target, table, table) && SyncCalls([], calls[|calls|..]) && SyncedAll([], target, table)
    ensures forall k :: !Managed([], k)
  {
  }

  lemma CallsSince(a: seq<Call>, b: seq<Call>, c: seq<Call>)
    requires a <= b && b <= c
    ensures c[|a|..] == b[|a|..] + c[|b|..]
  {
  }

  // ----- removals

  /** What the removals tried so far did: only names that are not kept go. */
  ghost predicate DropEffect(todo: set<string>, keep: set<string>, before: Table, after: Table) {
    && (forall k :: k in after ==> k in before && after[k] == before[k])
    && (forall k :: k in before && (k in keep || k in todo) ==> k in after)
  }

  ghost predicate DropCalls(keep: set<string>, calls: seq<Call>) {
    forall c :: c in calls ==> c.RemoveCall? && c.name !in keep
  }

  /** The loop over the table: every name that is not kept is tried. */
  method DropAll(rc: Recursor, current: set<string>, keep: set<string>) returns (first: Option<Error>)
    requires rc.enabled && Canonical(rc.forwards) && current == rc.forwards.Keys && "." in keep
    modifies rc`faults, rc`calls, rc`forwards
    ensures old(rc.Clean()) ==> rc.Clean() && first.None?
    ensures old(rc.calls) <= rc.calls && DropCalls(keep, rc.calls[|old(rc.calls)|..])
    ensures DropEffect({}, keep, old(rc.forwards), rc.forwards)
    ensures first.None? ==> forall k :: k in rc.forwards ==> k in keep
  {
    hide CanonicalForward, Canon;
    first := None;
    var todo := current;
    while todo != {}
      invariant old(rc.Clean()) ==> rc.Clean() && first.None?
      invariant todo <= current
      invariant old(rc.calls) <= rc.calls && DropCalls(keep, rc.calls[|old(rc.calls)|..])
      invariant DropEffect(todo, keep, old(rc.forwards), rc.forwards)
      invariant first.None? ==> forall k :: k in rc.forwards ==> k in keep || k in todo
    {
      var z :| z in todo;
      todo := todo - {z};
      CanonAgrees(z);
      if CanonicalForward(z) !in keep {
        ghost var calls := rc.calls;
        var err := rc.RemoveForward(z);
        if err.Some? && first.None? { first := err; }
        CallsSince(old(rc.calls), calls, rc.calls);
      }
    }
  }

  /** One pass. It returns the first error after trying every zone. `managed` is the answer of the
  row store. */
  method Reconcile(rc: Recursor, managed: Result<seq<string>>, statics: seq<string>) returns (err: Option<Error>)
    requires Canonical(rc.forwards)
    modifies rc`faults, rc`calls, rc`forwards
    ensures old(rc.Clean()) ==> rc.Clean()
    ensures Canonical(rc.forwards) && old(rc.calls) <= rc.calls
    ensures managed.Err? || !rc.enabled ==> rc.forwards == old(rc.forwards) && rc.calls == old(rc.calls)
    // whatever fails: no kept name is removed, by call or from the table, and every zone is tried
    ensures managed.Ok? ==> NeverRemoves(rc.calls[|old(rc.calls)|..], managed.value, statics)
    ensures managed.Ok? ==> forall k :: k in old(rc.forwards) && Kept(managed.value, statics, k) ==> k in rc.forwards
    ensures managed.Ok? && rc.enabled ==>
              forall z :: z in managed.value && CanonicalForward(z) != "." ==>
                SyncCall(CanonicalForward(z)) in rc.calls[|old(rc.calls)|..]
    // no error means reconciled, and without faults there is none
    ensures rc.enabled && managed.Ok? && err.None? ==>
              Reconciled(managed.value, statics, rc.target, old(rc.forwards), rc.forwards)
    ensures old(rc.Clean()) && managed.Ok? && AllNamed(managed.value) ==> err.None?
    ensures managed.Err? ==> err.Some?
  {
    hide CanonicalForward, Canon, Managed, SyncEffect, SyncCalls, SyncedAll, DropEffect, DropCalls, Canonical,
      Reconciled;
    assert rc.calls[|rc.calls|..] == [];
    if managed.Err? { return Some(managed.error); }
    if !rc.enabled { return None; }
    var keep := {"."} + set s | s in statics :: CanonicalForward(s);
    ghost var t0, c0 := rc.forwards, rc.calls;
    var first;
    keep, first := SyncAll(rc, managed.value, keep);
    KeepIsKept(managed.value, statics, keep);
    ghost var t1, c1 := rc.forwards, rc.calls;
    AfterSync(managed.value, statics, rc.target, t0, t1, c1[|c0|..]);
    var current := rc.ListForwards();
    if current.Err? {
      CallsSince(c0, c1, rc.calls);
      Listed(c1[|c0|..], rc.calls[|c0|..], managed.value, statics);
      return Some(current.error);
    }
    ghost var c2 := rc.calls;
    var second := DropAll(rc, current.value, keep);
    err := if first.Some? then first else second;
    CallsSince(c0, c1, c2);
    CallsSince(c0, c2, rc.calls);
    AfterDrop(managed.value, statics, rc.target, keep, t0, t1, rc.forwards, c1[|c0|..], rc.calls[|c2|..],
              rc.calls[|c0|..]);
    if err.None? {
      PassReconciles(managed.value, statics, rc.target, keep, t0, t1, rc.forwards);
    }
  }

  lemma KeepIsKept(managed: seq<string>, statics: seq<string>, keep: set<string>)
    requires AlsoKept(keep, {"."} + (set s | s in statics :: CanonicalForward(s)), managed)
    ensures forall k :: k in keep <==> Kept(managed, statics, k)
  {
    hide CanonicalForward, Managed;
  }

  lemma AfterSync(managed: seq<string>, statics: seq<string>, target: string, t0: Table, t1: Table, calls: seq<Call>)
    requires SyncEffect(managed, target, t0, t1) && SyncCalls(managed, calls)
    ensures Canonical(t1) && NeverRemoves(calls, managed, statics) && forall k :: k in t0 ==> k in t1
  {
    hide CanonicalForward, Managed, Kept;
  }

  lemma Listed(calls: seq<Call>, more: seq<Call>, managed: seq<string>, statics: seq<string>)
    requires SyncCalls(managed, calls) && more == calls + [ListCall]
    ensures NeverRemoves(more, managed, statics)
    ensures forall z :: z in managed && CanonicalForward(z) != "." ==> SyncCall(CanonicalForward(z)) in more
  {
    hide CanonicalForward, Managed, Kept;
  }

  lemma AfterDrop(managed: seq<string>, statics: seq<string>, target: string, keep: set<string>, t0: Table, t1: Table,
                  t2: Table, syncs: seq<Call>, drops: seq<Call>, all: seq<Call>)
    requires SyncEffect(managed, target, t0, t1) && SyncCalls(managed, syncs) && DropEffect({}, keep, t1, t2)
    requires DropCalls(keep, drops)
    requires all == syncs + [ListCall] + drops && forall k :: k in keep <==> Kept(managed, statics, k)
    ensures Canonical(t2) && NeverRemoves(all, managed, statics)
    ensures forall k :: k in t0 && Kept(managed, statics, k) ==> k in t2
    ensures forall z :: z in managed && CanonicalForward(z) != "." ==> SyncCall(CanonicalForward(z)) in all
  {
    hide CanonicalForward, Managed, Kept;
  }

  /** Syncing, then dropping, gives the table aimed at. */
  lemma PassReconciles(managed: seq<string>, statics: seq<string>, target: string, keep: set<string>, t0: Table,
                       t1: Table, t2: Table)
    requires SyncEffect(managed, target, t0, t1) && SyncedAll(managed, target, t1) && DropEffect({}, keep, t1, t2)
    requires (forall k :: k in keep <==> Kept(managed, statics, k)) && forall k :: k in t2 ==> k in keep
    ensures Reconciled(managed, statics, target, t0, t2)
  {
    hide CanonicalForward, Managed;
  }
}
