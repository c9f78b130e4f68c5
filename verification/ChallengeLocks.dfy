/** Concurrent challenge operations under striped locks (internal/acmechallenge/acmechallenge.go):
each operation locks the stripe of its (tenant, name), reads the TXT set, and writes the whole
set back. Any number of operations, any interleaving of their reads and writes, any hash. */
module ChallengeLocks {
  import opened Model
  import opened Challenges

  /** A Present, or a CleanUp or sweep removal, of one value in a zone of the tenant. */
  datatype Op = Op(zone: string, tenant: string, fqdn: string, value: string, add: bool)

  type Place = (string, string)

  function PlaceOf(op: Op): Place { (op.zone, op.fqdn) }

  /** What the operation makes of the records it read. */
  function Effect(op: Op, rs: seq<Record>): seq<Record> {
    if op.add then With(rs, Quoted(op.value)) else Struck(rs, {Quoted(op.value)})
  }

  datatype Phase = Waiting | Locked | Knows(rs: seq<Record>) | Written | Done | Failed

  /** Holding its stripe. */
  predicate Active(p: Phase) { p.Locked? || p.Knows? || p.Written? }

  /** Its effect is on the server. */
  predicate Applied(p: Phase) { p.Written? || p.Done? }

  /** The operations, the owner of each zone, and the stripe of a (tenant, name). */
  datatype System = System(ops: seq<Op>, owner: string -> string, stripe: (string, string) -> nat)

  ghost predicate SystemOK(sys: System) {
    forall i :: 0 <= i < |sys.ops| ==> sys.ops[i].tenant == sys.owner(sys.ops[i].zone)
  }

  function StripeOf(sys: System, i: nat): nat
    requires i < |sys.ops|
  {
    sys.stripe(sys.ops[i].tenant, sys.ops[i].fqdn)
  }

  /** `order` lists the operations as they took their locks. */
  datatype State = State(phase: seq<Phase>, holder: map<nat, nat>, txt: map<Place, seq<Record>>, order: seq<nat>)

  function At(txt: map<Place, seq<Record>>, p: Place): seq<Record> {
    if p in txt then txt[p] else []
  }

  datatype Step = Lock(i: nat) | Read(i: nat) | Write(i: nat) | GiveUp(i: nat) | Unlock(i: nat)

  ghost predicate Next(sys: System, a: State, step: Step, b: State) {
    && step.i < |sys.ops| && |a.phase| == |sys.ops|
    && var i := step.i;
       var op := sys.ops[i];
       var s := StripeOf(sys, i);
       match step
       case Lock(_) =>
         a.phase[i].Waiting? && s !in a.holder &&
         b == State(a.phase[i := Locked], a.holder[s := i], a.txt, a.order + [i])
       case Read(_) =>
         a.phase[i].Locked? && b == a.(phase := a.phase[i := Knows(At(a.txt, PlaceOf(op)))])
       case Write(_) =>
         && a.phase[i].Knows?
         && var rs := a.phase[i].rs;
            b == a.(phase := a.phase[i := Written],
                    txt := if Effect(op, rs) == rs then a.txt else a.txt[PlaceOf(op) := Effect(op, rs)])
       case GiveUp(_) =>
         (a.phase[i].Locked? || a.phase[i].Knows?) && b == a.(phase := a.phase[i := Failed], holder := a.holder - {s})
       case Unlock(_) =>
         a.phase[i].Written? && b == a.(phase := a.phase[i := Done], holder := a.holder - {s})
  }

  ghost predicate Start(sys: System, s: State) {
    && |s.phase| == |sys.ops| && (forall i :: 0 <= i < |s.phase| ==> s.phase[i].Waiting?)
    && s.holder == map[] && s.order == []
  }

  // ----- the operations applied in lock order

  ghost predicate InRange(sys: System, order: seq<nat>) {
    forall k :: 0 <= k < |order| ==> order[k] < |sys.ops|
  }

  /** The records at a place once the applied operations, in lock order, are done to it. */
  ghost function Replay(sys: System, phase: seq<Phase>, was: seq<Record>, order: seq<nat>, p: Place): seq<Record>
    requires |phase| == |sys.ops| && InRange(sys, order)
  {
    if order == [] then was
    else
      var i := order[|order| - 1];
      var before := Replay(sys, phase, was, order[..|order| - 1], p);
      if PlaceOf(sys.ops[i]) == p && Applied(phase[i]) then Effect(sys.ops[i], before) else before
  }

  lemma {:induction false} ReplayKept(sys: System, a: seq<Phase>, b: seq<Phase>, was: seq<Record>, order: seq<nat>,
                                      p: Place)
    requires |a| == |sys.ops| == |b| && InRange(sys, order)
    requires forall k :: 0 <= k < |order| && PlaceOf(sys.ops[order[k]]) == p ==>
               Applied(a[order[k]]) == Applied(b[order[k]])
    ensures Replay(sys, a, was, order, p) == Replay(sys, b, was, order, p)
  {
    hide Effect, PlaceOf, Applied;
    if order != [] {
      ReplayKept(sys, a, b, was, order[..|order| - 1], p);
    }
  }

  /** Writing, when no later holder of the lock is at the same place. */
  lemma {:induction false} ReplayWritten(sys: System, phase: seq<Phase>, was: seq<Record>, order: seq<nat>, k: nat)
    requires |phase| == |sys.ops| && InRange(sys, order) && k < |order|
    requires !Applied(phase[order[k]])
    requires forall j :: 0 <= j < |order| && j != k ==> order[j] != order[k]
    requires forall j :: k < j < |order| ==> PlaceOf(sys.ops[order[j]]) != PlaceOf(sys.ops[order[k]])
    ensures var i := order[k];
            var p := PlaceOf(sys.ops[i]);
            Replay(sys, phase[i := Written], was, order, p) == Effect(sys.ops[i], Replay(sys, phase, was, order, p))
  {
    hide Effect, PlaceOf;
    var n := |order| - 1;
    var i := order[k];
    var p := PlaceOf(sys.ops[i]);
    if k == n {
      ReplayKept(sys, phase, phase[i := Written], was, order[..n], p);
    } else {
      ReplayWritten(sys, phase, was, order[..n], k);
    }
  }

  // ----- the invariant

  ghost predicate LocksOK(sys: System, s: State)
    requires |s.phase| == |sys.ops|
  {
    && (forall t :: t in s.holder ==>
          s.holder[t] < |sys.ops| && StripeOf(sys, s.holder[t]) == t && Active(s.phase[s.holder[t]]))
    && (forall i :: 0 <= i < |sys.ops| && Active(s.phase[i]) ==>
          StripeOf(sys, i) in s.holder && s.holder[StripeOf(sys, i)] == i)
  }

  /** Each operation past waiting has its one place in the order. */
  ghost predicate Ordered(sys: System, s: State)
    requires |s.phase| == |sys.ops|
  {
    && InRange(sys, s.order)
    && (forall k :: 0 <= k < |s.order| ==> !s.phase[s.order[k]].Waiting?)
    && (forall i :: 0 <= i < |sys.ops| && !s.phase[i].Waiting? ==> i in s.order)
    && (forall j, k :: 0 <= j < k < |s.order| ==> s.order[j] != s.order[k])
  }

  /** While one holds a stripe no later one has taken it. */
  ghost predicate Exclusive(sys: System, s: State)
    requires |s.phase| == |sys.ops| && InRange(sys, s.order)
  {
    forall j, k :: 0 <= j < k < |s.order| && StripeOf(sys, s.order[j]) == StripeOf(sys, s.order[k]) ==>
      !Active(s.phase[s.order[j]])
  }

  /** What was read under the lock is still there. */
  ghost predicate ReadsOK(sys: System, s: State)
    requires |s.phase| == |sys.ops|
  {
    forall i :: 0 <= i < |sys.ops| && s.phase[i].Knows? ==> s.phase[i].rs == At(s.txt, PlaceOf(sys.ops[i]))
  }

  ghost predicate Replays(sys: System, was: map<Place, seq<Record>>, s: State)
    requires |s.phase| == |sys.ops| && InRange(sys, s.order)
  {
    forall p :: At(s.txt, p) == Replay(sys, s.phase, At(was, p), s.order, p)
  }

  ghost predicate Inv(sys: System, was: map<Place, seq<Record>>, s: State) {
    |s.phase| == |sys.ops| && LocksOK(sys, s) && Ordered(sys, s) && Exclusive(sys, s) && ReadsOK(sys, s) &&
    Replays(sys, was, s)
  }

  lemma StartInv(sys: System, s: State)
    requires Start(sys, s)
    ensures Inv(sys, s.txt, s)
  {
  }

  lemma LocksKept(sys: System, a: State, step: Step, b: State)
    requires |a.phase| == |sys.ops| && LocksOK(sys, a) && Next(sys, a, step, b)
    ensures |b.phase| == |sys.ops| && LocksOK(sys, b)
  {
    hide Effect, PlaceOf, StripeOf, At;
  }

  lemma OrderKept(sys: System, a: State, step: Step, b: State)
    requires |a.phase| == |sys.ops| && Ordered(sys, a) && Next(sys, a, step, b)
    ensures |b.phase| == |sys.ops| && Ordered(sys, b)
  {
    hide Effect, PlaceOf, StripeOf, At;
    if step.Lock? {
      assert forall k :: 0 <= k < |a.order| ==> a.order[k] != step.i;
      assert b.order == a.order + [step.i];
    }
  }

  lemma ExclusionKept(sys: System, a: State, step: Step, b: State)
    requires |a.phase| == |sys.ops| && LocksOK(sys, a) && Ordered(sys, a) && Exclusive(sys, a) && Next(sys, a, step, b)
    requires |b.phase| == |sys.ops| && InRange(sys, b.order)
    ensures Exclusive(sys, b)
  {
    hide Effect, PlaceOf, StripeOf, At;
    if step.Lock? {
      assert forall k :: 0 <= k < |a.order| ==> a.order[k] != step.i;
    }
  }

  /** Operations at one place share a stripe. */
  lemma SamePlaceSameStripe(sys: System, i: nat, j: nat)
    requires SystemOK(sys) && i < |sys.ops| && j < |sys.ops| && PlaceOf(sys.ops[i]) == PlaceOf(sys.ops[j])
    ensures StripeOf(sys, i) == StripeOf(sys, j)
  {
  }

  /** At most one operation at a place holds its lock. */
  lemma OneHolder(sys: System, s: State, i: nat, j: nat)
    requires SystemOK(sys) && |s.phase| == |sys.ops| && LocksOK(sys, s) && i < |sys.ops| && j < |sys.ops|
    requires Active(s.phase[i]) && Active(s.phase[j]) && PlaceOf(sys.ops[i]) == PlaceOf(sys.ops[j])
    ensures i == j
  {
    hide PlaceOf, StripeOf, SystemOK;
    SamePlaceSameStripe(sys, i, j);
  }

  lemma ReadsKept(sys: System, a: State, step: Step, b: State)
    requires SystemOK(sys) && |a.phase| == |sys.ops| && LocksOK(sys, a) && ReadsOK(sys, a) && Next(sys, a, step, b)
    ensures |b.phase| == |sys.ops| && ReadsOK(sys, b)
  {
    hide Effect, PlaceOf, StripeOf, SystemOK, LocksOK;
    forall j | 0 <= j < |sys.ops| && b.phase[j].Knows? ensures b.phase[j].rs == At(b.txt, PlaceOf(sys.ops[j])) {
      if step.Write? && PlaceOf(sys.ops[j]) == PlaceOf(sys.ops[step.i]) {
        OneHolder(sys, a, step.i, j);
        assert false;
      }
    }
  }

  /** Nobody who took a lock later works at the place of a holder. */
  lemma LastAtPlace(sys: System, s: State, k: nat)
    requires SystemOK(sys) && |s.phase| == |sys.ops| && Ordered(sys, s) && Exclusive(sys, s) && k < |s.order|
    requires Active(s.phase[s.order[k]])
    ensures forall j :: k < j < |s.order| ==> PlaceOf(sys.ops[s.order[j]]) != PlaceOf(sys.ops[s.order[k]])
  {
    hide PlaceOf, StripeOf, SystemOK;
    forall j | k < j < |s.order| && PlaceOf(sys.ops[s.order[j]]) == PlaceOf(sys.ops[s.order[k]])
      ensures StripeOf(sys, s.order[j]) == StripeOf(sys, s.order[k])
    {
      SamePlaceSameStripe(sys, s.order[j], s.order[k]);
    }
  }

  lemma ReplaysKept(sys: System, was: map<Place, seq<Record>>, a: State, step: Step, b: State)
    requires |a.phase| == |sys.ops| && Ordered(sys, a) && Replays(sys, was, a) && Next(sys, a, step, b) && !step.Write?
    requires |b.phase| == |sys.ops| && InRange(sys, b.order)
    ensures Replays(sys, was, b)
  {
    hide Effect, PlaceOf, StripeOf, Replay;
    forall p ensures At(b.txt, p) == Replay(sys, b.phase, At(was, p), b.order, p) {
      assert step.Lock? ==> forall k :: 0 <= k < |a.order| ==> a.order[k] != step.i;
      ReplayKept(sys, a.phase, b.phase, At(was, p), a.order, p);
      if step.Lock? { ReplayLocked(sys, b.phase, At(was, p), a.order, step.i, p); }
    }
  }

  lemma ReplayLocked(sys: System, phase: seq<Phase>, was: seq<Record>, order: seq<nat>, i: nat, p: Place)
    requires |phase| == |sys.ops| && InRange(sys, order) && i < |sys.ops| && !Applied(phase[i])
    ensures Replay(sys, phase, was, order + [i], p) == Replay(sys, phase, was, order, p)
  {
    hide Effect, PlaceOf;
    assert (order + [i])[..|order|] == order;
  }

  lemma WriteReplays(sys: System, was: map<Place, seq<Record>>, a: State, i: nat, b: State)
    requires SystemOK(sys) && Inv(sys, was, a) && Next(sys, a, Write(i), b)
    ensures Replays(sys, was, b)
  {
    hide Effect, PlaceOf, StripeOf, Replay, LocksOK, Exclusive, SystemOK;
    var place := PlaceOf(sys.ops[i]);
    var k :| 0 <= k < |a.order| && a.order[k] == i;
    LastAtPlace(sys, a, k);
    ReplayWritten(sys, a.phase, At(was, place), a.order, k);
    forall p ensures At(b.txt, p) == Replay(sys, b.phase, At(was, p), b.order, p) {
      if p != place { ReplayKept(sys, a.phase, b.phase, At(was, p), a.order, p); }
    }
  }

  /** Every step of any interleaving keeps the invariant. */
  lemma StepKeeps(sys: System, was: map<Place, seq<Record>>, a: State, step: Step, b: State)
    requires SystemOK(sys) && Inv(sys, was, a) && Next(sys, a, step, b)
    ensures Inv(sys, was, b)
  {
    hide LocksOK, Ordered, Exclusive, ReadsOK, Replays, Next, SystemOK;
    LocksKept(sys, a, step, b);
    OrderKept(sys, a, step, b);
    ReadsKept(sys, a, step, b);
    OrderInRange(sys, b);
    ExclusionKept(sys, a, step, b);
    if step.Write? {
      WriteReplays(sys, was, a, step.i, b);
    } else {
      ReplaysKept(sys, was, a, step, b);
    }
  }

  lemma OrderInRange(sys: System, s: State)
    requires |s.phase| == |sys.ops| && Ordered(sys, s)
    ensures InRange(sys, s.order)
  {
  }

  ghost predicate IsRun(sys: System, states: seq<State>, steps: seq<Step>) {
    && |states| == |steps| + 1 && Start(sys, states[0])
    && forall n :: 0 <= n < |steps| ==> Next(sys, states[n], steps[n], states[n + 1])
  }

  /** In every state of every run, each TXT set is what the applied operations, in lock order,
  make of the set at the start: no update is lost. */
  lemma {:induction false} RunReplays(sys: System, states: seq<State>, steps: seq<Step>, n: nat)
    requires SystemOK(sys) && IsRun(sys, states, steps) && n <= |steps|
    ensures Inv(sys, states[0].txt, states[n])
  {
    hide Inv, Next, SystemOK, Start;
    if n == 0 {
      StartInv(sys, states[0]);
    } else {
      RunReplays(sys, states, steps, n - 1);
      StepKeeps(sys, states[0].txt, states[n - 1], steps[n - 1], states[n]);
    }
  }

  // ----- what the replayed set means

  lemma EffectHolds(op: Op, rs: seq<Record>)
    ensures op.add ==> Quoted(op.value) in Contents(Effect(op, rs))
    ensures !op.add ==> Quoted(op.value) !in Contents(Effect(op, rs))
  {
    var out := Effect(op, rs);
    if op.add {
      if Quoted(op.value) !in Contents(rs) { assert Contents(out)[|rs|] == Quoted(op.value); }
    } else {
      StruckMembers(rs, {Quoted(op.value)});
      forall i | 0 <= i < |out| ensures Contents(out)[i] != Quoted(op.value) { assert out[i] in out; }
    }
  }

  /** An operation on another value leaves this one as it is. */
  lemma EffectElsewhere(op: Op, rs: seq<Record>, r: Record)
    requires r.content != Quoted(op.value)
    ensures r in Effect(op, rs) <==> r in rs
  {
    StruckMembers(rs, {Quoted(op.value)});
  }

  lemma InContents(rs: seq<Record>, q: string)
    ensures q in Contents(rs) <==> exists r :: r in rs && r.content == q
  {
    if q in Contents(rs) {
      var i :| 0 <= i < |rs| && Contents(rs)[i] == q;
      assert rs[i] in rs && rs[i].content == q;
    }
    if r :| r in rs && r.content == q {
      var i :| 0 <= i < |rs| && rs[i] == r;
      assert Contents(rs)[i] == q;
    }
  }

  lemma EffectKeepsValue(op: Op, rs: seq<Record>, q: string)
    requires Quoted(op.value) != q
    ensures q in Contents(Effect(op, rs)) <==> q in Contents(rs)
  {
    hide Effect;
    InContents(rs, q);
    InContents(Effect(op, rs), q);
    forall r: Record | r.content == q ensures r in Effect(op, rs) <==> r in rs { EffectElsewhere(op, rs, r); }
  }

  ghost predicate Contrary(a: Op, b: Op) {
    PlaceOf(a) == PlaceOf(b) && a.value == b.value && a.add != b.add
  }

  /** The k-th operation is applied, and no contrary one after it. */
  ghost predicate Decisive(sys: System, phase: seq<Phase>, order: seq<nat>, k: nat)
    requires |phase| == |sys.ops| && InRange(sys, order) && k < |order|
  {
    && Applied(phase[order[k]])
    && forall j :: k < j < |order| && Applied(phase[order[j]]) ==> !Contrary(sys.ops[order[j]], sys.ops[order[k]])
  }

  /** The last applied operation on a value at a place decides whether it is there. */
  lemma {:induction false} LastDecides(sys: System, phase: seq<Phase>, was: seq<Record>, order: seq<nat>, k: nat)
    requires |phase| == |sys.ops| && InRange(sys, order) && k < |order| && Decisive(sys, phase, order, k)
    ensures var op := sys.ops[order[k]];
            (Quoted(op.value) in Contents(Replay(sys, phase, was, order, PlaceOf(op)))) == op.add
  {
    hide Effect, PlaceOf, Quoted;
    var n := |order| - 1;
    var op, last := sys.ops[order[k]], sys.ops[order[n]];
    var before := Replay(sys, phase, was, order[..n], PlaceOf(op));
    EffectHolds(last, before);
    if k < n {
      LastDecides(sys, phase, was, order[..n], k);
      QuotedApart(op.value, last.value);
      if last.value != op.value { EffectKeepsValue(last, before, Quoted(op.value)); }
    }
  }

  lemma QuotedApart(a: string, b: string)
    ensures Quoted(a) == Quoted(b) <==> a == b
  {
    assert Quoted(a)[1..|a| + 1] == a && Quoted(b)[1..|b| + 1] == b;
  }

  lemma {:induction false} StruckAppend(rs: seq<Record>, r: Record, bad: set<string>)
    requires r.content in bad
    ensures Struck(rs + [r], bad) == Struck(rs, bad)
  {
    if rs == [] {
      assert Struck([r], bad) == Struck([r][1..], bad);
    } else {
      StruckAppend(rs[1..], r, bad);
      assert (rs + [r])[1..] == rs[1..] + [r];
    }
  }

  lemma EffectStruck(op: Op, rs: seq<Record>, bad: set<string>)
    requires Quoted(op.value) in bad
    ensures Struck(Effect(op, rs), bad) == Struck(rs, bad)
  {
    if op.add {
      StruckAppend(rs, Record(Quoted(op.value), false), bad);
    } else {
      StruckTwice(rs, {Quoted(op.value)}, bad);
      assert {Quoted(op.value)} + bad == bad;
    }
  }

  /** Values no operation is about keep content, order and disabled flag. */
  lemma {:induction false} OthersKept(sys: System, phase: seq<Phase>, was: seq<Record>, order: seq<nat>, p: Place,
                                      touched: set<string>)
    requires |phase| == |sys.ops| && InRange(sys, order)
    requires forall k :: 0 <= k < |order| && PlaceOf(sys.ops[order[k]]) == p ==>
               Quoted(sys.ops[order[k]].value) in touched
    ensures Struck(Replay(sys, phase, was, order, p), touched) == Struck(was, touched)
  {
    hide Effect, PlaceOf, Struck;
    if order != [] {
      var n := |order| - 1;
      OthersKept(sys, phase, was, order[..n], p, touched);
      if PlaceOf(sys.ops[order[n]]) == p {
        EffectStruck(sys.ops[order[n]], Replay(sys, phase, was, order[..n], p), touched);
      }
    }
  }

  /** In every state of every run: a value is at its place exactly when the last applied
  operation on it, in lock order, was a Present. */
  lemma RunDecides(sys: System, states: seq<State>, steps: seq<Step>, n: nat, k: nat)
    requires SystemOK(sys) && IsRun(sys, states, steps) && n <= |steps| && |states[n].phase| == |sys.ops|
    requires InRange(sys, states[n].order)
    requires k < |states[n].order| && Decisive(sys, states[n].phase, states[n].order, k)
    ensures var op := sys.ops[states[n].order[k]];
            (Quoted(op.value) in Contents(At(states[n].txt, PlaceOf(op)))) == op.add
  {
    hide Effect, PlaceOf, Quoted, Next, Start, Replay, SystemOK, Decisive;
    RunReplays(sys, states, steps, n);
    var s := states[n];
    LastDecides(sys, s.phase, At(states[0].txt, PlaceOf(sys.ops[s.order[k]])), s.order, k);
  }

  /** And every value no operation is about keeps its content, order and disabled flag. */
  lemma RunKeepsOthers(sys: System, states: seq<State>, steps: seq<Step>, n: nat, p: Place, touched: set<string>)
    requires SystemOK(sys) && IsRun(sys, states, steps) && n <= |steps|
    requires forall i :: 0 <= i < |sys.ops| && PlaceOf(sys.ops[i]) == p ==> Quoted(sys.ops[i].value) in touched
    ensures Struck(At(states[n].txt, p), touched) == Struck(At(states[0].txt, p), touched)
  {
    hide Effect, PlaceOf, Quoted, Next, Start, Replay, SystemOK, Applied, Struck;
    RunReplays(sys, states, steps, n);
    OthersKept(sys, states[n].phase, At(states[0].txt, p), states[n].order, p, touched);
  }
}
