/** The record-set service (internal/records/records.go): each change reads the zone from the
authoritative server, validates against what it read and applies one patch.

`Edited` says what a change does to a zone's record sets; the methods are proved against it,
and the lemmas at the end say what every run of such changes keeps. */
module Records {
  import opened Strings
  import opened Names
  import opened Wrappers
  import opened Model
  import opened RecordSets
  import opened Pdns

  type ServerZones = map<string, ServerZone>

  /** One change as a caller submits it: Upsert, Update (a rename when the key differs) and Delete. */
  datatype Edit =
    | Put(inp: RecordSetInput)
    | Change(name: string, typ: RRType, inp: RecordSetInput)
    | Drop(name: string, typ: RRType)

  /** The sets other than those matching (name, type). */
  function Others(sets: seq<RRset>, name: string, typ: RRType): (out: seq<RRset>)
    ensures forall r :: r in out ==> r in sets
  {
    if sets == [] then []
    else if Matches(sets[0], name, typ) then Others(sets[1..], name, typ)
    else [sets[0]] + Others(sets[1..], name, typ)
  }

  lemma {:induction false} OthersIsWithout(sets: seq<RRset>, name: string, typ: RRType)
    requires LowerNames(sets) && Lower(name) == name
    ensures Others(sets, name, typ) == Without(sets, name, typ)
  {
    if sets != [] {
      assert sets[0] in sets;
      OthersIsWithout(sets[1..], name, typ);
    }
  }

  /** What is wrong with the key of the record set to change, before anything is read. */
  function KeyError(zone: string, e: Edit): Option<Error> {
    match e
    case Put(_) => None
    case Change(name, typ, _) =>
      if RecordName(zone, name).None? then Some(BadName) else if !Editable(typ) then Some(BadRecord) else None
    case Drop(name, typ) =>
      if RecordName(zone, name).None? then Some(BadName) else if !Editable(typ) then Some(BadRecord) else None
  }

  ghost function Edited(rules: Rules, zone: string, sets: seq<RRset>, e: Edit): Result<seq<RRset>> {
    match e
    case Put(inp) =>
      var rr := RecordSetOf(rules, zone, inp, sets);
      if rr.Err? then Err(rr.error) else Ok(Patch(sets, Replace(rr.value)))
    case Change(name, typ, inp) =>
      var n := RecordName(zone, name);
      if n.None? then Err(BadName)
      else if !Editable(typ) then Err(BadRecord)
      else if Find(sets, n.value, typ).None? then Err(RecordNotFound)
      else
        var others := Others(sets, n.value, typ);
        var rr := RecordSetOf(rules, zone, inp, others);
        if rr.Err? then Err(rr.error)
        else if SameKey(rr.value, n.value, typ) then Ok(Patch(sets, Replace(rr.value)))
        else if Find(others, rr.value.name, rr.value.typ).Some? then Err(RecordConflict)
        else Ok(PatchAll(sets, [Replace(rr.value), Remove(n.value, typ)]))
    case Drop(name, typ) =>
      var n := RecordName(zone, name);
      if n.None? then Err(BadName)
      else if !Editable(typ) then Err(BadRecord)
      else if Find(sets, n.value, typ).None? then Err(RecordNotFound)
      else Ok(Patch(sets, Remove(n.value, typ)))
  }

  /** The row's zone is on the server under its id and name. */
  ghost predicate Linked(z: Zone, server: ServerZones) {
    z.pdnsId in server && server[z.pdnsId].name == z.name && CanonicalZone(z.name) == Some(z.name)
  }

  function WithSets(server: ServerZones, id: string, sets: seq<RRset>): ServerZones
    requires id in server
  {
    server[id := server[id].(rrsets := sets, serial := server[id].serial + 1)]
  }

  /** How a change ends: applied as a whole, or refused or failed with nothing applied. */
  ghost predicate Outcome(rules: Rules, z: Zone, e: Edit, before: ServerZones, clean: bool,
                          err: Option<Error>, after: ServerZones)
  {
    match err
    case None =>
      && !NeedsMasters(z.kind) && z.pdnsId in before
      && var sets := Edited(rules, z.name, before[z.pdnsId].rrsets, e);
         sets.Ok? && after == WithSets(before, z.pdnsId, sets.value)
    case Some(x) =>
      && after == before
      && ((x.InvalidKind? && NeedsMasters(z.kind))
          || (x.Unavailable? && !clean)
          || (x.ServerNotFound? && z.pdnsId !in before)
          || (x.Rejected? && z.pdnsId in before && !Linked(z, before))
          || (!NeedsMasters(z.kind) && KeyError(z.name, e) == err)
          || (!NeedsMasters(z.kind) && z.pdnsId in before &&
              Edited(rules, z.name, before[z.pdnsId].rrsets, e) == Err(x)))
  }

  /** Nothing changed, or one edit of the zone was made. */
  ghost predicate OneEdit(rules: Rules, z: Zone, before: ServerZones, after: ServerZones) {
    after == before || exists e, clean :: Outcome(rules, z, e, before, clean, None, after)
  }

  lemma NoEdit(rules: Rules, z: Zone, server: ServerZones)
    ensures OneEdit(rules, z, server, server)
  {
  }

  lemma EditMade(rules: Rules, z: Zone, e: Edit, before: ServerZones, clean: bool, after: ServerZones)
    requires Outcome(rules, z, e, before, clean, None, after)
    ensures OneEdit(rules, z, before, after)
  {
  }

  /** A server refusal other than not-found and conflict. */
  function MapServer(err: Error): Error {
    if err.Unprocessable? then Rejected else err
  }

  method ReadSets(pd: Server, z: Zone) returns (r: Result<seq<RRset>>)
    modifies pd`faults
    ensures old(pd.Clean()) ==> pd.Clean()
    ensures match r
            case Ok(sets) => !pd.down && z.pdnsId in pd.zones && pd.zones[z.pdnsId].rrsets == sets
            case Err(e) =>
              (e.Unavailable? && !old(pd.Clean())) || (e.ServerNotFound? && z.pdnsId !in pd.zones && !pd.down)
  {
    var got := pd.GetZone(z.pdnsId);
    if got.Err? { return Err(MapServer(got.error)); }
    r := Ok(got.value.rrsets);
  }

  method Lookup(pd: Server, z: Zone, name: string, typ: RRType) returns (r: Result<RRset>)
    modifies pd`faults
    ensures old(pd.Clean()) ==> pd.Clean()
    ensures match r
            case Ok(rs) =>
              && !pd.down && z.pdnsId in pd.zones && RecordName(z.name, name).Some?
              && Find(pd.zones[z.pdnsId].rrsets, RecordName(z.name, name).value, typ) == Some(rs)
            case Err(e) =>
              || (e.BadName? && RecordName(z.name, name).None?)
              || (e.Unavailable? && !old(pd.Clean()))
              || (e.ServerNotFound? && z.pdnsId !in pd.zones)
              || (e.RecordNotFound? && !pd.down && z.pdnsId in pd.zones && RecordName(z.name, name).Some? &&
                  Find(pd.zones[z.pdnsId].rrsets, RecordName(z.name, name).value, typ).None?)
  {
    var n := RecordName(z.name, name);
    if n.None? { return Err(BadName); }
    var cur := ReadSets(pd, z);
    if cur.Err? { return Err(cur.error); }
    var found := Find(cur.value, n.value, typ);
    r := if found.Some? then Ok(found.value) else Err(RecordNotFound);
  }

  method Apply(pd: Server, rules: Rules, z: Zone, inp: RecordSetInput) returns (r: Result<RRset>)
    modifies pd`faults, pd`zones
    ensures old(pd.Clean()) ==> pd.Clean()
    ensures Outcome(rules, z, Put(inp), old(pd.zones), old(pd.Clean()), if r.Ok? then None else Some(r.error), pd.zones)
    ensures r.Ok? ==> !pd.down && r == RecordSetOf(rules, z.name, inp, old(pd.zones)[z.pdnsId].rrsets)
  {
    hide RecordSetOf, CanonicalZone, Patch, PatchAll, Lower;
    if NeedsMasters(z.kind) { return Err(InvalidKind); }
    var cur := ReadSets(pd, z);
    if cur.Err? { return Err(cur.error); }
    r := RecordSet(rules, z.name, inp, cur.value);
    if r.Err? { return; }
    var changes := [Model.Replace(r.value)];
    PatchOneAt(cur.value, changes[0]);
    AcceptedInZone(rules, z.name, inp, cur.value);
    var err := pd.PatchRRsets(z.pdnsId, changes);
    if err.Some? { return Err(MapServer(err.value)); }
  }

  lemma PatchOneAt(sets: seq<RRset>, c: Model.Change)
    ensures PatchAll(sets, [c]) == Patch(sets, c)
  {
    assert [c][1..] == [];
    assert PatchAll(Patch(sets, c), []) == Patch(sets, c);
  }

  lemma AcceptedInZone(rules: Rules, zone: string, inp: RecordSetInput, existing: seq<RRset>)
    requires RecordSetOf(rules, zone, inp, existing).Ok?
    ensures CanonicalZone(zone) == Some(zone) ==> InZone(RecordSetOf(rules, zone, inp, existing).value.name, zone)
  {
    if CanonicalZone(zone) == Some(zone) { RecordNameSound(zone, inp.name); }
  }

  /** The source's loop that sets aside the record set being replaced. */
  method OtherSets(sets: seq<RRset>, name: string, typ: RRType) returns (others: seq<RRset>)
    ensures others == Others(sets, name, typ)
  {
    hide Matches;
    others := [];
    var i := 0;
    while i < |sets|
      invariant 0 <= i <= |sets|
      invariant others + Others(sets[i..], name, typ) == Others(sets, name, typ)
    {
      ghost var rest := Others(sets[i + 1..], name, typ);
      assert sets[i..][0] == sets[i] && sets[i..][1..] == sets[i + 1..];
      if !Matches(sets[i], name, typ) {
        assert others + ([sets[i]] + rest) == (others + [sets[i]]) + rest;
        others := others + [sets[i]];
      }
      i := i + 1;
    }
  }

  /** The patch an update asks for: one replacement, and for a rename the removal of the old set. */
  method PlanUpdate(rules: Rules, zone: string, sets: seq<RRset>, name: string, typ: RRType,
                    inp: RecordSetInput) returns (r: Result<seq<Model.Change>>)
    requires RecordName(zone, name).Some? && Editable(typ)
    ensures r.Ok? ==>
              && Edited(rules, zone, sets, Change(name, typ, inp)) == Ok(PatchAll(sets, r.value))
              && (CanonicalZone(zone) == Some(zone) ==> ChangesOK(r.value, zone))
    ensures r.Err? ==> Edited(rules, zone, sets, Change(name, typ, inp)) == Err(r.error)
  {
    hide RecordSetOf, RecordName, CanonicalZone, Find, Others, Patch, PatchAll, Lower, InZone;
    var oldName := RecordName(zone, name).value;
    if Find(sets, oldName, typ).None? { return Err(RecordNotFound); }
    var others := OtherSets(sets, oldName, typ);
    var rr := RecordSet(rules, zone, inp, others);
    if rr.Err? { return Err(rr.error); }
    AcceptedInZone(rules, zone, inp, others);
    OwnerInZone(zone, name);
    if SameKey(rr.value, oldName, typ) {
      PatchOneAt(sets, Model.Replace(rr.value));
      return Ok([Model.Replace(rr.value)]);
    }
    if Find(others, rr.value.name, rr.value.typ).Some? { return Err(RecordConflict); }
    r := Ok([Model.Replace(rr.value), Model.Remove(oldName, typ)]);
  }

  method Update(pd: Server, rules: Rules, z: Zone, name: string, typ: RRType, inp: RecordSetInput)
    returns (err: Option<Error>)
    modifies pd`faults, pd`zones
    ensures old(pd.Clean()) ==> pd.Clean()
    ensures Outcome(rules, z, Change(name, typ, inp), old(pd.zones), old(pd.Clean()), err, pd.zones)
  {
    hide Edited, RecordName, CanonicalZone, PatchAll, ChangesOK;
    if NeedsMasters(z.kind) { return Some(InvalidKind); }
    if RecordName(z.name, name).None? { return Some(BadName); }
    if !Editable(typ) { return Some(BadRecord); }
    var cur := ReadSets(pd, z);
    if cur.Err? { return Some(cur.error); }
    var changes := PlanUpdate(rules, z.name, cur.value, name, typ, inp);
    if changes.Err? { return Some(changes.error); }
    err := pd.PatchRRsets(z.pdnsId, changes.value);
    if err.Some? { err := Some(MapServer(err.value)); }
  }

  lemma OwnerInZone(zone: string, name: string)
    ensures CanonicalZone(zone) == Some(zone) && RecordName(zone, name).Some? ==>
              InZone(RecordName(zone, name).value, zone)
  {
    if CanonicalZone(zone) == Some(zone) { RecordNameSound(zone, name); }
  }

  /** The patch a delete asks for. */
  method PlanDelete(rules: Rules, zone: string, sets: seq<RRset>, name: string, typ: RRType)
    returns (r: Result<seq<Model.Change>>)
    requires RecordName(zone, name).Some? && Editable(typ)
    ensures r.Ok? ==>
              && Edited(rules, zone, sets, Drop(name, typ)) == Ok(PatchAll(sets, r.value))
              && (CanonicalZone(zone) == Some(zone) ==> ChangesOK(r.value, zone))
    ensures r.Err? ==> r.error.RecordNotFound? && Edited(rules, zone, sets, Drop(name, typ)) == Err(r.error)
  {
    hide RecordName, CanonicalZone, Find, Patch, PatchAll, InZone;
    var n := RecordName(zone, name).value;
    if Find(sets, n, typ).None? { return Err(RecordNotFound); }
    PatchOneAt(sets, Model.Remove(n, typ));
    OwnerInZone(zone, name);
    r := Ok([Model.Remove(n, typ)]);
  }

  method Delete(pd: Server, rules: Rules, z: Zone, name: string, typ: RRType) returns (err: Option<Error>)
    modifies pd`faults, pd`zones
    ensures old(pd.Clean()) ==> pd.Clean()
    ensures Outcome(rules, z, Drop(name, typ), old(pd.zones), old(pd.Clean()), err, pd.zones)
    ensures err == Some(RecordNotFound) || err == None ==> !pd.down
  {
    hide Edited, RecordName, CanonicalZone, PatchAll, ChangesOK;
    if NeedsMasters(z.kind) { return Some(InvalidKind); }
    if RecordName(z.name, name).None? { return Some(BadName); }
    if !Editable(typ) { return Some(BadRecord); }
    var cur := ReadSets(pd, z);
    if cur.Err? { return Some(cur.error); }
    var changes := PlanDelete(rules, z.name, cur.value, name, typ);
    if changes.Err? { return Some(changes.error); }
    err := pd.PatchRRsets(z.pdnsId, changes.value);
    if err.Some? { err := Some(MapServer(err.value)); }
  }

  // ----- what every run keeps

  ghost predicate SameSoa(a: seq<RRset>, b: seq<RRset>) {
    forall r: RRset :: r.typ.SOA? ==> (r in a <==> r in b)
  }

  lemma PatchKeepsSoa(sets: seq<RRset>, c: Model.Change)
    requires match c case Replace(rr) => !rr.typ.SOA? case Refill(rr) => !rr.typ.SOA? case Remove(_, t) => !t.SOA?
    ensures SameSoa(sets, Patch(sets, c))
  {
  }

  lemma PutKeeps(rules: Rules, zone: string, sets: seq<RRset>, inp: RecordSetInput)
    requires ParserLaws(rules) && CanonicalZone(zone) == Some(zone) && WellFormed(rules, zone, sets)
    requires Edited(rules, zone, sets, Put(inp)).Ok?
    ensures WellFormed(rules, zone, Edited(rules, zone, sets, Put(inp)).value)
    ensures SameSoa(sets, Edited(rules, zone, sets, Put(inp)).value)
  {
    AcceptedSetOK(rules, zone, inp, sets);
    ReplacedWellFormed(rules, zone, sets, inp);
    PatchKeepsSoa(sets, Model.Replace(RecordSetOf(rules, zone, inp, sets).value));
  }

  lemma DropKeeps(rules: Rules, zone: string, sets: seq<RRset>, name: string, typ: RRType)
    requires WellFormed(rules, zone, sets) && Edited(rules, zone, sets, Drop(name, typ)).Ok?
    ensures WellFormed(rules, zone, Edited(rules, zone, sets, Drop(name, typ)).value)
    ensures SameSoa(sets, Edited(rules, zone, sets, Drop(name, typ)).value)
  {
    hide RecordName, WellFormed;
    var n := RecordName(zone, name).value;
    RemovedWellFormed(rules, zone, sets, n, typ);
    PatchKeepsSoa(sets, Model.Remove(n, typ));
  }

  lemma ChangeKeeps(rules: Rules, zone: string, sets: seq<RRset>, name: string, typ: RRType, inp: RecordSetInput)
    requires ParserLaws(rules) && CanonicalZone(zone) == Some(zone) && WellFormed(rules, zone, sets)
    requires Edited(rules, zone, sets, Change(name, typ, inp)).Ok?
    ensures WellFormed(rules, zone, Edited(rules, zone, sets, Change(name, typ, inp)).value)
    ensures SameSoa(sets, Edited(rules, zone, sets, Change(name, typ, inp)).value)
  {
    hide RecordSetOf, WellFormed, RecordName, CanonicalZone, ParserLaws, Patch, PatchAll;
    RecordNameSound(zone, name);
    var n := RecordName(zone, name).value;
    WellFormedLower(rules, zone, sets);
    OthersIsWithout(sets, n, typ);
    var others := Without(sets, n, typ);
    var rr := RecordSetOf(rules, zone, inp, others).value;
    AcceptedSetOK(rules, zone, inp, others);
    RenamedWellFormed(rules, zone, sets, inp, n, typ, rr);
    PatchKeepsSoa(sets, Model.Replace(rr));
    if !SameKey(rr, n, typ) {
      PatchTwo(sets, Model.Replace(rr), Model.Remove(n, typ));
      PatchKeepsSoa(Patch(sets, Model.Replace(rr)), Model.Remove(n, typ));
    }
  }

  /** Every accepted change keeps the zone well formed and its SOA record untouched. */
  lemma EditKeeps(rules: Rules, zone: string, sets: seq<RRset>, e: Edit)
    requires ParserLaws(rules) && CanonicalZone(zone) == Some(zone) && WellFormed(rules, zone, sets)
    requires Edited(rules, zone, sets, e).Ok?
    ensures WellFormed(rules, zone, Edited(rules, zone, sets, e).value)
    ensures SameSoa(sets, Edited(rules, zone, sets, e).value)
  {
    hide Edited, WellFormed, SameSoa, CanonicalZone, ParserLaws;
    match e
    case Put(inp) => PutKeeps(rules, zone, sets, inp);
    case Change(name, typ, inp) => ChangeKeeps(rules, zone, sets, name, typ, inp);
    case Drop(name, typ) => DropKeeps(rules, zone, sets, name, typ);
  }

  /** The record sets after a run of changes; a refused change leaves them as they are. */
  ghost function RunOf(rules: Rules, zone: string, sets: seq<RRset>, es: seq<Edit>): seq<RRset>
    decreases |es|
  {
    if es == [] then sets
    else
      var next := Edited(rules, zone, sets, es[0]);
      RunOf(rules, zone, if next.Ok? then next.value else sets, es[1..])
  }

  /** Over every run of changes, accepted or refused, the zone stays well formed (one set per
  name and type, a CNAME alone and never at the apex, distinct canonical values, all in
  zone) and its SOA record is the one it started with. */
  lemma {:induction false} RunKeepsWellFormed(rules: Rules, zone: string, sets: seq<RRset>, es: seq<Edit>)
    requires ParserLaws(rules) && CanonicalZone(zone) == Some(zone) && WellFormed(rules, zone, sets)
    ensures WellFormed(rules, zone, RunOf(rules, zone, sets, es))
    ensures SameSoa(sets, RunOf(rules, zone, sets, es))
    decreases |es|
  {
    hide Edited, WellFormed, CanonicalZone, ParserLaws;
    if es != [] {
      var next := Edited(rules, zone, sets, es[0]);
      if next.Ok? { EditKeeps(rules, zone, sets, es[0]); }
      RunKeepsWellFormed(rules, zone, if next.Ok? then next.value else sets, es[1..]);
    }
  }

  /** Every zone of the server is well formed. */
  ghost predicate AllWellFormed(rules: Rules, server: ServerZones) {
    forall id :: id in server ==> WellFormed(rules, server[id].name, server[id].rrsets)
  }

  /** Whatever a change ends in, every zone of the server stays well formed. */
  lemma OutcomeKeeps(rules: Rules, z: Zone, e: Edit, before: ServerZones, clean: bool, err: Option<Error>,
                     after: ServerZones)
    requires Outcome(rules, z, e, before, clean, err, after)
    requires ParserLaws(rules) && Linked(z, before) && AllWellFormed(rules, before)
    ensures AllWellFormed(rules, after)
    ensures Linked(z, after)
    ensures forall id :: id in before ==> id in after && SameSoa(before[id].rrsets, after[id].rrsets)
  {
    hide Edited, WellFormed, CanonicalZone, ParserLaws, KeyError;
    if err.None? {
      EditKeeps(rules, z.name, before[z.pdnsId].rrsets, e);
    }
  }
}
