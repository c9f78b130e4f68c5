/** Validation of one record set against its zone (internal/validate/recordset.go) and the
whole-zone invariant it protects: section 3.6.2 of RFC 1034 (a CNAME is alone at its name)
and section 10.1 of RFC 2181 (one CNAME per name). */
module RecordSets {
  import opened Strings
  import opened Names
  import opened Wrappers
  import opened Model

  const MAX_COMMENT := 512

  /** The limits of the configuration and the rdata parser. `content(t, v)` is the canonical
  presentation form of value `v` of type `t`, or None when the parser refuses it. */
  datatype Rules = Rules(minTTL: int, maxTTL: int, maxValues: int, content: (RRType, string) -> Option<string>)

  /** What the parser is trusted for: its output parses to itself, and a canonical host name
  is its own NS and PTR value. */
  ghost predicate ParserLaws(rules: Rules) {
    && (forall t, v :: rules.content(t, v).Some? ==>
          rules.content(t, rules.content(t, v).value) == rules.content(t, v))
    && (forall h :: Hostname(h) == Some(h) ==> rules.content(NS, h) == Some(h) && rules.content(PTR, h) == Some(h))
  }

  datatype RecordSetInput = RecordSetInput(name: string, typ: RRType, ttl: int, values: seq<Record>, comment: string)

  predicate Control(c: char) { c as int < 0x20 || c as int == 0x7f }

  predicate HasControl(s: string) { exists c :: c in s && Control(c) }

  /** Other data at the name that `t` cannot live with. */
  ghost predicate Clash(existing: seq<RRset>, name: string, t: RRType) {
    exists e :: e in existing && EqualFold(e.name, name) && e.typ != t && (t.CNAME? || e.typ.CNAME?)
  }

  ghost predicate Parse(rules: Rules, t: RRType, vs: seq<Record>) {
    forall i :: 0 <= i < |vs| ==> rules.content(t, vs[i].content).Some?
  }

  ghost predicate DistinctForms(rules: Rules, t: RRType, vs: seq<Record>) {
    forall i, j :: 0 <= i < j < |vs| ==> rules.content(t, vs[i].content) != rules.content(t, vs[j].content)
  }

  /** The values in canonical form, each with its disabled flag. */
  ghost function CanonicalValues(rules: Rules, t: RRType, vs: seq<Record>): (rs: seq<Record>)
    requires Parse(rules, t, vs)
  {
    seq(|vs|, i requires 0 <= i < |vs| => Record(rules.content(t, vs[i].content).value, vs[i].disabled))
  }

  ghost function ParsedValues(rules: Rules, t: RRType, vs: seq<Record>): Option<seq<Record>> {
    if Parse(rules, t, vs) && DistinctForms(rules, t, vs) then Some(CanonicalValues(rules, t, vs)) else None
  }

  ghost predicate ShapeOK(rules: Rules, z: string, name: string, inp: RecordSetInput) {
    && rules.minTTL <= inp.ttl <= rules.maxTTL
    && 1 <= |inp.values| <= rules.maxValues
    && |inp.comment| <= MAX_COMMENT && !HasControl(inp.comment)
    && (inp.typ.CNAME? ==> name != z && |inp.values| == 1)
  }

  function CommentsOf(comment: string): seq<string> {
    var c := Trim(comment);
    if c == "" then [] else [c]
  }

  /** The REPLACE change a record set input stands for, or why it is refused. */
  ghost function RecordSetOf(rules: Rules, zone: string, inp: RecordSetInput, existing: seq<RRset>): Result<RRset> {
    var z := CanonicalZone(zone);
    if z.None? then Err(BadName)
    else if !Editable(inp.typ) then Err(BadRecord)
    else
      var name := RecordName(z.value, inp.name);
      if name.None? then Err(BadName)
      else if !ShapeOK(rules, z.value, name.value, inp) then Err(BadRecord)
      else if Clash(existing, name.value, inp.typ) then Err(BadRecord)
      else
        var values := ParsedValues(rules, inp.typ, inp.values);
        if values.None? then Err(BadRecord)
        else Ok(RRset(name.value, inp.typ, inp.ttl, values.value, CommentsOf(inp.comment)))
  }

  /** The loop over the zone's record sets. */
  method FindClash(existing: seq<RRset>, name: string, t: RRType) returns (clash: bool)
    ensures clash == Clash(existing, name, t)
  {
    var k := 0;
    while k < |existing|
      invariant 0 <= k <= |existing|
      invariant !Clash(existing[..k], name, t)
    {
      var e := existing[k];
      if EqualFold(e.name, name) && e.typ != t && (t.CNAME? || e.typ.CNAME?) {
        return true;
      }
      assert existing[..k + 1] == existing[..k] + [e];
      k := k + 1;
    }
    assert existing[..k] == existing;
    clash := false;
  }

  function ContentSet(rs: seq<Record>): set<string> {
    set r | r in rs :: r.content
  }

  lemma ContentMore(rs: seq<Record>, r: Record)
    ensures ContentSet(rs + [r]) == ContentSet(rs) + {r.content}
  {
    forall c | c in ContentSet(rs) ensures c in ContentSet(rs + [r]) {
      var x :| x in rs && x.content == c;
      assert x in rs + [r];
    }
    assert r in rs + [r];
  }

  lemma ContentIn(rs: seq<Record>, c: string) returns (k: nat)
    requires c in ContentSet(rs)
    ensures k < |rs| && rs[k].content == c
  {
    var x :| x in rs && x.content == c;
    k :| k < |rs| && rs[k] == x;
  }

  lemma ContentOut(rs: seq<Record>, c: string)
    requires c !in ContentSet(rs)
    ensures forall k :: 0 <= k < |rs| ==> rs[k].content != c
  {
    forall k | 0 <= k < |rs| ensures rs[k].content != c { assert rs[k] in rs; }
  }

  /** The first values in canonical form, pairwise different. */
  ghost predicate ParsedSoFar(rules: Rules, t: RRType, vs: seq<Record>, records: seq<Record>) {
    && |records| <= |vs|
    && (forall k :: 0 <= k < |records| ==>
          rules.content(t, vs[k].content) == Some(records[k].content) && records[k].disabled == vs[k].disabled)
    && (forall k, m :: 0 <= k < m < |records| ==> records[k].content != records[m].content)
  }

  lemma ParsedAll(rules: Rules, t: RRType, vs: seq<Record>, records: seq<Record>)
    requires ParsedSoFar(rules, t, vs, records) && |records| == |vs|
    ensures ParsedValues(rules, t, vs) == Some(records)
  {
    assert Parse(rules, t, vs);
    assert records == CanonicalValues(rules, t, vs);
  }

  lemma ParsedNone(rules: Rules, t: RRType, vs: seq<Record>, i: nat, k: nat)
    requires k <= i < |vs|
    requires rules.content(t, vs[i].content).None? ||
             (k < i && rules.content(t, vs[k].content) == rules.content(t, vs[i].content))
    ensures ParsedValues(rules, t, vs) == None
  {
  }

  lemma ParsedMore(rules: Rules, t: RRType, vs: seq<Record>, records: seq<Record>, c: string)
    requires ParsedSoFar(rules, t, vs, records) && |records| < |vs|
    requires rules.content(t, vs[|records|].content) == Some(c) &&
             forall k :: 0 <= k < |records| ==> records[k].content != c
    ensures ParsedSoFar(rules, t, vs, records + [Record(c, vs[|records|].disabled)])
  {
  }

  /** The loop over the submitted values. */
  method ParseValues(rules: Rules, t: RRType, vs: seq<Record>) returns (r: Option<seq<Record>>)
    ensures r == ParsedValues(rules, t, vs)
  {
    hide ContentSet, ParsedSoFar, ParsedValues;
    var seen: set<string> := {};
    var records: seq<Record> := [];
    NoContents();
    NoneParsed(rules, t, vs);
    var i := 0;
    while i < |vs|
      invariant 0 <= i <= |vs| && |records| == i
      invariant ParsedSoFar(rules, t, vs, records)
      invariant seen == ContentSet(records)
    {
      var c := rules.content(t, vs[i].content);
      if c.None? {
        ParsedNone(rules, t, vs, i, i);
        return None;
      }
      if c.value in seen {
        ghost var k := ContentIn(records, c.value);
        ParsedAt(rules, t, vs, records, k);
        ParsedNone(rules, t, vs, i, k);
        return None;
      }
      ContentOut(records, c.value);
      ContentMore(records, Record(c.value, vs[i].disabled));
      ParsedMore(rules, t, vs, records, c.value);
      seen := seen + {c.value};
      records := records + [Record(c.value, vs[i].disabled)];
      i := i + 1;
    }
    ParsedAll(rules, t, vs, records);
    r := Some(records);
  }

  lemma ParsedAt(rules: Rules, t: RRType, vs: seq<Record>, records: seq<Record>, k: nat)
    requires ParsedSoFar(rules, t, vs, records) && k < |records|
    ensures rules.content(t, vs[k].content) == Some(records[k].content)
  {
  }

  lemma NoneParsed(rules: Rules, t: RRType, vs: seq<Record>)
    ensures ParsedSoFar(rules, t, vs, [])
  {
  }

  lemma NoContents()
    ensures ContentSet([]) == {}
  {
  }

  method RecordSet(rules: Rules, zone: string, inp: RecordSetInput, existing: seq<RRset>) returns (r: Result<RRset>)
    ensures r == RecordSetOf(rules, zone, inp, existing)
  {
    var z := CanonicalZone(zone);
    if z.None? { return Err(BadName); }
    if !Editable(inp.typ) { return Err(BadRecord); }
    var name := RecordName(z.value, inp.name);
    if name.None? { return Err(BadName); }
    if inp.ttl < rules.minTTL || inp.ttl > rules.maxTTL { return Err(BadRecord); }
    if |inp.values| == 0 || |inp.values| > rules.maxValues { return Err(BadRecord); }
    if |inp.comment| > MAX_COMMENT || HasControl(inp.comment) { return Err(BadRecord); }
    if inp.typ.CNAME? {
      if name.value == z.value { return Err(BadRecord); }
      if |inp.values| > 1 { return Err(BadRecord); }
    }
    var clash := FindClash(existing, name.value, inp.typ);
    if clash { return Err(BadRecord); }
    var records := ParseValues(rules, inp.typ, inp.values);
    if records.None? { return Err(BadRecord); }
    r := Ok(RRset(name.value, inp.typ, inp.ttl, records.value, CommentsOf(inp.comment)));
  }

  // ----- the whole-zone invariant

  ghost predicate DistinctContents(rs: seq<Record>) {
    forall i, j :: 0 <= i < j < |rs| ==> rs[i].content != rs[j].content
  }

  ghost predicate CanonicalContents(rules: Rules, t: RRType, rs: seq<Record>) {
    forall i :: 0 <= i < |rs| ==> rules.content(t, rs[i].content) == Some(rs[i].content)
  }

  /** One record set on its own: in zone, non-empty, distinct canonical values, and a CNAME
  single and never at the apex. */
  ghost predicate SetOK(rules: Rules, zone: string, r: RRset) {
    && InZone(r.name, zone) && Lower(r.name) == r.name
    && r.records != [] && DistinctContents(r.records)
    && (Editable(r.typ) ==> CanonicalContents(rules, r.typ, r.records))
    && (r.typ.CNAME? ==> r.name != zone && |r.records| == 1)
  }

  ghost predicate CnameAlone(sets: seq<RRset>) {
    forall a, b :: a in sets && b in sets && a.typ.CNAME? && a.name == b.name ==> b.typ.CNAME?
  }

  ghost predicate SetsOK(rules: Rules, zone: string, sets: seq<RRset>) {
    forall r :: r in sets ==> SetOK(rules, zone, r)
  }

  /** The record sets of one server zone are well formed. */
  ghost predicate WellFormed(rules: Rules, zone: string, sets: seq<RRset>) {
    UniqueKeys(sets) && SetsOK(rules, zone, sets) && CnameAlone(sets)
  }

  lemma WellFormedLower(rules: Rules, zone: string, sets: seq<RRset>)
    requires WellFormed(rules, zone, sets)
    ensures LowerNames(sets)
  {
    forall r | r in sets ensures Lower(r.name) == r.name { assert SetOK(rules, zone, r); }
  }

  lemma ParsedValuesCanonical(rules: Rules, t: RRType, vs: seq<Record>)
    requires ParserLaws(rules) && ParsedValues(rules, t, vs).Some?
    ensures CanonicalContents(rules, t, ParsedValues(rules, t, vs).value)
    ensures DistinctContents(ParsedValues(rules, t, vs).value)
  {
    var rs := ParsedValues(rules, t, vs).value;
    forall i | 0 <= i < |rs|
      ensures rules.content(t, rs[i].content) == Some(rs[i].content)
    {
      assert rules.content(t, vs[i].content).Some?;
    }
  }

  /** An accepted record set is itself well formed and canonical. */
  lemma AcceptedSetOK(rules: Rules, zone: string, inp: RecordSetInput, existing: seq<RRset>)
    requires ParserLaws(rules) && CanonicalZone(zone) == Some(zone)
    requires RecordSetOf(rules, zone, inp, existing).Ok?
    ensures var rr := RecordSetOf(rules, zone, inp, existing).value;
            && SetOK(rules, zone, rr) && Editable(rr.typ) && RecordName(zone, rr.name) == Some(rr.name)
            && !Clash(existing, rr.name, rr.typ)
  {
    RecordNameSound(zone, inp.name);
    ParsedValuesCanonical(rules, inp.typ, inp.values);
  }

  lemma RemovedWellFormed(rules: Rules, zone: string, sets: seq<RRset>, name: string, typ: RRType)
    requires WellFormed(rules, zone, sets)
    ensures WellFormed(rules, zone, Without(sets, name, typ))
  {
    WithoutUnique(sets, name, typ);
  }

  /** Adding a set whose key is free and that clashes with nothing keeps the zone well formed. */
  lemma AddedWellFormed(rules: Rules, zone: string, sets: seq<RRset>, rr: RRset)
    requires WellFormed(rules, zone, sets) && SetOK(rules, zone, rr)
    requires forall r :: r in sets ==> !SameKey(r, rr.name, rr.typ)
    requires !Clash(sets, rr.name, rr.typ)
    ensures WellFormed(rules, zone, sets + [rr])
  {
    AppendUnique(sets, rr);
    forall a, b | a in sets + [rr] && b in sets + [rr] && a.typ.CNAME? && a.name == b.name
      ensures b.typ.CNAME?
    {
      assert a in sets ==> !(EqualFold(a.name, rr.name) && a.typ != rr.typ && (rr.typ.CNAME? || a.typ.CNAME?));
      assert b in sets ==> !(EqualFold(b.name, rr.name) && b.typ != rr.typ && (rr.typ.CNAME? || b.typ.CNAME?));
    }
  }

  lemma ClashMonotone(sets: seq<RRset>, fewer: seq<RRset>, name: string, t: RRType)
    requires forall r :: r in fewer ==> r in sets
    requires !Clash(sets, name, t)
    ensures !Clash(fewer, name, t)
  {
  }

  /** Replacing a validated record set keeps the zone well formed. */
  lemma ReplacedWellFormed(rules: Rules, zone: string, sets: seq<RRset>, inp: RecordSetInput)
    requires ParserLaws(rules) && CanonicalZone(zone) == Some(zone)
    requires WellFormed(rules, zone, sets) && RecordSetOf(rules, zone, inp, sets).Ok?
    ensures WellFormed(rules, zone, Patch(sets, Replace(RecordSetOf(rules, zone, inp, sets).value)))
  {
    AcceptedSetOK(rules, zone, inp, sets);
    MovedWellFormed(rules, zone, sets, RecordSetOf(rules, zone, inp, sets).value);
  }

  /** A rename (REPLACE new, DELETE old in one patch) validated against the other sets keeps
  the zone well formed. */
  lemma RenamedWellFormed(rules: Rules, zone: string, sets: seq<RRset>, inp: RecordSetInput,
                          oldName: string, oldType: RRType, rr: RRset)
    requires ParserLaws(rules) && CanonicalZone(zone) == Some(zone)
    requires WellFormed(rules, zone, sets)
    requires RecordSetOf(rules, zone, inp, Without(sets, oldName, oldType)) == Ok(rr)
    ensures SameKey(rr, oldName, oldType) ==> WellFormed(rules, zone, Patch(sets, Replace(rr)))
    ensures !SameKey(rr, oldName, oldType) ==>
              WellFormed(rules, zone, PatchAll(sets, [Replace(rr), Remove(oldName, oldType)]))
  {
    AcceptedSetOK(rules, zone, inp, Without(sets, oldName, oldType));
    RenamePatched(rules, zone, sets, oldName, oldType, rr);
  }

  lemma RenamePatched(rules: Rules, zone: string, sets: seq<RRset>, oldName: string, oldType: RRType, rr: RRset)
    requires WellFormed(rules, zone, sets) && SetOK(rules, zone, rr)
    requires !Clash(Without(sets, oldName, oldType), rr.name, rr.typ)
    ensures SameKey(rr, oldName, oldType) ==> WellFormed(rules, zone, Patch(sets, Replace(rr)))
    ensures !SameKey(rr, oldName, oldType) ==>
              WellFormed(rules, zone, PatchAll(sets, [Replace(rr), Remove(oldName, oldType)]))
  {
    var others := Without(sets, oldName, oldType);
    RemovedWellFormed(rules, zone, sets, oldName, oldType);
    if SameKey(rr, oldName, oldType) {
      AddedWellFormed(rules, zone, others, rr);
    } else {
      RenameOrder(sets, rr, oldName, oldType);
      MovedWellFormed(rules, zone, others, rr);
    }
  }

  lemma MovedWellFormed(rules: Rules, zone: string, others: seq<RRset>, rr: RRset)
    requires WellFormed(rules, zone, others) && SetOK(rules, zone, rr) && !Clash(others, rr.name, rr.typ)
    ensures WellFormed(rules, zone, Without(others, rr.name, rr.typ) + [rr])
  {
    var rest := Without(others, rr.name, rr.typ);
    RemovedWellFormed(rules, zone, others, rr.name, rr.typ);
    ClashMonotone(others, rest, rr.name, rr.typ);
    AddedWellFormed(rules, zone, rest, rr);
  }

  lemma {:induction false} WithoutCommutes(sets: seq<RRset>, n1: string, t1: RRType, n2: string, t2: RRType)
    ensures Without(Without(sets, n1, t1), n2, t2) == Without(Without(sets, n2, t2), n1, t1)
  {
    if sets != [] {
      WithoutCommutes(sets[1..], n1, t1, n2, t2);
      WithoutCons(sets[0], Without(sets[1..], n1, t1), n2, t2);
      WithoutCons(sets[0], Without(sets[1..], n2, t2), n1, t1);
    }
  }

  lemma {:induction false} WithoutTail(sets: seq<RRset>, rr: RRset, n: string, t: RRType)
    requires !SameKey(rr, n, t)
    ensures Without(sets + [rr], n, t) == Without(sets, n, t) + [rr]
  {
    hide Without;
    NothingFound("", SOA, n, t);
    if sets == [] {
      WithoutCons(rr, [], n, t);
      assert sets + [rr] == [rr] + [];
    } else {
      var h, rest := sets[0], sets[1..];
      assert sets == [h] + rest && sets + [rr] == [h] + (rest + [rr]);
      WithoutTail(rest, rr, n, t);
      WithoutCons(h, rest + [rr], n, t);
      WithoutCons(h, rest, n, t);
      assert [h] + (Without(rest, n, t) + [rr]) == ([h] + Without(rest, n, t)) + [rr];
    }
  }

  lemma PatchTwo(sets: seq<RRset>, a: Change, b: Change)
    ensures PatchAll(sets, [a, b]) == Patch(Patch(sets, a), b)
  {
    assert [a, b][1..] == [b] && [b][1..] == [];
    assert PatchAll(Patch(sets, a), [b]) == PatchAll(Patch(Patch(sets, a), b), []);
  }

  lemma RenameOrder(sets: seq<RRset>, rr: RRset, oldName: string, oldType: RRType)
    requires !SameKey(rr, oldName, oldType) && rr.records != []
    ensures PatchAll(sets, [Replace(rr), Remove(oldName, oldType)]) ==
            Without(Without(sets, oldName, oldType), rr.name, rr.typ) + [rr]
  {
    PatchTwo(sets, Replace(rr), Remove(oldName, oldType));
    WithoutTail(Without(sets, rr.name, rr.typ), rr, oldName, oldType);
    WithoutCommutes(sets, rr.name, rr.typ, oldName, oldType);
  }
}
