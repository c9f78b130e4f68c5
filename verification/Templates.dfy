/** Expanding a zone template into the initial record sets of a new zone
(internal/templates/expand.go). */
module Templates {
  import opened Strings
  import opened Names
  import opened Wrappers
  import opened Model
  import opened RecordSets

  const PLACEHOLDER := "[ZONE]"
  const MAX_PRIORITY := 65535
  const MAX_TEMPLATE_RECORDS := 200

  /** Replaces every placeholder, left to right. */
  function Substitute(s: string, bare: string): string {
    if s == "" then ""
    else if HasPrefix(s, PLACEHOLDER) then bare + Substitute(s[|PLACEHOLDER|..], bare)
    else [s[0]] + Substitute(s[1..], bare)
  }

  /** The number of fields separated by white space. */
  function FieldCount(s: string): nat {
    if s == "" then 0
    else if IsSpace(s[0]) then FieldCount(s[1..])
    else if |s| == 1 || IsSpace(s[1]) then 1 + FieldCount(s[1..])
    else FieldCount(s[1..])
  }

  function PriorityFields(t: RRType): nat {
    if t.MX? then 2 else if t.SRV? then 4 else 0
  }

  /** The content with its MX or SRV priority in front, or None when the priority is out of
  range, given twice or given to another type. */
  function WithPriority(r: TemplateRecord, content: string): Option<string> {
    var full := PriorityFields(r.typ);
    if r.priority < 0 || r.priority > MAX_PRIORITY then None
    else if full == 0 then (if r.priority != 0 then None else Some(content))
    else if FieldCount(content) == full - 1 then Some(Itoa(r.priority) + " " + content)
    else if FieldCount(content) == full && r.priority != 0 then None
    else Some(content)
  }

  /** One template record as a record set input of its own. */
  function Normal(z: string, r: TemplateRecord): Option<RecordSetInput> {
    var bare := TrimSuffix(z, ".");
    var name := Trim(Substitute(r.name, bare));
    var content := WithPriority(r, Trim(Substitute(r.content, bare)));
    if content.None? then None
    else Some(RecordSetInput(if name == "" then "@" else name, r.typ, r.ttl, [Record(content.value, false)], ""))
  }

  /** The record set of one template record alone, when it is valid. */
  ghost function Single(rules: Rules, z: string, r: TemplateRecord): Option<RRset> {
    var n := Normal(z, r);
    if n.None? then None
    else
      var rr := RecordSetOf(rules, z, n.value, []);
      if rr.Ok? then Some(rr.value) else None
  }

  function TypeText(t: RRType): string {
    match t
    case SOA => "SOA" case A => "A" case AAAA => "AAAA" case CNAME => "CNAME" case MX => "MX" case NS => "NS"
    case PTR => "PTR" case SRV => "SRV" case TXT => "TXT" case CAA => "CAA" case DS => "DS" case DNSKEY => "DNSKEY"
    case TLSA => "TLSA" case SSHFP => "SSHFP" case SPF => "SPF" case NAPTR => "NAPTR" case OtherType(tag) => tag
  }

  /** The grouping and sorting key of a record set. */
  function KeyOf(name: string, t: RRType): string { name + " " + TypeText(t) }

  lemma TypeTextInjective(a: RRType, b: RRType)
    requires Editable(a) && Editable(b) && TypeText(a) == TypeText(b)
    ensures a == b
  {
    var s, t := TypeText(a), TypeText(b);
    assert |s| == |t|;
    assert |s| >= 1 ==> s[0] == t[0];
    assert |s| >= 2 ==> s[1] == t[1];
    assert |s| >= 3 ==> s[2] == t[2];
  }

  /** Equal keys are equal names and types: a canonical name holds no space. */
  lemma KeyInjective(n1: string, t1: RRType, n2: string, t2: RRType)
    requires Editable(t1) && Editable(t2) && ' ' !in n1 && ' ' !in n2
    requires KeyOf(n1, t1) == KeyOf(n2, t2)
    ensures n1 == n2 && t1 == t2
  {
    IndexOfPrefix(n1, ' ', TypeText(t1));
    IndexOfPrefix(n2, ' ', TypeText(t2));
    assert KeyOf(n1, t1)[..|n1|] == n1 && KeyOf(n2, t2)[..|n2|] == n2;
    assert KeyOf(n1, t1)[|n1| + 1..] == TypeText(t1) && KeyOf(n2, t2)[|n2| + 1..] == TypeText(t2);
    TypeTextInjective(t1, t2);
  }

  lemma CanonicalHasNoSpace(fq: string)
    requires CanonicalText(fq)
    ensures ' ' !in fq
  {
    assert !Printable(' ');
  }

  // ----- grouping

  datatype Group = Group(first: nat, name: string, typ: RRType, ttl: int, values: seq<string>)

  function InputOf(g: Group): RecordSetInput {
    RecordSetInput(g.name, g.typ, g.ttl, seq(|g.values|, i requires 0 <= i < |g.values| => Record(g.values[i], false)),
                   "")
  }

  /** One template record after validation: its record set's name and type, its TTL, its content. */
  datatype Item = Item(name: string, typ: RRType, ttl: int, content: string)

  function ItemKey(i: Item): string { KeyOf(i.name, i.typ) }

  /** The contents of the items with key k, in order. */
  ghost function ValuesFor(items: seq<Item>, k: string): seq<string> {
    if items == [] then []
    else
      var n := |items| - 1;
      ValuesFor(items[..n], k) + if ItemKey(items[n]) == k then [items[n].content] else []
  }

  ghost predicate IsFirst(items: seq<Item>, k: string, f: nat) {
    f < |items| && ItemKey(items[f]) == k && forall j :: 0 <= j < f ==> ItemKey(items[j]) != k
  }

  ghost predicate GroupOK(items: seq<Item>, k: string, g: Group) {
    && IsFirst(items, k, g.first)
    && g.name == items[g.first].name && g.typ == items[g.first].typ && g.ttl == items[g.first].ttl
    && g.values == ValuesFor(items, k)
  }

  ghost predicate Grouped(items: seq<Item>, groups: map<string, Group>, order: seq<string>) {
    && (forall k :: k in groups <==> k in order)
    && (forall j :: 0 <= j < |items| ==> ItemKey(items[j]) in groups)
    && (forall k :: k in groups ==> GroupOK(items, k, groups[k]))
    && Distinct(order)
  }

  /** The groups after one more item: appended to its group, or the first of a new one. */
  function AddItem(groups: map<string, Group>, i: nat, it: Item): map<string, Group> {
    var k := ItemKey(it);
    var g := if k in groups then groups[k] else Group(i, it.name, it.typ, it.ttl, []);
    groups[k := g.(values := g.values + [it.content])]
  }

  lemma ValuesForNone(items: seq<Item>, k: string)
    requires forall j :: 0 <= j < |items| ==> ItemKey(items[j]) != k
    ensures ValuesFor(items, k) == []
  {
  }

  lemma GroupStep(items: seq<Item>, it: Item, k: string, g: Group)
    requires GroupOK(items, k, g)
    ensures GroupOK(items + [it], k, if ItemKey(it) == k then g.(values := g.values + [it.content]) else g)
  {
    hide ItemKey;
    var more := items + [it];
    assert more[..|items|] == items;
  }

  lemma GroupStart(items: seq<Item>, it: Item)
    requires forall j :: 0 <= j < |items| ==> ItemKey(items[j]) != ItemKey(it)
    ensures GroupOK(items + [it], ItemKey(it), Group(|items|, it.name, it.typ, it.ttl, [it.content]))
  {
    hide ItemKey;
    var more := items + [it];
    assert more[..|items|] == items;
    ValuesForNone(items, ItemKey(it));
  }

  lemma GroupedStep(items: seq<Item>, groups: map<string, Group>, order: seq<string>, it: Item)
    requires Grouped(items, groups, order)
    ensures var k := ItemKey(it);
            Grouped(items + [it], AddItem(groups, |items|, it), if k in groups then order else order + [k])
  {
    hide ItemKey, GroupOK;
    var k0 := ItemKey(it);
    var next := AddItem(groups, |items|, it);
    forall k | k in next
      ensures GroupOK(items + [it], k, next[k])
    {
      if k in groups {
        GroupStep(items, it, k, groups[k]);
      } else {
        GroupStart(items, it);
        assert next[k].values == [it.content];
      }
    }
  }

  // ----- counting

  ghost function Total(sets: seq<RRset>): nat {
    if sets == [] then 0 else Total(sets[..|sets| - 1]) + |sets[|sets| - 1].records|
  }

  ghost function SumFor(order: seq<string>, items: seq<Item>): nat {
    if order == [] then 0
    else SumFor(order[..|order| - 1], items) + |ValuesFor(items, order[|order| - 1])|
  }

  lemma {:induction false} SumForStep(order: seq<string>, items: seq<Item>, it: Item)
    requires Distinct(order)
    ensures SumFor(order, items + [it]) == SumFor(order, items) + if ItemKey(it) in order then 1 else 0
  {
    assert (items + [it])[..|items|] == items;
    if order != [] {
      var n := |order| - 1;
      SumForStep(order[..n], items, it);
      assert order == order[..n] + [order[n]];
    }
  }

  /** Every item falls into exactly one group. */
  lemma {:induction false} SumForAll(order: seq<string>, items: seq<Item>)
    requires Distinct(order)
    requires forall j :: 0 <= j < |items| ==> ItemKey(items[j]) in order
    ensures SumFor(order, items) == |items|
    decreases |items|
  {
    if items == [] {
      SumForEmpty(order);
    } else {
      var n := |items| - 1;
      SumForAll(order, items[..n]);
      SumForStep(order, items[..n], items[n]);
      assert items == items[..n] + [items[n]];
    }
  }

  lemma SumForEmpty(order: seq<string>)
    ensures SumFor(order, []) == 0
  {
  }

  // ----- the expansion

  /** The record's item, once it has been validated alone. */
  ghost function ItemOf(rules: Rules, z: string, r: TemplateRecord): Item
    requires Single(rules, z, r).Some?
  {
    var rr := Single(rules, z, r).value;
    Item(rr.name, rr.typ, r.ttl, Normal(z, r).value.values[0].content)
  }

  ghost predicate AllSingle(rules: Rules, z: string, recs: seq<TemplateRecord>) {
    forall j :: 0 <= j < |recs| ==> Single(rules, z, recs[j]).Some?
  }

  ghost function ItemsOf(rules: Rules, z: string, recs: seq<TemplateRecord>): seq<Item>
    requires AllSingle(rules, z, recs)
  {
    seq(|recs|, j requires 0 <= j < |recs| => ItemOf(rules, z, recs[j]))
  }

  /** The headers of the other groups, which a group is checked against. */
  function Headers(order: seq<string>, groups: map<string, Group>, skip: string): (hs: seq<RRset>)
    requires forall k :: k in order ==> k in groups
    ensures forall h :: h in hs ==> exists k :: k in order && k != skip && SameKey(h, groups[k].name, groups[k].typ)
    ensures forall k :: k in order && k != skip ==> RRset(groups[k].name, groups[k].typ, 0, [], []) in hs
  {
    if order == [] then []
    else
      var rest := Headers(order[..|order| - 1], groups, skip);
      var k := order[|order| - 1];
      if k == skip then rest else rest + [RRset(groups[k].name, groups[k].typ, 0, [], [])]
  }

  /** The record set of one group, when it is valid beside the others. */
  ghost predicate GroupSet(rules: Rules, z: string, groups: map<string, Group>, order: seq<string>, k: string,
                           rr: RRset)
    requires k in groups && forall x :: x in order ==> x in groups
  {
    && RecordSetOf(rules, z, InputOf(groups[k]), Headers(order, groups, k)).Ok?
    && rr == RecordSetOf(rules, z, InputOf(groups[k]), Headers(order, groups, k)).value.(comments := [])
  }

  ghost predicate GroupFits(rules: Rules, z: string, groups: map<string, Group>, order: seq<string>, k: string)
    requires k in groups && forall x :: x in order ==> x in groups
  {
    RecordSetOf(rules, z, InputOf(groups[k]), Headers(order, groups, k)).Ok?
  }

  ghost predicate GroupSets(rules: Rules, z: string, groups: map<string, Group>, order: seq<string>, out: seq<RRset>)
    requires forall x :: x in order ==> x in groups
  {
    |out| <= |order| && forall i :: 0 <= i < |out| ==> GroupSet(rules, z, groups, order, order[i], out[i])
  }

  /** The first loop: validate each record alone and collect the groups. */
  method GroupRecords(rules: Rules, z: string, recs: seq<TemplateRecord>)
    returns (r: Result<(map<string, Group>, seq<string>)>)
    ensures r.Ok? <==> AllSingle(rules, z, recs)
    ensures r.Ok? ==> Grouped(ItemsOf(rules, z, recs), r.value.0, r.value.1)
  {
    hide RecordSetOf, Normal, Grouped, Single;
    var groups: map<string, Group> := map[];
    var order: seq<string> := [];
    ghost var items: seq<Item> := [];
    GroupedEmpty();
    var i := 0;
    while i < |recs|
      invariant 0 <= i <= |recs|
      invariant AllSingle(rules, z, recs[..i]) && items == ItemsOf(rules, z, recs[..i])
      invariant Grouped(items, groups, order)
    {
      var it := ValidateOne(rules, z, recs[i]);
      if it.Err? {
        return Err(it.error);
      }
      var key := ItemKey(it.value);
      GroupedStep(items, groups, order, it.value);
      if key !in groups {
        order := order + [key];
      }
      groups := AddItem(groups, i, it.value);
      assert recs[..i + 1] == recs[..i] + [recs[i]];
      items := items + [it.value];
      i := i + 1;
    }
    assert recs[..i] == recs;
    r := Ok((groups, order));
  }

  lemma GroupedEmpty()
    ensures Grouped([], map[], [])
  {
  }

  method ValidateOne(rules: Rules, z: string, r: TemplateRecord) returns (it: Result<Item>)
    ensures it.Ok? <==> Single(rules, z, r).Some?
    ensures it.Ok? ==> it.value == ItemOf(rules, z, r)
  {
    hide RecordSetOf, WithPriority, Substitute;
    var n := Normal(z, r);
    if n.None? { return Err(BadRecord); }
    var rr := RecordSet(rules, z, n.value, []);
    if rr.Err? { return Err(rr.error); }
    it := Ok(Item(rr.value.name, rr.value.typ, r.ttl, n.value.values[0].content));
  }

  /** The second loop: validate each group against the headers of the others. */
  method BuildSets(rules: Rules, z: string, groups: map<string, Group>, order: seq<string>)
    returns (r: Result<seq<RRset>>)
    requires forall k :: k in order ==> k in groups
    ensures r.Ok? ==> |r.value| == |order| && GroupSets(rules, z, groups, order, r.value)
    ensures r.Err? ==> exists k :: k in order && !GroupFits(rules, z, groups, order, k)
  {
    hide GroupSet, GroupFits;
    var out: seq<RRset> := [];
    var i := 0;
    while i < |order|
      invariant 0 <= i <= |order| && |out| == i
      invariant GroupSets(rules, z, groups, order, out)
    {
      var rr := BuildSet(rules, z, groups, order, order[i]);
      if rr.Err? { return Err(rr.error); }
      out := out + [rr.value];
      i := i + 1;
    }
    r := Ok(out);
  }

  method BuildSet(rules: Rules, z: string, groups: map<string, Group>, order: seq<string>, k: string)
    returns (r: Result<RRset>)
    requires k in groups && forall x :: x in order ==> x in groups
    ensures r.Ok? ==> GroupSet(rules, z, groups, order, k, r.value)
    ensures r.Err? ==> !GroupFits(rules, z, groups, order, k)
  {
    hide RecordSetOf, Headers, InputOf;
    r := RecordSet(rules, z, InputOf(groups[k]), Headers(order, groups, k));
    if r.Ok? { r := Ok(r.value.(comments := [])); }
  }

  // ----- what an accepted template expands to

  ghost predicate FromRecords(rules: Rules, items: seq<Item>, rr: RRset, f: nat) {
    && IsFirst(items, KeyOf(rr.name, rr.typ), f)
    && rr.name == items[f].name && rr.typ == items[f].typ && rr.ttl == items[f].ttl
    && rr.comments == []
    && |rr.records| == |ValuesFor(items, KeyOf(rr.name, rr.typ))|
    && forall n :: 0 <= n < |rr.records| ==>
         rules.content(rr.typ, ValuesFor(items, KeyOf(rr.name, rr.typ))[n]) == Some(rr.records[n].content) &&
         !rr.records[n].disabled
  }

  ghost predicate Sourced(rules: Rules, items: seq<Item>, rr: RRset) {
    exists f :: FromRecords(rules, items, rr, f)
  }

  ghost predicate KeyOrder(out: seq<RRset>) {
    forall i, j :: 0 <= i < j < |out| ==> LexLess(KeyOf(out[i].name, out[i].typ), KeyOf(out[j].name, out[j].typ))
  }

  /** The output against the template's records: one well-formed zone's worth of sets in key
  order, each made of exactly the records of its key, in template order, with the first
  one's TTL, and nothing lost. */
  ghost predicate Expansion(rules: Rules, z: string, recs: seq<TemplateRecord>, out: seq<RRset>) {
    && AllSingle(rules, z, recs)
    && var items := ItemsOf(rules, z, recs);
       && WellFormed(rules, z, out) && KeyOrder(out)
       && (forall r :: r in out ==> Editable(r.typ))
       && Total(out) == |recs|
       && (forall i :: 0 <= i < |out| ==> Sourced(rules, items, out[i]))
       && (forall j :: 0 <= j < |items| ==> HasSet(out, items[j].name, items[j].typ))
  }

  ghost predicate HasSet(out: seq<RRset>, name: string, t: RRType) {
    exists i :: 0 <= i < |out| && SameKey(out[i], name, t)
  }

  lemma ItemsCanonical(rules: Rules, z: string, recs: seq<TemplateRecord>)
    requires ParserLaws(rules) && CanonicalZone(z) == Some(z) && AllSingle(rules, z, recs)
    ensures forall j :: 0 <= j < |recs| ==>
              var it := ItemsOf(rules, z, recs)[j];
              Editable(it.typ) && RecordName(z, it.name) == Some(it.name) && ' ' !in it.name
  {
    hide RecordSetOf, Normal, CanonicalZone, RecordName, ParserLaws, SetOK;
    forall j | 0 <= j < |recs|
      ensures var it := ItemsOf(rules, z, recs)[j];
              Editable(it.typ) && RecordName(z, it.name) == Some(it.name) && ' ' !in it.name
    {
      assert Single(rules, z, recs[j]).Some?;
      var n := Normal(z, recs[j]).value;
      AcceptedSetOK(rules, z, n, []);
      var rr := RecordSetOf(rules, z, n, []).value;
      RecordNameSound(z, rr.name);
      CanonicalHasNoSpace(rr.name);
    }
  }

  /** What is known of the set built from one group. */
  lemma BuiltSet(rules: Rules, z: string, items: seq<Item>, groups: map<string, Group>, order: seq<string>, k: string,
                 rr: RRset)
    requires ParserLaws(rules) && CanonicalZone(z) == Some(z)
    requires k in groups && (forall x :: x in order ==> x in groups) && GroupOK(items, k, groups[k])
    requires RecordName(z, groups[k].name) == Some(groups[k].name)
    requires GroupSet(rules, z, groups, order, k, rr)
    ensures Built(rules, z, items, groups, order, k, rr)
  {
    hide CanonicalZone, RecordName, ParserLaws, Headers, Clash, KeyOf, ShapeOK;
    AcceptedSetOK(rules, z, InputOf(groups[k]), Headers(order, groups, k));
    ParsedGroup(rules, groups[k]);
  }

  lemma ParsedGroup(rules: Rules, g: Group)
    ensures ParsedValues(rules, g.typ, InputOf(g).values).Some? ==>
              var rs := ParsedValues(rules, g.typ, InputOf(g).values).value;
              |rs| == |g.values| && forall n :: 0 <= n < |rs| ==>
                rules.content(g.typ, g.values[n]) == Some(rs[n].content) && !rs[n].disabled
  {
    if ParsedValues(rules, g.typ, InputOf(g).values).Some? {
      forall n | 0 <= n < |g.values|
        ensures rules.content(g.typ, g.values[n]).Some?
      {
        assert InputOf(g).values[n] == Record(g.values[n], false);
      }
    }
  }

  lemma {:induction false} TotalIsSum(items: seq<Item>, order: seq<string>, out: seq<RRset>)
    requires |out| == |order|
    requires forall i :: 0 <= i < |out| ==> |out[i].records| == |ValuesFor(items, order[i])|
    ensures Total(out) == SumFor(order, items)
    decreases |out|
  {
    if out != [] {
      TotalIsSum(items, order[..|out| - 1], out[..|out| - 1]);
    }
  }

  /** The facts about every built set, in one place. */
  ghost predicate AllBuilt(rules: Rules, z: string, items: seq<Item>, groups: map<string, Group>, order: seq<string>,
                           out: seq<RRset>)
    requires forall x :: x in order ==> x in groups
  {
    && |out| == |order|
    && forall i :: 0 <= i < |out| ==> Built(rules, z, items, groups, order, order[i], out[i])
  }

  ghost predicate Built(rules: Rules, z: string, items: seq<Item>, groups: map<string, Group>, order: seq<string>,
                        k: string, rr: RRset)
    requires k in groups && forall x :: x in order ==> x in groups
  {
    && SetOK(rules, z, rr) && KeyOf(rr.name, rr.typ) == k
    && SameKey(rr, groups[k].name, groups[k].typ)
    && FromRecords(rules, items, rr, groups[k].first)
    && !Clash(Headers(order, groups, k), rr.name, rr.typ)
  }

  lemma BuiltWellFormed(rules: Rules, z: string, items: seq<Item>, groups: map<string, Group>, order: seq<string>,
                        out: seq<RRset>)
    requires (forall x :: x in order ==> x in groups) && Distinct(order)
    requires AllBuilt(rules, z, items, groups, order, out)
    ensures WellFormed(rules, z, out)
  {
    hide SetOK, FromRecords, KeyOf, InZone;
    forall i, j | 0 <= i < j < |out|
      ensures !SameKey(out[i], out[j].name, out[j].typ)
    {
      assert order[i] != order[j];
    }
    forall a, b | a in out && b in out && a.typ.CNAME? && a.name == b.name
      ensures b.typ.CNAME?
    {
      var i :| 0 <= i < |out| && out[i] == a;
      var j :| 0 <= j < |out| && out[j] == b;
      if i != j {
        NoSharedName(rules, z, items, groups, order, out, i, j);
      }
    }
  }

  lemma NoSharedName(rules: Rules, z: string, items: seq<Item>, groups: map<string, Group>, order: seq<string>,
                     out: seq<RRset>, i: nat, j: nat)
    requires (forall x :: x in order ==> x in groups) && Distinct(order)
    requires AllBuilt(rules, z, items, groups, order, out)
    requires i < |out| && j < |out| && i != j
    ensures !(out[i].typ.CNAME? && out[i].name == out[j].name && !out[j].typ.CNAME?)
  {
    hide SetOK, FromRecords, KeyOf, InZone;
    assert order[j] != order[i];
    var h := RRset(groups[order[j]].name, groups[order[j]].typ, 0, [], []);
    assert h in Headers(order, groups, order[i]);
    assert h.name == out[i].name ==> EqualFold(h.name, out[i].name);
  }

  ghost predicate PlainKeys(items: seq<Item>) {
    forall j :: 0 <= j < |items| ==> Editable(items[j].typ) && ' ' !in items[j].name
  }

  lemma BuiltFromRecords(rules: Rules, z: string, items: seq<Item>, groups: map<string, Group>, order: seq<string>,
                         out: seq<RRset>)
    requires Grouped(items, groups, order) && AllBuilt(rules, z, items, groups, order, out) && PlainKeys(items)
    ensures forall j :: 0 <= j < |items| ==> HasSet(out, items[j].name, items[j].typ)
  {
    hide SetOK, Clash, Headers, KeyOf, ValuesFor;
    forall j | 0 <= j < |items|
      ensures HasSet(out, items[j].name, items[j].typ)
    {
      var k := ItemKey(items[j]);
      assert k in order;
      var i :| 0 <= i < |order| && order[i] == k;
      var f := groups[k].first;
      assert FromRecords(rules, items, out[i], f) && GroupOK(items, k, groups[k]);
      KeyInjective(items[j].name, items[j].typ, items[f].name, items[f].typ);
    }
  }

  lemma BuiltExpansion(rules: Rules, z: string, recs: seq<TemplateRecord>, groups: map<string, Group>,
                       order: seq<string>, out: seq<RRset>)
    requires AllSingle(rules, z, recs) && PlainKeys(ItemsOf(rules, z, recs))
    requires Grouped(ItemsOf(rules, z, recs), groups, order)
    requires StrictlySorted(order) && AllBuilt(rules, z, ItemsOf(rules, z, recs), groups, order, out)
    ensures Expansion(rules, z, recs, out)
  {
    hide SetOK, KeyOf, AllSingle, WellFormed, Clash, ValuesFor, GroupOK, Headers, ItemOf, HasSet, LexLess;
    var items := ItemsOf(rules, z, recs);
    assert |items| == |recs|;
    forall i, j | 0 <= i < j < |out|
      ensures LexLess(KeyOf(out[i].name, out[i].typ), KeyOf(out[j].name, out[j].typ))
    {
      assert LexLess(order[i], order[j]);
    }
    BuiltWellFormed(rules, z, items, groups, order, out);
    SumForAll(order, items);
    TotalIsSum(items, order, out);
    BuiltFromRecords(rules, z, items, groups, order, out);
    forall i | 0 <= i < |out|
      ensures Sourced(rules, items, out[i]) && Editable(out[i].typ)
    {
      assert FromRecords(rules, items, out[i], groups[order[i]].first);
    }
  }

  // ----- when a template is accepted

  /** The record set input of all records with item j's key. */
  ghost function Merged(items: seq<Item>, f: nat): RecordSetInput
    requires f < |items|
  {
    InputOf(Group(f, items[f].name, items[f].typ, items[f].ttl, ValuesFor(items, ItemKey(items[f]))))
  }

  /** Every key's records form a valid set, and no CNAME shares its name with another type. */
  ghost predicate Mergeable(rules: Rules, z: string, items: seq<Item>) {
    && (forall f :: 0 <= f < |items| && IsFirst(items, ItemKey(items[f]), f) ==>
          RecordSetOf(rules, z, Merged(items, f), []).Ok?)
    && (forall i, j ::
          0 <= i < |items| && 0 <= j < |items| && EqualFold(items[i].name, items[j].name) && items[i].typ.CNAME? ==>
          items[j].typ.CNAME?)
  }

  lemma ExistingOnlyClashes(rules: Rules, z: string, inp: RecordSetInput, existing: seq<RRset>)
    ensures RecordSetOf(rules, z, inp, existing).Ok? <==>
            RecordSetOf(rules, z, inp, []).Ok? && !Clash(existing, RecordSetOf(rules, z, inp, []).value.name, inp.typ)
  {
    hide CanonicalZone, RecordName, ShapeOK, ParsedValues;
  }

  ghost predicate Shares(items: seq<Item>, name: string, t: RRType) {
    exists j :: 0 <= j < |items| && EqualFold(items[j].name, name) && items[j].typ != t &&
      (t.CNAME? || items[j].typ.CNAME?)
  }

  /** The headers of the other groups clash exactly when some record does. */
  lemma HeadersClash(items: seq<Item>, groups: map<string, Group>, order: seq<string>, k: string)
    requires Grouped(items, groups, order) && PlainKeys(items) && k in groups
    ensures Clash(Headers(order, groups, k), groups[k].name, groups[k].typ) <==>
              Shares(items, groups[k].name, groups[k].typ)
  {
    hide KeyOf, ValuesFor, EqualFold;
    var g := groups[k];
    var hs := Headers(order, groups, k);
    assert GroupOK(items, k, g);
    if Shares(items, g.name, g.typ) {
      var j :| 0 <= j < |items| && EqualFold(items[j].name, g.name) && items[j].typ != g.typ &&
        (g.typ.CNAME? || items[j].typ.CNAME?);
      var k' := ItemKey(items[j]);
      assert GroupOK(items, k', groups[k']);
      var f := groups[k'].first;
      KeyInjective(items[j].name, items[j].typ, items[f].name, items[f].typ);
      assert RRset(groups[k'].name, groups[k'].typ, 0, [], []) in hs;
    }
    if Clash(hs, g.name, g.typ) {
      var h :| h in hs && EqualFold(h.name, g.name) && h.typ != g.typ && (g.typ.CNAME? || h.typ.CNAME?);
      var k' :| k' in order && k' != k && SameKey(h, groups[k'].name, groups[k'].typ);
      assert GroupOK(items, k', groups[k']);
    }
  }

  lemma GroupAccepted(rules: Rules, z: string, items: seq<Item>, groups: map<string, Group>, order: seq<string>,
                      k: string)
    requires Grouped(items, groups, order) && PlainKeys(items) && CanonicalZone(z) == Some(z) && k in groups
    requires RecordName(z, groups[k].name) == Some(groups[k].name)
    ensures groups[k].first < |items|
    ensures GroupFits(rules, z, groups, order, k) <==>
            RecordSetOf(rules, z, Merged(items, groups[k].first), []).Ok? &&
            !Shares(items, groups[k].name, groups[k].typ)
  {
    hide CanonicalZone, RecordName, ShapeOK, ParsedValues, KeyOf, Headers, ValuesFor, Clash, Shares;
    assert GroupOK(items, k, groups[k]);
    HeadersClash(items, groups, order, k);
    ExistingOnlyClashes(rules, z, InputOf(groups[k]), Headers(order, groups, k));
    assert InputOf(groups[k]) == Merged(items, groups[k].first);
  }

  /** The groups are all accepted exactly when the records merge. */
  lemma GroupsAccepted(rules: Rules, z: string, items: seq<Item>, groups: map<string, Group>, order: seq<string>)
    requires Grouped(items, groups, order) && PlainKeys(items) && CanonicalZone(z) == Some(z)
    requires forall j :: 0 <= j < |items| ==> RecordName(z, items[j].name) == Some(items[j].name)
    ensures Mergeable(rules, z, items) <==> forall k :: k in order ==> GroupFits(rules, z, groups, order, k)
  {
    hide CanonicalZone, RecordName, RecordSetOf, KeyOf, Headers, ValuesFor, Merged, InputOf, EqualFold, GroupFits;
    forall k | k in order
      ensures groups[k].first < |items|
      ensures GroupFits(rules, z, groups, order, k) <==>
              RecordSetOf(rules, z, Merged(items, groups[k].first), []).Ok? &&
              !Shares(items, groups[k].name, groups[k].typ)
    {
      assert GroupOK(items, k, groups[k]);
      GroupAccepted(rules, z, items, groups, order, k);
    }
    FirstsAreGroups(items, groups, order);
    SharesByGroup(items, groups, order);
  }

  lemma FirstsAreGroups(items: seq<Item>, groups: map<string, Group>, order: seq<string>)
    requires Grouped(items, groups, order)
    ensures forall f :: 0 <= f < |items| && IsFirst(items, ItemKey(items[f]), f) ==>
              ItemKey(items[f]) in order && groups[ItemKey(items[f])].first == f
    ensures forall k :: k in order ==> IsFirst(items, k, groups[k].first)
  {
    hide ItemKey, ValuesFor;
    forall f | 0 <= f < |items| && IsFirst(items, ItemKey(items[f]), f)
      ensures ItemKey(items[f]) in order && groups[ItemKey(items[f])].first == f
    {
      assert GroupOK(items, ItemKey(items[f]), groups[ItemKey(items[f])]);
    }
    forall k | k in order ensures IsFirst(items, k, groups[k].first) { assert GroupOK(items, k, groups[k]); }
  }

  /** No CNAME shares its name exactly when no group does. */
  lemma SharesByGroup(items: seq<Item>, groups: map<string, Group>, order: seq<string>)
    requires Grouped(items, groups, order) && PlainKeys(items)
    ensures (forall k :: k in order ==> !Shares(items, groups[k].name, groups[k].typ)) <==>
            (forall i, j ::
               0 <= i < |items| && 0 <= j < |items| && EqualFold(items[i].name, items[j].name) &&
               items[i].typ.CNAME? ==>
               items[j].typ.CNAME?)
  {
    hide KeyOf, ValuesFor;
    forall j | 0 <= j < |items|
      ensures ItemKey(items[j]) in order && SameItem(items[j], groups[ItemKey(items[j])])
    {
      var g := groups[ItemKey(items[j])];
      assert GroupOK(items, ItemKey(items[j]), g);
      KeyInjective(items[j].name, items[j].typ, items[g.first].name, items[g.first].typ);
    }
    forall k | k in order
      ensures groups[k].first < |items| && SameItem(items[groups[k].first], groups[k])
    {
      assert GroupOK(items, k, groups[k]);
    }
  }

  predicate SameItem(it: Item, g: Group) { it.name == g.name && it.typ == g.typ }

  /** Expands a template for a zone. `isSuffix` is the Public Suffix List. */
  method ExpandRecords(rules: Rules, isSuffix: string -> bool, zone: string, recs: seq<TemplateRecord>)
    returns (r: Result<seq<RRset>>)
    ensures r.Ok? ==> ZoneName(isSuffix, zone).Some? && |recs| <= MAX_TEMPLATE_RECORDS
    ensures r.Ok? && ParserLaws(rules) ==> Expansion(rules, ZoneName(isSuffix, zone).value, recs, r.value)
    ensures ParserLaws(rules) ==>
              (r.Ok? <==>
               && ZoneName(isSuffix, zone).Some? && |recs| <= MAX_TEMPLATE_RECORDS
               && var z := ZoneName(isSuffix, zone).value;
                  AllSingle(rules, z, recs) && Mergeable(rules, z, ItemsOf(rules, z, recs)))
  {
    hide RecordSetOf, ZoneName, AllSingle, Mergeable, Expansion, ParserLaws, RecordName, CanonicalZone;
    var z := ZoneName(isSuffix, zone);
    if z.None? { return Err(BadName); }
    if |recs| > MAX_TEMPLATE_RECORDS { return Err(InvalidInput); }
    var g := GroupRecords(rules, z.value, recs);
    if g.Err? { return Err(g.error); }
    var groups := g.value.0;
    var order := SortTexts(g.value.1);
    SortedGrouped(ItemsOf(rules, z.value, recs), groups, g.value.1, order);
    r := BuildSets(rules, z.value, groups, order);
    if ParserLaws(rules) {
      ZoneNameIdempotent(isSuffix, zone);
      ExpandProof(rules, z.value, recs, groups, order, r);
    }
  }

  lemma SortedGrouped(items: seq<Item>, groups: map<string, Group>, order: seq<string>, sorted: seq<string>)
    requires Grouped(items, groups, order) && StrictlySorted(sorted) && forall x :: x in sorted <==> x in order
    ensures Grouped(items, groups, sorted)
  {
    hide GroupOK, ItemKey;
    forall i, j | 0 <= i < j < |sorted| ensures sorted[i] != sorted[j] { LexTotal(sorted[i], sorted[i]); }
  }

  lemma BuiltAll(rules: Rules, z: string, items: seq<Item>, groups: map<string, Group>, order: seq<string>,
                 out: seq<RRset>)
    requires ParserLaws(rules) && CanonicalZone(z) == Some(z) && Grouped(items, groups, order)
    requires forall j :: 0 <= j < |items| ==> RecordName(z, items[j].name) == Some(items[j].name)
    requires |out| == |order| && GroupSets(rules, z, groups, order, out)
    ensures AllBuilt(rules, z, items, groups, order, out)
    ensures forall k :: k in order ==> GroupFits(rules, z, groups, order, k)
  {
    hide RecordSetOf, ParserLaws, RecordName, CanonicalZone, Built, Headers, ItemKey, ValuesFor;
    forall i | 0 <= i < |out|
      ensures Built(rules, z, items, groups, order, order[i], out[i])
      ensures GroupFits(rules, z, groups, order, order[i])
    {
      assert order[i] in order;
      assert GroupOK(items, order[i], groups[order[i]]);
      assert GroupSet(rules, z, groups, order, order[i], out[i]);
      BuiltSet(rules, z, items, groups, order, order[i], out[i]);
    }
  }

  lemma ExpandProof(rules: Rules, z: string, recs: seq<TemplateRecord>,
                    groups: map<string, Group>, order: seq<string>, r: Result<seq<RRset>>)
    requires ParserLaws(rules) && CanonicalZone(z) == Some(z) && AllSingle(rules, z, recs)
    requires Grouped(ItemsOf(rules, z, recs), groups, order) && StrictlySorted(order)
    requires r.Ok? ==> |r.value| == |order| && GroupSets(rules, z, groups, order, r.value)
    requires r.Err? ==> exists k :: k in order && !GroupFits(rules, z, groups, order, k)
    ensures r.Ok? <==> Mergeable(rules, z, ItemsOf(rules, z, recs))
    ensures r.Ok? ==> Expansion(rules, z, recs, r.value)
  {
    hide AllSingle, Mergeable, Expansion, ParserLaws, RecordName, CanonicalZone, GroupFits, ItemOf, AllBuilt, GroupSets,
      GroupOK;
    var items := ItemsOf(rules, z, recs);
    ItemsCanonical(rules, z, recs);
    assert PlainKeys(items);
    GroupsAccepted(rules, z, items, groups, order);
    if r.Ok? {
      BuiltAll(rules, z, items, groups, order, r.value);
      BuiltExpansion(rules, z, recs, groups, order, r.value);
    }
  }
}
