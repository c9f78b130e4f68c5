/** The entities of the service: zone rows and the rows that refer to them
(internal/store/models.go), and the zones, record sets and changes of the authoritative
server (internal/pdns). Spellings of kinds and record types are parsed at the boundary, so
both are enumerations here. */
module Model {
  import opened Strings
  import opened Wrappers

  // ----- kinds

  datatype Kind = Native | Master | Slave | Producer | Consumer

  /** Secondary kinds: their records come from a primary. */
  predicate NeedsMasters(k: Kind) { k.Slave? || k.Consumer? }

  // ----- record sets

  datatype RRType =
    | SOA | A | AAAA | CNAME | MX | NS | PTR | SRV | TXT | CAA | DS | DNSKEY | TLSA | SSHFP | SPF | NAPTR
    | OtherType(tag: string)

  predicate Editable(t: RRType) { !t.SOA? && !t.OtherType? }

  datatype Record = Record(content: string, disabled: bool)

  datatype RRset = RRset(name: string, typ: RRType, ttl: int, records: seq<Record>, comments: seq<string>)

  /** A change of a patch. `Refill` is a replacement that gives no comment list. */
  datatype Change = Replace(rr: RRset) | Refill(rr: RRset) | Remove(name: string, typ: RRType)

  datatype ServerZone = ServerZone(
    name: string, kind: Kind, masters: seq<string>, dnssec: bool, account: string, serial: nat, rrsets: seq<RRset>)

  function Contents(records: seq<Record>): (cs: seq<string>)
    ensures |cs| == |records|
    ensures forall i :: 0 <= i < |cs| ==> cs[i] == records[i].content
  {
    seq(|records|, i requires 0 <= i < |records| => records[i].content)
  }

  // ----- rows

  datatype Origin = Manual | Ipam

  datatype Zone = Zone(
    id: string, tenant: string, name: string, pdnsId: string, kind: Kind, masters: seq<string>, dnssec: bool,
    description: string, templateId: string, origin: Origin, nameservers: seq<string>)

  datatype ForwardRef = ForwardRef(zoneId: string, name: string, typ: RRType)
  datatype ReverseRef = ReverseRef(zoneId: string, owner: string)

  /** What the IPAM sync last wrote for one address; an empty name in the source is `None`. */
  datatype SyncRow = SyncRow(
    tenant: string, id: string, address: string, hostname: string,
    forward: Option<ForwardRef>, reverse: Option<ReverseRef>)

  datatype Challenge = Challenge(
    id: string, tenant: string, zoneId: string, fqdn: string, value: string, createdAt: int)

  datatype TemplateRecord = TemplateRecord(name: string, typ: RRType, ttl: int, content: string, priority: int)

  datatype Template = Template(
    id: string, tenant: string, name: string, description: string, records: seq<TemplateRecord>)

  /** An autoprimary entry: on the server, and as a row. */
  datatype Supermaster = Supermaster(ip: string, nameserver: string, account: string)
  datatype SupermasterRow = SupermasterRow(id: string, tenant: string, ip: string, nameserver: string)

  // ----- finding and changing record sets

  predicate Matches(r: RRset, name: string, typ: RRType) {
    EqualFold(r.name, name) && r.typ == typ
  }

  /** The first record set of that name (any case) and type. */
  function Find(sets: seq<RRset>, name: string, typ: RRType): (r: Option<RRset>)
    ensures r.Some? ==> r.value in sets && Matches(r.value, name, typ)
    ensures r.None? ==> forall s :: s in sets ==> !Matches(s, name, typ)
  {
    if sets == [] then None
    else if Matches(sets[0], name, typ) then Some(sets[0])
    else Find(sets[1..], name, typ)
  }

  predicate SameKey(r: RRset, name: string, typ: RRType) {
    r.name == name && r.typ == typ
  }

  function Without(sets: seq<RRset>, name: string, typ: RRType): (out: seq<RRset>)
    ensures forall r :: r in out <==> r in sets && !SameKey(r, name, typ)
  {
    if sets == [] then []
    else if SameKey(sets[0], name, typ) then Without(sets[1..], name, typ)
    else [sets[0]] + Without(sets[1..], name, typ)
  }

  /** The comments of the first set of that name and type. */
  function CommentsAt(sets: seq<RRset>, name: string, typ: RRType): seq<string> {
    if sets == [] then [] else if SameKey(sets[0], name, typ) then sets[0].comments
    else CommentsAt(sets[1..], name, typ)
  }

  /** One change of a patch: REPLACE sets (name, type) to exactly the records given, an
  empty list and DELETE remove it; without a comment list the stored comments stay. */
  function Patch(sets: seq<RRset>, c: Change): seq<RRset> {
    match c
    case Refill(rr) =>
      var rest := Without(sets, rr.name, rr.typ);
      if rr.records == [] then rest else rest + [rr.(comments := CommentsAt(sets, rr.name, rr.typ))]
    case Replace(rr) =>
      var rest := Without(sets, rr.name, rr.typ);
      if rr.records == [] then rest else rest + [rr]
    case Remove(name, typ) => Without(sets, name, typ)
  }

  function PatchAll(sets: seq<RRset>, cs: seq<Change>): seq<RRset>
    decreases |cs|
  {
    if cs == [] then sets else PatchAll(Patch(sets, cs[0]), cs[1..])
  }

  function ReplaceInPlace(sets: seq<RRset>, r: RRset): (out: seq<RRset>)
    ensures forall s :: s in out ==> s == r || s in sets
    ensures r in out
  {
    if sets == [] then [r]
    else if SameKey(sets[0], r.name, r.typ) then [r] + sets[1..]
    else [sets[0]] + ReplaceInPlace(sets[1..], r)
  }

  // ----- one set per key

  predicate LowerNames(sets: seq<RRset>) {
    forall r :: r in sets ==> Lower(r.name) == r.name
  }

  predicate UniqueKeys(sets: seq<RRset>) {
    forall i, j :: 0 <= i < j < |sets| ==> !SameKey(sets[i], sets[j].name, sets[j].typ)
  }

  lemma {:induction false} FindMember(sets: seq<RRset>, r: RRset)
    requires LowerNames(sets) && UniqueKeys(sets) && r in sets
    ensures Find(sets, r.name, r.typ) == Some(r)
  {
    if Matches(sets[0], r.name, r.typ) {
      assert sets[0] in sets;
      assert SameKey(sets[0], r.name, r.typ);
      var j :| 0 <= j < |sets| && sets[j] == r;
      assert j == 0;
    } else {
      FindMember(sets[1..], r);
    }
  }

  lemma FindCons(r: RRset, rest: seq<RRset>, name: string, typ: RRType)
    ensures Find([r] + rest, name, typ) == if Matches(r, name, typ) then Some(r) else Find(rest, name, typ)
  {
    assert ([r] + rest)[1..] == rest;
  }

  lemma NothingFound(name: string, typ: RRType, n0: string, t0: RRType)
    ensures Find([], name, typ) == None && Without([], n0, t0) == []
  {
  }

  lemma WithoutCons(r: RRset, rest: seq<RRset>, name: string, typ: RRType)
    ensures Without([r] + rest, name, typ) ==
            if SameKey(r, name, typ) then Without(rest, name, typ) else [r] + Without(rest, name, typ)
  {
    assert ([r] + rest)[1..] == rest;
  }

  lemma {:induction false} WithoutUnique(sets: seq<RRset>, name: string, typ: RRType)
    requires UniqueKeys(sets)
    ensures UniqueKeys(Without(sets, name, typ))
  {
    hide Without, SameKey;
    if sets == [] {
      NothingFound("", SOA, name, typ);
    } else {
      var h, rest := sets[0], sets[1..];
      assert sets == [h] + rest;
      UniqueCons(h, rest);
      WithoutUnique(rest, name, typ);
      WithoutCons(h, rest, name, typ);
      UniqueCons(h, Without(rest, name, typ));
    }
  }

  lemma UniqueCons(h: RRset, rest: seq<RRset>)
    ensures UniqueKeys([h] + rest) <==> UniqueKeys(rest) && forall r :: r in rest ==> !SameKey(h, r.name, r.typ)
  {
    var all := [h] + rest;
    assert forall i :: 0 <= i < |rest| ==> all[i + 1] == rest[i];
    if UniqueKeys(all) {
      forall r | r in rest ensures !SameKey(h, r.name, r.typ) {
        var i :| 0 <= i < |rest| && rest[i] == r;
        assert all[0] == h && all[i + 1] == r;
      }
    }
  }

  lemma {:induction false} FindWithout(sets: seq<RRset>, n0: string, t0: RRType, name: string, typ: RRType)
    requires LowerNames(sets) && Lower(n0) == n0
    ensures Find(Without(sets, n0, t0), name, typ) ==
            if Lower(name) == n0 && typ == t0 then None else Find(sets, name, typ)
  {
    hide Find, Without, Lower;
    if sets == [] {
      NothingFound(name, typ, n0, t0);
    } else {
      var h, rest := sets[0], sets[1..];
      assert sets == [h] + rest && h in sets;
      FindWithout(rest, n0, t0, name, typ);
      FindCons(h, rest, name, typ);
      WithoutCons(h, rest, n0, t0);
      FindCons(h, Without(rest, n0, t0), name, typ);
    }
  }

  lemma {:induction false} FindAppend(sets: seq<RRset>, rr: RRset, name: string, typ: RRType)
    ensures Find(sets + [rr], name, typ) ==
            if Find(sets, name, typ).Some? then Find(sets, name, typ)
            else if Matches(rr, name, typ) then Some(rr) else None
  {
    if sets == [] {
      assert Find([rr][1..], name, typ) == None;
    } else {
      FindAppend(sets[1..], rr, name, typ);
      assert (sets + [rr])[1..] == sets[1..] + [rr];
    }
  }

  /** What a change does to the view by (name, type): it rewrites one entry, no other. */
  lemma FindPatched(sets: seq<RRset>, c: Change, name: string, typ: RRType)
    requires LowerNames(sets)
    requires match c
             case Replace(rr) => Lower(rr.name) == rr.name
             case Refill(rr) => Lower(rr.name) == rr.name
             case Remove(n, _) => Lower(n) == n
    ensures match c
            case Refill(rr) =>
              Find(Patch(sets, c), name, typ) ==
              if Lower(name) == rr.name && typ == rr.typ then
                (if rr.records == [] then None else Some(rr.(comments := CommentsAt(sets, rr.name, rr.typ))))
              else Find(sets, name, typ)
            case Replace(rr) =>
              Find(Patch(sets, c), name, typ) ==
              if Lower(name) == rr.name && typ == rr.typ then (if rr.records == [] then None else Some(rr))
              else Find(sets, name, typ)
            case Remove(n, t) =>
              Find(Patch(sets, c), name, typ) ==
              if Lower(name) == n && typ == t then None else Find(sets, name, typ)
  {
    match c
    case Replace(rr) =>
      FindWithout(sets, rr.name, rr.typ, name, typ);
      FindAppend(Without(sets, rr.name, rr.typ), rr, name, typ);
    case Refill(rr) =>
      FindWithout(sets, rr.name, rr.typ, name, typ);
      FindAppend(Without(sets, rr.name, rr.typ), rr.(comments := CommentsAt(sets, rr.name, rr.typ)), name, typ);
    case Remove(n, t) =>
      FindWithout(sets, n, t, name, typ);
  }

  lemma AppendUnique(sets: seq<RRset>, rr: RRset)
    requires UniqueKeys(sets)
    requires forall r :: r in sets ==> !SameKey(r, rr.name, rr.typ)
    ensures UniqueKeys(sets + [rr])
  {
    var out := sets + [rr];
    forall i, j | 0 <= i < j < |out|
      ensures !SameKey(out[i], out[j].name, out[j].typ)
    {
      assert out[i] == sets[i] && sets[i] in sets;
    }
  }
}
