/** ACME DNS-01 challenge values (internal/acmechallenge): publishing and retracting one TXT
value beside others, the bookkeeping rows, and the sweeper of values whose clean-up never came.
The challenge is that of section 8.4 of RFC 8555. */
module Challenges {
  import opened Strings
  import opened Names
  import opened Wrappers
  import opened Model
  import opened RecordSets
  import opened Pdns
  import opened Memstore
  import opened Records
  import opened Zones
  import opened SyncRecords
  import opened SyncClaims

  const PREFIX := "_acme-challenge."
  const DIGEST := 43
  const SWEEP_BATCH: nat := 100

  /** `isDomain` is the DNS library's name check. */
  datatype ChallengeEnv = ChallengeEnv(rules: Rules, ttl: int, isDomain: string -> bool)

  datatype Request = Request(domain: string, fqdn: string, value: string)

  // ----- requests

  predicate Base64Url(c: char) {
    'a' <= c <= 'z' || 'A' <= c <= 'Z' || '0' <= c <= '9' || c == '_' || c == '-'
  }

  predicate DigestOK(v: string) {
    |v| == DIGEST && forall c :: c in v ==> Base64Url(c)
  }

  function Quoted(v: string): string { "\"" + v + "\"" }

  /** Lower-cased, trimmed and absolute, outside the characters a challenge name cannot have. */
  function CanonicalName(env: ChallengeEnv, name: string): Option<string> {
    var n := Fqdn(Lower(Trim(name)));
    if n == "." || DoubleDot(n) || ' ' in n || '*' in n || '\\' in n || '"' in n || !env.isDomain(n) then None
    else Some(n)
  }

  function TrimPrefix(s: string, t: string): string {
    if t <= s then s[|t|..] else s
  }

  /** The owner name a request is for. */
  function Check(env: ChallengeEnv, r: Request): Result<string> {
    if !DigestOK(r.value) then Err(InvalidChallenge)
    else
      var domain := CanonicalName(env, TrimPrefix(Trim(r.domain), "*."));
      var fqdn := CanonicalName(env, r.fqdn);
      if domain.None? || fqdn.None? || fqdn.value != PREFIX + domain.value then Err(InvalidChallenge)
      else Ok(fqdn.value)
  }

  /** A challenge owner name: the prefix, lower case, absolute. */
  predicate OwnName(f: string) {
    Lower(f) == f && HasSuffix(f, ".") && PREFIX <= f && |f| > |PREFIX|
  }

  lemma LowerFqdn(s: string)
    ensures Lower(Fqdn(Lower(s))) == Fqdn(Lower(s))
  {
    LowerIdempotent(s);
    var f := Fqdn(Lower(s));
    assert forall i :: 0 <= i < |f| ==> LowerChar(f[i]) == f[i];
    assert Lower(f) == f;
  }

  /** An accepted request's owner name is the prefix and its domain, in lower case and absolute. */
  lemma CheckedName(env: ChallengeEnv, r: Request)
    requires Check(env, r).Ok?
    ensures OwnName(Check(env, r).value) && DigestOK(r.value)
    ensures env.isDomain(Check(env, r).value) && !DoubleDot(Check(env, r).value)
  {
    hide Lower;
    LowerFqdn(Trim(r.fqdn));
    var d := CanonicalName(env, TrimPrefix(Trim(r.domain), "*.")).value;
    assert d != "." && HasSuffix(d, ".");
  }

  /** A challenge owner name is its own canonical form. */
  lemma OwnCanonical(isDomain: string -> bool, f: string)
    requires OwnName(f) && isDomain(f) && !DoubleDot(f)
    ensures CanonicalFqdn(isDomain, f) == Some(f)
  {
    TrimLeftStops(f);
    assert f[|f| - 1] == '.';
    assert Trim(f) == f;
  }

  /** A challenge owner name is its own record name wherever it is one. */
  lemma OwnRecordName(zone: string, f: string)
    requires OwnName(f) && RecordName(zone, f).Some?
    ensures RecordName(zone, f) == Some(f)
  {
    hide LabelOK, InZone, CanonicalZone, Labels, Printable;
    LowerIdempotent(f);
    TrimLeftStops(f);
    assert f[|f| - 1] == '.';
    assert Trim(f) == f;
  }

  // ----- one value among others

  function TxtAt(server: ServerZones, id: string, name: string): seq<Record> {
    var r := SetAt(server, id, name, TXT);
    if r.Some? then r.value.records else []
  }

  /** The records with one more value, after the others; a value that is there stays as it is. */
  function With(rs: seq<Record>, q: string): seq<Record> {
    if q in Contents(rs) then rs else rs + [Record(q, false)]
  }

  /** The records without some contents; the others keep content, order and disabled flag. */
  function Struck(rs: seq<Record>, bad: set<string>): seq<Record> {
    if rs == [] then []
    else if rs[0].content in bad then Struck(rs[1..], bad)
    else [rs[0]] + Struck(rs[1..], bad)
  }

  lemma {:induction false} StruckMembers(rs: seq<Record>, bad: set<string>)
    ensures forall r :: r in Struck(rs, bad) <==> r in rs && r.content !in bad
    ensures |Struck(rs, bad)| <= |rs|
  {
    if rs != [] {
      StruckMembers(rs[1..], bad);
      assert rs == [rs[0]] + rs[1..];
    }
  }

  lemma {:induction false} StruckTwice(rs: seq<Record>, a: set<string>, b: set<string>)
    ensures Struck(Struck(rs, a), b) == Struck(rs, a + b)
  {
    if rs != [] {
      StruckTwice(rs[1..], a, b);
      var rest := Struck(rs[1..], a);
      assert ([rs[0]] + rest)[1..] == rest;
    }
  }

  lemma {:induction false} StruckNothing(rs: seq<Record>, bad: set<string>)
    requires forall r :: r in rs ==> r.content !in bad
    ensures Struck(rs, bad) == rs
  {
    if rs != [] {
      assert rs[0] in rs;
      StruckNothing(rs[1..], bad);
    }
  }

  lemma {:induction false} StruckDistinct(rs: seq<Record>, bad: set<string>)
    requires DistinctContents(rs)
    ensures DistinctContents(Struck(rs, bad))
  {
    if rs != [] {
      StruckDistinct(rs[1..], bad);
      StruckMembers(rs[1..], bad);
      var rest := Struck(rs[1..], bad);
      assert forall r :: r in rs[1..] ==> r.content != rs[0].content;
      assert forall i :: 0 <= i < |rest| ==> rest[i] in rest;
    }
  }

  /** The loop of present: whether the value is there, else the values to submit. */
  method Merge(rs: seq<Record>, q: string) returns (found: bool, values: seq<Record>)
    ensures found <==> q in Contents(rs)
    ensures !found ==> values == With(rs, q) && |values| == |rs| + 1
  {
    values := [];
    var i := 0;
    while i < |rs|
      invariant 0 <= i <= |rs| && values == rs[..i]
      invariant forall j :: 0 <= j < i ==> rs[j].content != q
    {
      if rs[i].content == q { assert Contents(rs)[i] == q; return true, values; }
      values := values + [rs[i]];
      i := i + 1;
    }
    found := false;
    values := values + [Record(q, false)];
  }

  lemma StruckHead(rs: seq<Record>, i: nat, bad: set<string>)
    requires i < |rs|
    ensures Struck(rs[i..], bad) == (if rs[i].content in bad then [] else [rs[i]]) + Struck(rs[i + 1..], bad)
  {
    assert rs[i..][1..] == rs[i + 1..];
  }

  /** The loop of drop: the values without the one, and whether it was there. */
  method Strike(rs: seq<Record>, q: string) returns (hit: bool, rest: seq<Record>)
    ensures rest == Struck(rs, {q})
    ensures hit <==> q in Contents(rs)
  {
    hide Struck;
    hit, rest := false, [];
    var i := 0;
    assert rs[0..] == rs;
    while i < |rs|
      invariant 0 <= i <= |rs|
      invariant rest + Struck(rs[i..], {q}) == Struck(rs, {q})
      invariant hit <==> exists j :: 0 <= j < i && rs[j].content == q
    {
      StruckHead(rs, i, {q});
      ghost var before := rest;
      if rs[i].content == q {
        hit := true;
      } else {
        rest := rest + [rs[i]];
      }
      assert before + (if rs[i].content in {q} then [] else [rs[i]]) == rest;
      i := i + 1;
    }
    StruckEnd(rs, {q});
    assert forall j :: 0 <= j < |rs| ==> Contents(rs)[j] == rs[j].content;
  }

  lemma StruckEnd(rs: seq<Record>, bad: set<string>)
    ensures Struck(rs[|rs|..], bad) == []
  {
  }

  // ----- reading the name

  ghost predicate ChallengeLaws(env: ChallengeEnv) {
    && ParserLaws(env.rules)
    && forall v :: DigestOK(v) ==> env.rules.content(TXT, Quoted(v)) == Some(Quoted(v))
  }

  /** The TXT set at the name; a CNAME there is refused. */
  method Current(pd: Server, z: Zone, fqdn: string) returns (r: Result<Option<RRset>>)
    requires OwnName(fqdn)
    modifies pd`faults
    ensures old(pd.Clean()) ==> pd.Clean()
    ensures match r
            case Ok(rs) =>
              && z.pdnsId in pd.zones && RecordName(z.name, fqdn) == Some(fqdn)
              && rs == SetAt(pd.zones, z.pdnsId, fqdn, TXT) && SetAt(pd.zones, z.pdnsId, fqdn, CNAME).None?
            case Err(e) =>
              || RecordName(z.name, fqdn).None? || !old(pd.Clean()) || z.pdnsId !in pd.zones
              || (e.Precondition? && SetAt(pd.zones, z.pdnsId, fqdn, CNAME).Some?)
  {
    hide RecordName, Find, OwnName;
    if RecordName(z.name, fqdn).Some? { OwnRecordName(z.name, fqdn); }
    var c := Lookup(pd, z, fqdn, CNAME);
    if c.Ok? { return Err(Precondition); }
    if !c.error.RecordNotFound? { return Err(c.error); }
    var t := Lookup(pd, z, fqdn, TXT);
    if t.Ok? { return Ok(Some(t.value)); }
    r := if t.error.RecordNotFound? then Ok(None) else Err(t.error);
  }

  /** Values that are canonical already are stored as they are, with their disabled flags. */
  lemma RecordsKept(rules: Rules, zone: string, inp: RecordSetInput, sets: seq<RRset>, rr: RRset)
    requires RecordSetOf(rules, zone, inp, sets) == Ok(rr) && CanonicalContents(rules, inp.typ, inp.values)
    ensures rr.records == inp.values && rr.ttl == inp.ttl && rr.comments == CommentsOf(inp.comment)
  {
    hide CanonicalZone, RecordName, Clash, ShapeOK;
  }

  lemma TxtCanonical(rules: Rules, server: ServerZones, id: string, name: string)
    requires AllWellFormed(rules, server)
    ensures CanonicalContents(rules, TXT, TxtAt(server, id, name)) && DistinctContents(TxtAt(server, id, name))
    ensures SetAt(server, id, name, TXT).Some? ==> TxtAt(server, id, name) != []
  {
    hide Find, InZone, Lower;
    var f := SetAt(server, id, name, TXT);
    if f.Some? {
      assert SetOK(rules, server[id].name, f.value);
    }
  }

  function MapWrite(e: Error): Error {
    if e.BadRecord? || e.InvalidKind? then Precondition else e
  }

  // ----- the bookkeeping rows

  ghost predicate Noted(rows: ChallengeRows, tenant: string, fqdn: string, value: string) {
    exists k :: k in rows && SameChallenge(rows[k], tenant, fqdn, value)
  }

  /** The rows without those of one value. */
  function Unbooked(rows: ChallengeRows, tenant: string, fqdn: string, value: string): ChallengeRows {
    map k | k in rows && !SameChallenge(rows[k], tenant, fqdn, value) :: rows[k]
  }

  /** Books the value for the sweeper. A failure is only logged: the value is already published. */
  method Book(st: Store, z: Zone, fqdn: string, value: string, id: string, at: int) returns (warned: bool)
    requires id !in st.challenges && ChallengesOK(st.challenges)
    modifies st`faults, st`challenges
    ensures old(st.Clean()) ==> st.Clean()
    ensures ChallengesOK(st.challenges)
    ensures st.challenges == old(st.challenges) ||
            st.challenges == old(st.challenges)[id := Challenge(id, z.tenant, z.id, fqdn, value, at)]
    ensures !warned ==> Noted(st.challenges, z.tenant, fqdn, value)
    // a row that is there keeps its age
    ensures old(Noted(st.challenges, z.tenant, fqdn, value)) ==> st.challenges == old(st.challenges)
    ensures warned ==> st.challenges == old(st.challenges) && (!old(st.Clean()) || !OwnedBy(st.zones, z.tenant, z.id))
  {
    var c := Challenge(id, z.tenant, z.id, fqdn, value, at);
    var err := st.InsertChallenge(c);
    if err.None? { assert SameChallenge(st.challenges[id], z.tenant, fqdn, value); }
    warned := err.Some? && !err.value.RowConflict?;
  }

  method Unbook(st: Store, tenant: string, fqdn: string, value: string) returns (warned: bool)
    requires ChallengesOK(st.challenges)
    modifies st`faults, st`challenges
    ensures old(st.Clean()) ==> st.Clean() && !warned
    ensures ChallengesOK(st.challenges)
    ensures st.challenges == if warned then old(st.challenges) else Unbooked(old(st.challenges), tenant, fqdn, value)
  {
    var err := st.DeleteChallenge(tenant, fqdn, value);
    warned := err.Some? && !err.value.RowNotFound?;
  }

  // ----- publish and retract

  function PublishInput(env: ChallengeEnv, fqdn: string, cur: Option<RRset>, values: seq<Record>): RecordSetInput {
    RecordSetInput(fqdn, TXT, env.ttl, values, if cur.Some? then CommentOf(cur.value) else "")
  }

  /** What publishing needs to succeed: a primary zone on the server that can own the name, no CNAME
  there, and room for one more value in a set whose comment is within the limits. */
  ghost predicate Publishable(env: ChallengeEnv, z: Zone, server: ServerZones, fqdn: string) {
    && !NeedsMasters(z.kind) && z.pdnsId in server && RecordName(z.name, fqdn) == Some(fqdn)
    && SetAt(server, z.pdnsId, fqdn, CNAME).None?
    && env.rules.minTTL <= env.ttl <= env.rules.maxTTL && |TxtAt(server, z.pdnsId, fqdn)| < env.rules.maxValues
    && var cur := SetAt(server, z.pdnsId, fqdn, TXT);
       cur.Some? ==> |CommentOf(cur.value)| <= MAX_COMMENT && !HasControl(CommentOf(cur.value))
  }

  lemma MergedCanonical(env: ChallengeEnv, rs: seq<Record>, value: string)
    requires ChallengeLaws(env) && DigestOK(value) && CanonicalContents(env.rules, TXT, rs) && DistinctContents(rs)
    ensures CanonicalContents(env.rules, TXT, With(rs, Quoted(value))) && DistinctContents(With(rs, Quoted(value)))
  {
    hide DigestOK, ParserLaws;
    if Quoted(value) !in Contents(rs) {
      forall i | 0 <= i < |rs| ensures rs[i].content != Quoted(value) { assert Contents(rs)[i] == rs[i].content; }
    }
  }

  lemma PublishAccepted(env: ChallengeEnv, z: Zone, server: ServerZones, fqdn: string, cur: Option<RRset>,
                        values: seq<Record>)
    requires AllWellFormed(env.rules, server) && Usable(z, server) && Publishable(env, z, server, fqdn) &&
             Lower(fqdn) == fqdn
    requires cur == SetAt(server, z.pdnsId, fqdn, TXT) && 1 <= |values| <= |TxtAt(server, z.pdnsId, fqdn)| + 1
    requires CanonicalContents(env.rules, TXT, values) && DistinctContents(values)
    ensures RecordSetOf(env.rules, z.name, PublishInput(env, fqdn, cur, values), server[z.pdnsId].rrsets).Ok?
  {
    hide CanonicalZone, RecordName, AllWellFormed, Find;
    assert Find(server[z.pdnsId].rrsets, fqdn, CNAME).None?;
    NoCnameNoClash(server[z.pdnsId].rrsets, fqdn);
  }

  /** Adds the value to the TXT set, after the values that are there; one that is there stays. */
  method PutIn(pd: Server, env: ChallengeEnv, z: Zone, fqdn: string, value: string) returns (err: Option<Error>)
    requires ChallengeLaws(env) && AllWellFormed(env.rules, pd.zones) && Usable(z, pd.zones) && OwnName(fqdn) &&
             DigestOK(value)
    modifies pd`faults, pd`zones
    ensures old(pd.Clean()) ==> pd.Clean()
    ensures AllWellFormed(env.rules, pd.zones) && OnlySet(old(pd.zones), pd.zones, z.pdnsId, fqdn, TXT)
    ensures OneEdit(env.rules, z, old(pd.zones), pd.zones)
    ensures err.None? ==> TxtAt(pd.zones, z.pdnsId, fqdn) == With(old(TxtAt(pd.zones, z.pdnsId, fqdn)), Quoted(value))
    ensures err.Some? || old(Quoted(value) in Contents(TxtAt(pd.zones, z.pdnsId, fqdn))) ==> pd.zones == old(pd.zones)
    ensures old(pd.Clean() && Publishable(env, z, pd.zones, fqdn)) ==> err.None?
    // what was put in can be taken out
    ensures err.None? &&
            old(Publishable(env, z, pd.zones, fqdn) && Quoted(value) !in Contents(TxtAt(pd.zones, z.pdnsId, fqdn))) ==>
              Retractable(env.rules, z, pd.zones, fqdn)
  {
    hide RecordSetOf, CanonicalZone, RecordName, AllWellFormed, Find, OnlySet, ParserLaws, OwnName, Outcome, Patch,
      OneEdit;
    OnlySetReflexive(pd.zones, z.pdnsId, fqdn, TXT);
    NoEdit(env.rules, z, pd.zones);
    var cur := Current(pd, z, fqdn);
    if cur.Err? { return Some(cur.error); }
    var rs := if cur.value.Some? then cur.value.value.records else [];
    var found, values := Merge(rs, Quoted(value));
    if found { return None; }
    var inp := PublishInput(env, fqdn, cur.value, values);
    LowerName(fqdn);
    TxtCanonical(env.rules, old(pd.zones), z.pdnsId, fqdn);
    MergedCanonical(env, rs, value);
    if Publishable(env, z, pd.zones, fqdn) { PublishAccepted(env, z, pd.zones, fqdn, cur.value, values); }
    ghost var clean := pd.Clean();
    var r := Apply(pd, env.rules, z, inp);
    if r.Err? {
      PutFailure(env.rules, z, inp, old(pd.zones), clean, r.error, pd.zones);
      return Some(MapWrite(r.error));
    }
    PutDone(env.rules, z, inp, old(pd.zones), clean, pd.zones);
    EditMade(env.rules, z, Put(inp), old(pd.zones), clean, pd.zones);
    PutEffect(env.rules, z, inp, old(pd.zones), pd.zones, r.value);
    RecordsKept(env.rules, z.name, inp, old(pd.zones)[z.pdnsId].rrsets, r.value);
    PutIsRetractable(env, z, old(pd.zones), pd.zones, fqdn, value, r.value);
    err := None;
  }

  lemma PutIsRetractable(env: ChallengeEnv, z: Zone, s0: ServerZones, s1: ServerZones, fqdn: string, value: string,
                         rr: RRset)
    requires OnlySet(s0, s1, z.pdnsId, fqdn, TXT) && SetAt(s1, z.pdnsId, fqdn, TXT) == Some(rr)
    requires rr.ttl == env.ttl && rr.records == With(TxtAt(s0, z.pdnsId, fqdn), Quoted(value))
    requires rr.comments == CommentsOf(PublishInput(env, fqdn, SetAt(s0, z.pdnsId, fqdn, TXT), []).comment)
    ensures Publishable(env, z, s0, fqdn) ==> Retractable(env.rules, z, s1, fqdn)
  {
    hide RecordName, SetAt, TrimLeft, TrimRight, Contents;
    var cur := SetAt(s0, z.pdnsId, fqdn, TXT);
    if cur.Some? {
      TrimmedComment(cur.value, rr);
    } else {
      TrimLeftPart("");
      TrimRightPart(TrimLeft(""));
    }
    CnameKept(s0, s1, z.pdnsId, fqdn);
  }

  /** Adds the value to the TXT set and books it; a value that is there is only booked. */
  method Publish(st: Store, pd: Server, env: ChallengeEnv, z: Zone, fqdn: string, value: string, id: string, at: int)
    returns (err: Option<Error>, warned: bool)
    requires ChallengeLaws(env) && AllWellFormed(env.rules, pd.zones) && Usable(z, pd.zones) && OwnName(fqdn) &&
             DigestOK(value)
    requires id !in st.challenges && ChallengesOK(st.challenges)
    modifies st`faults, st`challenges, pd`faults, pd`zones
    ensures old(st.Clean()) ==> st.Clean()
    ensures old(pd.Clean()) ==> pd.Clean()
    ensures AllWellFormed(env.rules, pd.zones) && ChallengesOK(st.challenges)
    ensures OnlySet(old(pd.zones), pd.zones, z.pdnsId, fqdn, TXT) && OneEdit(env.rules, z, old(pd.zones), pd.zones)
    ensures err.None? ==>
              && TxtAt(pd.zones, z.pdnsId, fqdn) == With(old(TxtAt(pd.zones, z.pdnsId, fqdn)), Quoted(value))
              && (st.challenges == old(st.challenges) ||
                  st.challenges == old(st.challenges)[id := Challenge(id, z.tenant, z.id, fqdn, value, at)])
              && (!warned ==> Noted(st.challenges, z.tenant, fqdn, value))
              && (old(Noted(st.challenges, z.tenant, fqdn, value)) ==> st.challenges == old(st.challenges))
              && (warned ==> !old(st.Clean()) || !OwnedBy(st.zones, z.tenant, z.id))
    ensures err.Some? ==> !warned && pd.zones == old(pd.zones) && st.challenges == old(st.challenges)
    ensures old(Quoted(value) in Contents(TxtAt(pd.zones, z.pdnsId, fqdn))) ==> pd.zones == old(pd.zones)
    ensures old(pd.Clean() && Publishable(env, z, pd.zones, fqdn)) ==> err.None?
    ensures err.None? &&
            old(Publishable(env, z, pd.zones, fqdn) && Quoted(value) !in Contents(TxtAt(pd.zones, z.pdnsId, fqdn))) ==>
              Retractable(env.rules, z, pd.zones, fqdn)
  {
    hide Retractable, AllWellFormed, OnlySet, OwnName, ChallengesOK, Noted, ChallengeLaws, TxtAt, With, Publishable,
      OneEdit;
    warned := false;
    err := PutIn(pd, env, z, fqdn, value);
    if err.None? { warned := Book(st, z, fqdn, value, id, at); }
  }

  lemma LowerName(f: string)
    requires OwnName(f)
    ensures Lower(f) == f
  {
  }

  /** The set could be written back: its TTL, size and comment are within the limits. */
  ghost predicate Limited(rules: Rules, rr: RRset) {
    && rules.minTTL <= rr.ttl <= rules.maxTTL && |rr.records| <= rules.maxValues
    && |CommentOf(rr)| <= MAX_COMMENT && !HasControl(CommentOf(rr))
  }

  /** What a retraction needs to succeed: a primary zone on the server that can own the name, no
  CNAME there, and a TXT set within the limits. */
  ghost predicate Retractable(rules: Rules, z: Zone, server: ServerZones, fqdn: string) {
    && !NeedsMasters(z.kind) && z.pdnsId in server && RecordName(z.name, fqdn) == Some(fqdn)
    && SetAt(server, z.pdnsId, fqdn, CNAME).None?
    && (SetAt(server, z.pdnsId, fqdn, TXT).Some? ==> Limited(rules, SetAt(server, z.pdnsId, fqdn, TXT).value))
  }

  function RestInput(fqdn: string, rr: RRset, rest: seq<Record>): RecordSetInput {
    RecordSetInput(fqdn, TXT, rr.ttl, rest, CommentOf(rr))
  }

  lemma RestAccepted(rules: Rules, z: Zone, server: ServerZones, fqdn: string, rr: RRset, rest: seq<Record>)
    requires AllWellFormed(rules, server) && Usable(z, server) && Retractable(rules, z, server, fqdn) &&
             Lower(fqdn) == fqdn
    requires SetAt(server, z.pdnsId, fqdn, TXT) == Some(rr) && rest != [] && |rest| <= |rr.records|
    requires CanonicalContents(rules, TXT, rest) && DistinctContents(rest)
    ensures RecordSetOf(rules, z.name, RestInput(fqdn, rr, rest), server[z.pdnsId].rrsets).Ok?
  {
    hide CanonicalZone, RecordName, AllWellFormed, Find;
    assert Find(server[z.pdnsId].rrsets, fqdn, CNAME).None?;
    NoCnameNoClash(server[z.pdnsId].rrsets, fqdn);
  }

  lemma NoCnameNoClash(sets: seq<RRset>, name: string)
    requires Find(sets, name, CNAME).None?
    ensures !Clash(sets, name, TXT)
  {
    hide Lower;
    forall e | e in sets && EqualFold(e.name, name) ensures !e.typ.CNAME? {
      assert !Matches(e, name, CNAME);
    }
  }

  /** Rewrites the set without the value, deleting the set with its last one. */
  method TakeOut(pd: Server, env: ChallengeEnv, z: Zone, rr: RRset, fqdn: string, value: string)
    returns (err: Option<Error>)
    requires ChallengeLaws(env) && AllWellFormed(env.rules, pd.zones) && Usable(z, pd.zones) && OwnName(fqdn)
    requires RecordName(z.name, fqdn) == Some(fqdn)
    requires SetAt(pd.zones, z.pdnsId, fqdn, TXT) == Some(rr)
    modifies pd`faults, pd`zones
    ensures old(pd.Clean()) ==> pd.Clean()
    ensures AllWellFormed(env.rules, pd.zones) && OnlySet(old(pd.zones), pd.zones, z.pdnsId, fqdn, TXT)
    ensures OneEdit(env.rules, z, old(pd.zones), pd.zones)
    ensures err.None? ==> TxtAt(pd.zones, z.pdnsId, fqdn) == Struck(rr.records, {Quoted(value)})
    ensures err.None? && SetAt(pd.zones, z.pdnsId, fqdn, TXT).Some? && Limited(env.rules, rr) ==>
              Limited(env.rules, SetAt(pd.zones, z.pdnsId, fqdn, TXT).value)
    ensures err.Some? ==> pd.zones == old(pd.zones)
    ensures old(pd.Clean() && Retractable(env.rules, z, pd.zones, fqdn)) ==> err.None?
  {
    hide RecordSetOf, CanonicalZone, RecordName, AllWellFormed, Find, OnlySet, ParserLaws, OwnName;
    OnlySetReflexive(pd.zones, z.pdnsId, fqdn, TXT);
    LowerName(fqdn);
    var hit, rest := Strike(rr.records, Quoted(value));
    if !hit {
      NotThere(rr.records, Quoted(value));
      return None;
    }
    TxtCanonical(env.rules, pd.zones, z.pdnsId, fqdn);
    if rest == [] {
      err := Records.Delete(pd, env.rules, z, fqdn, TXT);
      if err.Some? { return Some(MapWrite(err.value)); }
      DropEffect(env.rules, z, fqdn, TXT, old(pd.zones), pd.zones);
      return;
    }
    RestCanonical(env.rules, rr.records, {Quoted(value)});
    if Retractable(env.rules, z, pd.zones, fqdn) {
      RestAccepted(env.rules, z, pd.zones, fqdn, rr, rest);
    }
    var inp := RestInput(fqdn, rr, rest);
    var r := Apply(pd, env.rules, z, inp);
    if r.Err? { return Some(MapWrite(r.error)); }
    PutEffect(env.rules, z, inp, old(pd.zones), pd.zones, r.value);
    RecordsKept(env.rules, z.name, inp, old(pd.zones)[z.pdnsId].rrsets, r.value);
    TrimmedComment(rr, r.value);
    err := None;
  }

  lemma NotThere(rs: seq<Record>, q: string)
    requires q !in Contents(rs)
    ensures Struck(rs, {q}) == rs
  {
    forall r | r in rs ensures r.content !in {q} {
      var i :| 0 <= i < |rs| && rs[i] == r;
      assert Contents(rs)[i] == r.content;
    }
    StruckNothing(rs, {q});
  }

  lemma RestCanonical(rules: Rules, rs: seq<Record>, bad: set<string>)
    requires CanonicalContents(rules, TXT, rs) && DistinctContents(rs)
    ensures CanonicalContents(rules, TXT, Struck(rs, bad)) && DistinctContents(Struck(rs, bad)) &&
            |Struck(rs, bad)| <= |rs|
  {
    StruckMembers(rs, bad);
    StruckDistinct(rs, bad);
    var rest := Struck(rs, bad);
    forall i | 0 <= i < |rest| ensures rules.content(TXT, rest[i].content) == Some(rest[i].content) {
      assert rest[i] in rest;
      var j :| 0 <= j < |rs| && rs[j] == rest[i];
    }
  }

  lemma {:induction false} TrimLeftPart(s: string)
    ensures |TrimLeft(s)| <= |s| && forall c :: c in TrimLeft(s) ==> c in s
  {
    if s != "" { TrimLeftPart(s[1..]); }
  }

  lemma {:induction false} TrimRightPart(s: string)
    ensures |TrimRight(s)| <= |s| && forall c :: c in TrimRight(s) ==> c in s
  {
    if s != "" { TrimRightPart(s[..|s| - 1]); }
  }

  lemma TrimmedComment(a: RRset, b: RRset)
    requires b.comments == CommentsOf(CommentOf(a))
    ensures |CommentOf(b)| <= |CommentOf(a)| && (HasControl(CommentOf(b)) ==> HasControl(CommentOf(a)))
  {
    TrimLeftPart(CommentOf(a));
    TrimRightPart(TrimLeft(CommentOf(a)));
  }

  /** Takes the value out of the TXT set and forgets its row; a value that is not there is fine. */
  method Retract(st: Store, pd: Server, env: ChallengeEnv, z: Zone, fqdn: string, value: string)
    returns (err: Option<Error>, warned: bool)
    requires ChallengeLaws(env) && AllWellFormed(env.rules, pd.zones) && Usable(z, pd.zones) && OwnName(fqdn)
    requires ChallengesOK(st.challenges)
    modifies st`faults, st`challenges, pd`faults, pd`zones
    ensures old(st.Clean()) ==> st.Clean() && !warned
    ensures old(pd.Clean()) ==> pd.Clean()
    ensures AllWellFormed(env.rules, pd.zones) && ChallengesOK(st.challenges)
    ensures OnlySet(old(pd.zones), pd.zones, z.pdnsId, fqdn, TXT) && OneEdit(env.rules, z, old(pd.zones), pd.zones)
    ensures err.None? ==>
              && TxtAt(pd.zones, z.pdnsId, fqdn) == Struck(old(TxtAt(pd.zones, z.pdnsId, fqdn)), {Quoted(value)})
              && st.challenges ==
                 if warned then old(st.challenges) else Unbooked(old(st.challenges), z.tenant, fqdn, value)
    ensures err.Some? ==> pd.zones == old(pd.zones) && st.challenges == old(st.challenges)
    ensures old(pd.Clean() && Retractable(env.rules, z, pd.zones, fqdn)) ==> err.None?
    ensures old(Retractable(env.rules, z, pd.zones, fqdn)) ==> Retractable(env.rules, z, pd.zones, fqdn)
  {
    hide RecordSetOf, CanonicalZone, RecordName, AllWellFormed, Find, OnlySet, ParserLaws, OwnName, ChallengesOK,
      ChallengeLaws, Limited, OneEdit;
    warned := false;
    OnlySetReflexive(pd.zones, z.pdnsId, fqdn, TXT);
    NoEdit(env.rules, z, pd.zones);
    LowerName(fqdn);
    var cur := Current(pd, z, fqdn);
    if cur.Err? { return Some(cur.error), false; }
    if cur.value.Some? {
      err := TakeOut(pd, env, z, cur.value.value, fqdn, value);
      if err.Some? { return err, false; }
      CnameKept(old(pd.zones), pd.zones, z.pdnsId, fqdn);
    }
    warned := Unbook(st, z.tenant, fqdn, value);
    err := None;
  }

  lemma CnameKept(s0: ServerZones, s1: ServerZones, id: string, name: string)
    requires OnlySet(s0, s1, id, name, TXT)
    ensures SetAt(s1, id, name, CNAME) == SetAt(s0, id, name, CNAME) && s1.Keys == s0.Keys
  {
    hide SetAt;
  }

  // ----- published values and their rows

  /** A value the service published in a zone of the tenant. */
  datatype Value = Value(tenant: string, zoneId: string, fqdn: string, value: string)

  ghost predicate Shown(v: Value, zones: Rows, server: ServerZones) {
    OwnedBy(zones, v.tenant, v.zoneId) && Quoted(v.value) in Contents(TxtAt(server, zones[v.zoneId].pdnsId, v.fqdn))
  }

  ghost function StillShown(vs: set<Value>, zones: Rows, server: ServerZones): set<Value> {
    set v | v in vs && Shown(v, zones, server)
  }

  ghost predicate HasRow(rows: ChallengeRows, v: Value) {
    exists k :: k in rows && SameChallenge(rows[k], v.tenant, v.fqdn, v.value) && rows[k].zoneId == v.zoneId
  }

  /** Every published value has its bookkeeping row. */
  ghost predicate Booked(vs: set<Value>, rows: ChallengeRows) {
    forall v :: v in vs ==> HasRow(rows, v)
  }

  /** The schema: a row's zone exists, since deleting a zone deletes its rows. */
  ghost predicate NoOrphans(zones: Rows, rows: ChallengeRows) {
    forall k :: k in rows ==> OwnedBy(zones, rows[k].tenant, rows[k].zoneId)
  }

  /** Every value is in the longest zone of its tenant that contains the name. */
  ghost predicate Rooted(zones: Rows, tenant: string, fqdn: string, zoneId: string) {
    OwnedBy(zones, tenant, zoneId) && ContainingZone(zones, tenant, fqdn, zones[zoneId])
  }

  ghost predicate AllRooted(zones: Rows, vs: set<Value>) {
    forall v :: v in vs ==> Rooted(zones, v.tenant, v.fqdn, v.zoneId) && Lower(v.fqdn) == v.fqdn
  }

  ghost predicate RowsOK(zones: Rows, rows: ChallengeRows) {
    && ChallengesOK(rows)
    && forall k :: k in rows ==>
         && OwnName(rows[k].fqdn)
         && (OwnedBy(zones, rows[k].tenant, rows[k].zoneId) ==>
               Rooted(zones, rows[k].tenant, rows[k].fqdn, rows[k].zoneId))
  }

  /** What holds between calls while the zones are fixed. */
  ghost predicate Inv(env: ChallengeEnv, zones: Rows, server: ServerZones, rows: ChallengeRows, vs: set<Value>) {
    && ChallengeLaws(env) && ZonesOK(zones) && Filed(zones, server) && AllWellFormed(env.rules, server)
    && RowsOK(zones, rows) && AllRooted(zones, vs) && forall v :: v in vs ==> Shown(v, zones, server)
  }

  /** The server, the rows, and the values the service published and did not lose since. */
  datatype Ledger = Ledger(server: ServerZones, rows: ChallengeRows, vs: set<Value>)

  /** A value was published: exactly it joins those still shown, and unless its row could not be
  inserted every one of them has a row. */
  ghost predicate Published(zones: Rows, a: Ledger, b: Ledger, v: Value, warned: bool) {
    && b.vs == StillShown(a.vs + {v}, zones, b.server) && v in b.vs
    && (NoOrphans(zones, a.rows) ==> NoOrphans(zones, b.rows))
    && (Booked(a.vs, a.rows) && NoOrphans(zones, a.rows) && !warned ==> Booked(b.vs, b.rows))
  }

  /** Values were at most taken out: those still shown stay, and every one of them keeps its row. */
  ghost predicate TookOut(zones: Rows, a: Ledger, b: Ledger) {
    && b.vs == StillShown(a.vs, zones, b.server)
    && (NoOrphans(zones, a.rows) ==> NoOrphans(zones, b.rows))
    && (Booked(a.vs, a.rows) ==> Booked(b.vs, b.rows))
  }

  lemma AllStillShown(zones: Rows, server: ServerZones, vs: set<Value>)
    requires forall v :: v in vs ==> Shown(v, zones, server)
    ensures StillShown(vs, zones, server) == vs
  {
    hide Shown;
  }

  lemma TookNothing(zones: Rows, server: ServerZones, rows: ChallengeRows, vs: set<Value>)
    requires forall v :: v in vs ==> Shown(v, zones, server)
    ensures TookOut(zones, Ledger(server, rows, vs), Ledger(server, rows, vs))
  {
    hide Shown, Booked;
    AllStillShown(zones, server, vs);
  }

  lemma FiledIsUsable(zones: Rows, server: ServerZones, id: string)
    requires Filed(zones, server) && id in zones
    ensures Usable(zones[id], server)
  {
    hide CanonicalZone;
  }

  lemma RootedUnique(zones: Rows, tenant: string, fqdn: string, a: string, b: string)
    requires ZonesOK(zones) && Rooted(zones, tenant, fqdn, a) && Rooted(zones, tenant, fqdn, b)
    ensures a == b
  {
    hide InZone;
    ContainingZoneUnique(zones, tenant, fqdn, zones[a], zones[b]);
  }

  /** A changed TXT set leaves the rest of the system invariant alone. */
  lemma TxtStepKeeps(env: ChallengeEnv, zones: Rows, s0: ServerZones, s1: ServerZones, id: string, name: string)
    requires Filed(zones, s0) && OnlySet(s0, s1, id, name, TXT)
    ensures Filed(zones, s1)
  {
    hide CanonicalZone, SetAt;
  }

  lemma RowAddedOK(zones: Rows, rows: ChallengeRows, c: Challenge)
    requires RowsOK(zones, rows) && ChallengesOK(rows[c.id := c]) && OwnName(c.fqdn) &&
             Rooted(zones, c.tenant, c.fqdn, c.zoneId)
    ensures RowsOK(zones, rows[c.id := c])
  {
    hide Rooted, OwnName;
  }

  lemma UnbookedOK(zones: Rows, rows: ChallengeRows, tenant: string, fqdn: string, value: string)
    requires RowsOK(zones, rows)
    ensures RowsOK(zones, Unbooked(rows, tenant, fqdn, value))
    ensures NoOrphans(zones, rows) ==> NoOrphans(zones, Unbooked(rows, tenant, fqdn, value))
  {
    hide Rooted, OwnName;
  }

  /** Publishing keeps every booked value booked, and books the new one. */
  lemma PublishBooks(zones: Rows, server: ServerZones, r0: ChallengeRows, r1: ChallengeRows, vs: set<Value>, v: Value)
    requires (forall k :: k in r0 ==> k in r1 && r1[k] == r0[k])
    requires ZonesOK(zones) && RowsOK(zones, r1) && Rooted(zones, v.tenant, v.fqdn, v.zoneId)
    ensures Booked(vs, r0) && NoOrphans(zones, r1) && Noted(r1, v.tenant, v.fqdn, v.value) ==>
              Booked(StillShown(vs + {v}, zones, server), r1)
  {
    hide Shown, Rooted, OwnName, ZonesOK, ChallengesOK;
    if Booked(vs, r0) && NoOrphans(zones, r1) && Noted(r1, v.tenant, v.fqdn, v.value) {
      PublishedBooks(zones, server, r0, r1, vs, v);
    }
  }

  lemma PublishedBooks(zones: Rows, server: ServerZones, r0: ChallengeRows, r1: ChallengeRows, vs: set<Value>, v: Value)
    requires Booked(vs, r0) && (forall k :: k in r0 ==> k in r1 && r1[k] == r0[k]) &&
             Noted(r1, v.tenant, v.fqdn, v.value)
    requires ZonesOK(zones) && RowsOK(zones, r1) && NoOrphans(zones, r1) && Rooted(zones, v.tenant, v.fqdn, v.zoneId)
    ensures Booked(StillShown(vs + {v}, zones, server), r1)
  {
    hide Shown, Rooted, OwnName, ZonesOK, ChallengesOK;
    forall x | x in StillShown(vs + {v}, zones, server) ensures HasRow(r1, x) {
      if x == v {
        var k :| k in r1 && SameChallenge(r1[k], v.tenant, v.fqdn, v.value);
        RootedUnique(zones, v.tenant, v.fqdn, r1[k].zoneId, v.zoneId);
      } else {
        var k :| k in r0 && SameChallenge(r0[k], x.tenant, x.fqdn, x.value) && r0[k].zoneId == x.zoneId;
        assert k in r1;
      }
    }
  }

  /** Forgetting the row of a value that is gone keeps every shown value booked. */
  lemma RetractBooks(zones: Rows, server: ServerZones, rows: ChallengeRows, vs: set<Value>, v: Value)
    requires ZonesOK(zones) && Booked(vs, rows) && AllRooted(zones, vs) && Rooted(zones, v.tenant, v.fqdn, v.zoneId)
    requires !Shown(v, zones, server)
    ensures Booked(StillShown(vs, zones, server), Unbooked(rows, v.tenant, v.fqdn, v.value))
  {
    hide Shown, Rooted;
    var after := Unbooked(rows, v.tenant, v.fqdn, v.value);
    forall x | x in vs && (x.tenant, x.fqdn, x.value) == (v.tenant, v.fqdn, v.value) ensures x == v {
      RootedUnique(zones, v.tenant, v.fqdn, x.zoneId, v.zoneId);
    }
    forall x | x in StillShown(vs, zones, server) ensures HasRow(after, x) {
      var k :| k in rows && SameChallenge(rows[k], x.tenant, x.fqdn, x.value) && rows[k].zoneId == x.zoneId;
      assert k in after && SameChallenge(after[k], x.tenant, x.fqdn, x.value);
    }
  }

  lemma GoneFromTxt(zones: Rows, s1: ServerZones, v: Value, rs: seq<Record>)
    requires OwnedBy(zones, v.tenant, v.zoneId) &&
             TxtAt(s1, zones[v.zoneId].pdnsId, v.fqdn) == Struck(rs, {Quoted(v.value)})
    ensures !Shown(v, zones, s1)
  {
    StruckMembers(rs, {Quoted(v.value)});
    var now := TxtAt(s1, zones[v.zoneId].pdnsId, v.fqdn);
    forall i | 0 <= i < |now| ensures Contents(now)[i] != Quoted(v.value) { assert now[i] in now; }
  }

  /** The request has a primary zone of the tenant. */
  ghost predicate HasZone(zones: Rows, tenant: string, fqdn: string, z: Zone) {
    ContainingZone(zones, tenant, fqdn, z) && !NeedsMasters(z.kind)
  }

  /** Finds the tenant's zone for a request. */
  method Resolve(st: Store, env: ChallengeEnv, tenant: string, req: Request) returns (r: Result<(Zone, string)>)
    requires st.Valid()
    modifies st`faults
    ensures old(st.Clean()) ==> st.Clean()
    ensures r.Ok? ==>
              && OwnName(r.value.1) && DigestOK(req.value) && Check(env, req) == Ok(r.value.1)
              && Rooted(st.zones, tenant, r.value.1, r.value.0.id) && st.zones[r.value.0.id] == r.value.0
              && !NeedsMasters(r.value.0.kind)
    ensures r.Err? ==>
              || (r.error.InvalidChallenge? && Check(env, req).Err?)
              || (Check(env, req).Ok? && !old(st.Clean()))
              || (&& Check(env, req).Ok? && r.error.NoTenantZone?
                  && forall id :: OwnedBy(st.zones, tenant, id) ==> !InZone(Check(env, req).value, st.zones[id].name))
              || (&& Check(env, req).Ok? && r.error.Precondition?
                  && exists z :: ContainingZone(st.zones, tenant, Check(env, req).value, z) && NeedsMasters(z.kind))
    ensures forall z ::
              old(st.Clean()) && Check(env, req).Ok? && HasZone(st.zones, tenant, Check(env, req).value, z) ==>
              r == Ok((z, Check(env, req).value))
  {
    hide OwnName, InZone, CanonicalName, CanonicalFqdn;
    var f := Check(env, req);
    if f.Err? { return Err(f.error); }
    CheckedName(env, req);
    OwnCanonical(env.isDomain, f.value);
    var z := FindForName(st, env.isDomain, tenant, f.value);
    if z.Err? { return Err(if z.error.ZoneNotFound? then NoTenantZone else z.error); }
    forall x | ContainingZone(st.zones, tenant, f.value, x) ensures x == z.value {
      ContainingZoneUnique(st.zones, tenant, f.value, x, z.value);
    }
    if NeedsMasters(z.value.kind) { return Err(Precondition); }
    r := Ok((z.value, f.value));
  }

  /** Publishes the value of a request. `warned` says that the bookkeeping failed, which the
  source only logs. */
  method Present(st: Store, pd: Server, env: ChallengeEnv, tenant: string, req: Request, id: string, at: int,
                 ghost vs: set<Value>)
    returns (r: Result<string>, warned: bool, ghost now: set<Value>)
    requires st.Valid() && Inv(env, st.zones, pd.zones, st.challenges, vs) && id !in st.challenges
    modifies st`faults, st`challenges, pd`faults, pd`zones
    ensures old(st.Clean()) ==> st.Clean() && !warned
    ensures old(pd.Clean()) ==> pd.Clean()
    ensures Inv(env, st.zones, pd.zones, st.challenges, now)
    // the value joins those published, at the end of its set, and is booked with the time given
    ensures r.Ok? ==>
              exists z, fqdn ::
                && Check(env, req) == Ok(fqdn) && ContainingZone(st.zones, tenant, fqdn, z) && r.value == z.name
                && Published(st.zones, Ledger(old(pd.zones), old(st.challenges), vs),
                             Ledger(pd.zones, st.challenges, now),
                             Value(tenant, z.id, fqdn, req.value), warned)
                && OnlySet(old(pd.zones), pd.zones, z.pdnsId, fqdn, TXT)
                && OneEdit(env.rules, z, old(pd.zones), pd.zones)
                && TxtAt(pd.zones, z.pdnsId, fqdn) == With(old(TxtAt(pd.zones, z.pdnsId, fqdn)), Quoted(req.value))
                && (old(Quoted(req.value) in Contents(TxtAt(pd.zones, z.pdnsId, fqdn))) ==> pd.zones == old(pd.zones))
                && (st.challenges == old(st.challenges) ||
                    st.challenges == old(st.challenges)[id := Challenge(id, tenant, z.id, fqdn, req.value, at)])
                && (old(Noted(st.challenges, tenant, fqdn, req.value)) ==> st.challenges == old(st.challenges))
                && (old(Publishable(env, z, pd.zones, fqdn) &&
                        Quoted(req.value) !in Contents(TxtAt(pd.zones, z.pdnsId, fqdn))) ==>
                      Retractable(env.rules, z, pd.zones, fqdn))
    ensures r.Err? ==> pd.zones == old(pd.zones) && st.challenges == old(st.challenges) && now == vs && !warned
    ensures old(st.Clean() && pd.Clean()) && Check(env, req).Ok? ==>
              forall z ::
                HasZone(st.zones, tenant, Check(env, req).value, z) &&
                Publishable(env, z, old(pd.zones), Check(env, req).value) ==>
                  r.Ok?
  {
    hide Check, OwnName, AllWellFormed, ChallengeLaws, Filed, ZonesOK, RowsOK, Shown, InZone, OnlySet, ChallengesOK,
      ContainingZone, SyncOK, SetAt, Noted, HasRow, Booked, StillShown, CanonicalZone, AllRooted, Publishable,
      Retractable, HasZone, Contents, TxtAt, With, OneEdit;
    warned, now := false, vs;
    var got := Resolve(st, env, tenant, req);
    if got.Err? { return Err(got.error), false, now; }
    var z, fqdn := got.value.0, got.value.1;
    FiledIsUsable(st.zones, pd.zones, z.id);
    RowsUnique(st.zones, st.challenges);
    var err;
    err, warned := Publish(st, pd, env, z, fqdn, req.value, id, at);
    if err.Some? { return Err(err.value), false, now; }
    ghost var v := Value(tenant, z.id, fqdn, req.value);
    now := StillShown(vs + {v}, st.zones, pd.zones);
    TxtStepKeeps(env, st.zones, old(pd.zones), pd.zones, z.pdnsId, fqdn);
    if st.challenges != old(st.challenges) {
      RowAddedOK(st.zones, old(st.challenges), Challenge(id, z.tenant, z.id, fqdn, req.value, at));
    }
    LowerName(fqdn);
    NowShown(st.zones, pd.zones, vs, v, old(TxtAt(pd.zones, z.pdnsId, fqdn)));
    PublishBooks(st.zones, pd.zones, old(st.challenges), st.challenges, vs, v);
    r := Ok(z.name);
  }

  lemma RowsUnique(zones: Rows, rows: ChallengeRows)
    requires RowsOK(zones, rows)
    ensures ChallengesOK(rows)
  {
    hide Rooted, OwnName, ChallengesOK;
  }

  lemma NowShown(zones: Rows, server: ServerZones, vs: set<Value>, v: Value, rs: seq<Record>)
    requires AllRooted(zones, vs) && Rooted(zones, v.tenant, v.fqdn, v.zoneId) && Lower(v.fqdn) == v.fqdn
    requires TxtAt(server, zones[v.zoneId].pdnsId, v.fqdn) == With(rs, Quoted(v.value))
    ensures v in StillShown(vs + {v}, zones, server) && AllRooted(zones, StillShown(vs + {v}, zones, server))
    ensures forall x :: x in StillShown(vs + {v}, zones, server) ==> Shown(x, zones, server)
  {
    hide ContainingZone, SetAt;
    var now := TxtAt(server, zones[v.zoneId].pdnsId, v.fqdn);
    assert Quoted(v.value) in Contents(now) by {
      if Quoted(v.value) !in Contents(rs) { assert Contents(now)[|now| - 1] == Quoted(v.value); }
    }
  }

  lemma StillRooted(zones: Rows, server: ServerZones, vs: set<Value>)
    requires AllRooted(zones, vs)
    ensures AllRooted(zones, StillShown(vs, zones, server))
    ensures forall x :: x in StillShown(vs, zones, server) ==> Shown(x, zones, server)
  {
    hide Rooted, Shown;
  }

  /** Retracts the value of a request; absent is fine. */
  method CleanUp(st: Store, pd: Server, env: ChallengeEnv, tenant: string, req: Request, ghost vs: set<Value>)
    returns (r: Result<string>, ghost now: set<Value>)
    requires st.Valid() && Inv(env, st.zones, pd.zones, st.challenges, vs)
    modifies st`faults, st`challenges, pd`faults, pd`zones
    ensures old(st.Clean()) ==> st.Clean()
    ensures old(pd.Clean()) ==> pd.Clean()
    ensures Inv(env, st.zones, pd.zones, st.challenges, now)
    ensures TookOut(st.zones, Ledger(old(pd.zones), old(st.challenges), vs), Ledger(pd.zones, st.challenges, now))
    // whatever zone the value was published in, it is gone
    ensures r.Ok? ==>
              && Check(env, req).Ok?
              && (forall v :: v in now ==> (v.tenant, v.fqdn, v.value) != (tenant, Check(env, req).value, req.value))
              && exists z :: ContainingZone(st.zones, tenant, Check(env, req).value, z) && r.value == z.name &&
                             OnlySet(old(pd.zones), pd.zones, z.pdnsId, Check(env, req).value, TXT) &&
                             OneEdit(env.rules, z, old(pd.zones), pd.zones) &&
                             TxtAt(pd.zones, z.pdnsId, Check(env, req).value) ==
                             Struck(old(TxtAt(pd.zones, z.pdnsId, Check(env, req).value)), {Quoted(req.value)})
    ensures r.Err? ==> pd.zones == old(pd.zones) && st.challenges == old(st.challenges) && now == vs
    ensures old(st.Clean() && pd.Clean()) && Check(env, req).Ok? ==>
              forall z ::
                HasZone(st.zones, tenant, Check(env, req).value, z) &&
                Retractable(env.rules, z, old(pd.zones), Check(env, req).value) ==>
                  r.Ok?
  {
    hide Check, OwnName, AllWellFormed, ChallengeLaws, Filed, ZonesOK, RowsOK, Shown, InZone, OnlySet, ChallengesOK,
      ContainingZone, SyncOK, SetAt, Noted, HasRow, Booked, StillShown, CanonicalZone, AllRooted, Unbooked, Retractable,
      HasZone, OneEdit;
    now := vs;
    TookNothing(st.zones, pd.zones, st.challenges, vs);
    var got := Resolve(st, env, tenant, req);
    if got.Err? { return Err(got.error), now; }
    var z, fqdn := got.value.0, got.value.1;
    FiledIsUsable(st.zones, pd.zones, z.id);
    RowsUnique(st.zones, st.challenges);
    var err, warned := Retract(st, pd, env, z, fqdn, req.value);
    if err.Some? { return Err(err.value), now; }
    ghost var v := Value(tenant, z.id, fqdn, req.value);
    now := StillShown(vs, st.zones, pd.zones);
    AfterRetract(env, st.zones, old(pd.zones), pd.zones, old(st.challenges), st.challenges, vs, v, warned);
    r := Ok(z.name);
  }

  /** What a retraction leaves of the invariant, and that the value is gone from every zone. */
  lemma AfterRetract(env: ChallengeEnv, zones: Rows, s0: ServerZones, s1: ServerZones, r0: ChallengeRows,
                     r1: ChallengeRows, vs: set<Value>, v: Value, warned: bool)
    requires Inv(env, zones, s0, r0, vs) && AllWellFormed(env.rules, s1) && Rooted(zones, v.tenant, v.fqdn, v.zoneId)
    requires OnlySet(s0, s1, zones[v.zoneId].pdnsId, v.fqdn, TXT)
    requires TxtAt(s1, zones[v.zoneId].pdnsId, v.fqdn) ==
             Struck(TxtAt(s0, zones[v.zoneId].pdnsId, v.fqdn), {Quoted(v.value)})
    requires r1 == if warned then r0 else Unbooked(r0, v.tenant, v.fqdn, v.value)
    ensures Inv(env, zones, s1, r1, StillShown(vs, zones, s1)) && !Shown(v, zones, s1)
    ensures TookOut(zones, Ledger(s0, r0, vs), Ledger(s1, r1, StillShown(vs, zones, s1)))
    ensures forall x :: x in StillShown(vs, zones, s1) ==> (x.tenant, x.fqdn, x.value) != (v.tenant, v.fqdn, v.value)
  {
    hide AllWellFormed, ChallengeLaws, Filed, ZonesOK, RowsOK, OnlySet, Rooted, Unbooked, TxtAt, Shown;
    RootedOwned(zones, v);
    TxtStepKeeps(env, zones, s0, s1, zones[v.zoneId].pdnsId, v.fqdn);
    UnbookedOK(zones, r0, v.tenant, v.fqdn, v.value);
    StillRooted(zones, s1, vs);
    GoneFromTxt(zones, s1, v, TxtAt(s0, zones[v.zoneId].pdnsId, v.fqdn));
    if Booked(vs, r0) {
      if !warned { RetractBooks(zones, s1, r0, vs, v); }
    }
    forall x | x in vs && (x.tenant, x.fqdn, x.value) == (v.tenant, v.fqdn, v.value) ensures !Shown(x, zones, s1) {
      RootedUnique(zones, v.tenant, v.fqdn, x.zoneId, v.zoneId);
    }
  }

  lemma RootedOwned(zones: Rows, v: Value)
    requires Rooted(zones, v.tenant, v.fqdn, v.zoneId)
    ensures OwnedBy(zones, v.tenant, v.zoneId)
  {
  }
}
