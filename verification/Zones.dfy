/** The zone lifecycle (internal/zones/zones.go): server-first writes with compensation, over
the row store and the authoritative server. Every call may fail; `residue` reports the logged
case in which the compensating call failed too. */
module Zones {
  import opened Strings
  import opened Names
  import opened Wrappers
  import opened Model
  import opened RecordSets
  import opened Pdns
  import opened Memstore
  import opened Records
  import opened Ownership
  import opened Templates

  const MAX_DESCRIPTION := 1000
  const MAX_NAMESERVERS := 16

  /** What the service is configured with: the record rules, the Public Suffix List and the
  validation of primary addresses (their canonical forms, or None). */
  datatype Env = Env(rules: Rules, isSuffix: string -> bool, masters: seq<string> -> Option<seq<string>>)

  /** A new zone; an unknown kind spelling is `None`. */
  datatype CreateInput = CreateInput(
    name: string, kind: Option<Kind>, masters: seq<string>, nameservers: seq<string>, dnssec: bool,
    description: string, templateId: string, origin: Origin)

  /** Changes to a zone; `None` keeps the value. A kind given with an unknown spelling is `Some(None)`. */
  datatype UpdateInput = UpdateInput(
    kind: Option<Option<Kind>>, masters: Option<seq<string>>, dnssec: Option<bool>, description: Option<string>)

  // ----- validation

  function KindMasters(env: Env, kind: Option<Kind>, masters: seq<string>): Result<seq<string>> {
    if kind.None? then Err(InvalidKind)
    else
      var m := env.masters(masters);
      if m.None? then Err(BadMasters)
      else if NeedsMasters(kind.value) && m.value == [] then Err(InvalidKind)
      else if !NeedsMasters(kind.value) && m.value != [] then Err(BadMasters)
      else Ok(m.value)
  }

  /** Canonical host names, each once. */
  ghost predicate HostList(hs: seq<string>) {
    Distinct(hs) && forall h :: h in hs ==> Hostname(h) == Some(h)
  }

  method Nameservers(kind: Kind, hosts: seq<string>) returns (r: Result<seq<string>>)
    ensures r.Ok? ==> HostList(r.value)
    ensures r.Ok? && (NeedsMasters(kind) || hosts == []) ==> r.value == []
    ensures r.Ok? && !NeedsMasters(kind) ==>
              && |hosts| <= MAX_NAMESERVERS
              && (forall n :: n in hosts ==> Hostname(n).Some? && Hostname(n).value in r.value)
              && (forall h :: h in r.value ==> exists n :: n in hosts && Hostname(n) == Some(h))
    ensures r.Err? <==>
              !NeedsMasters(kind) && (|hosts| > MAX_NAMESERVERS || exists n :: n in hosts && Hostname(n).None?)
  {
    hide Hostname;
    if NeedsMasters(kind) { return Ok([]); }
    if |hosts| > MAX_NAMESERVERS { return Err(InvalidInput); }
    var out: seq<string> := [];
    var seen: set<string> := {};
    var i := 0;
    while i < |hosts|
      invariant 0 <= i <= |hosts|
      invariant HostList(out) && |out| <= i
      invariant forall h :: h in seen <==> h in out
      invariant forall k :: 0 <= k < i ==> Hostname(hosts[k]).Some? && Hostname(hosts[k]).value in out
      invariant forall h :: h in out ==> exists n :: n in hosts && Hostname(n) == Some(h)
    {
      var h := Hostname(hosts[i]);
      if h.None? { return Err(BadName); }
      HostnameIdempotent(hosts[i]);
      if h.value !in seen {
        seen := seen + {h.value};
        out := out + [h.value];
      }
      i := i + 1;
    }
    r := Ok(out);
  }

  /** A request that validation accepts. */
  ghost predicate InputOK(env: Env, human: bool, inp: CreateInput) {
    && ZoneName(env.isSuffix, inp.name).Some? && KindMasters(env, inp.kind, inp.masters).Ok?
    && (NeedsMasters(inp.kind.value) ||
        (|inp.nameservers| <= MAX_NAMESERVERS && forall n :: n in inp.nameservers ==> Hostname(n).Some?))
    && |Trim(inp.description)| <= MAX_DESCRIPTION && !(human && inp.origin.Ipam?)
  }

  /** The row of a request. A secondary takes its name servers from its primary. */
  ghost predicate RowFor(env: Env, tenant: string, inp: CreateInput, newId: string, z: Zone) {
    && z.id == newId && z.tenant == tenant && ZoneName(env.isSuffix, inp.name) == Some(z.name) && z.pdnsId == z.name
    && inp.kind == Some(z.kind) && KindMasters(env, inp.kind, inp.masters) == Ok(z.masters) && z.dnssec == inp.dnssec
    && z.description == Trim(inp.description) && z.templateId == inp.templateId && z.origin == inp.origin
    && HostList(z.nameservers)
    && forall h :: h in z.nameservers <==>
         !NeedsMasters(z.kind) && exists n :: n in inp.nameservers && Hostname(n) == Some(h)
  }

  /** The row a create request stands for, before any store is asked. */
  method Prepare(env: Env, tenant: string, human: bool, inp: CreateInput, newId: string) returns (r: Result<Zone>)
    ensures r.Ok? <==> InputOK(env, human, inp)
    ensures r.Ok? ==> RowFor(env, tenant, inp, newId, r.value)
  {
    hide ZoneName, Hostname, Trim;
    var name := ZoneName(env.isSuffix, inp.name);
    if name.None? { return Err(BadName); }
    var m := KindMasters(env, inp.kind, inp.masters);
    if m.Err? { return Err(m.error); }
    var ns := Nameservers(inp.kind.value, inp.nameservers);
    if ns.Err? { return Err(ns.error); }
    var description := Trim(inp.description);
    if |description| > MAX_DESCRIPTION { return Err(InvalidInput); }
    if inp.origin.Ipam? && human { return Err(InvalidInput); }
    r := Ok(Zone(newId, tenant, name.value, name.value, inp.kind.value, m.value, inp.dnssec,
                 description, inp.templateId, inp.origin, ns.value));
  }

  // ----- the record sets of a new zone

  predicate ApexNS(zone: string, r: RRset) { r.name == zone && r.typ.NS? }

  /** Folds the nameservers into an apex NS set of the initial record sets, which the server
  does not accept beside a nameserver list. */
  method MergeApexNS(zone: string, sets: seq<RRset>, nameservers: seq<string>)
    returns (out: seq<RRset>, ns: seq<string>)
    ensures Merged(zone, sets, nameservers, out, ns)
  {
    hide Lower;
    var idx: Option<nat> := None;
    var i := 0;
    while i < |sets|
      invariant 0 <= i <= |sets|
      invariant idx.Some? ==> idx.value < i && ApexNS(zone, sets[idx.value])
      invariant idx.None? ==> forall k :: 0 <= k < i ==> !ApexNS(zone, sets[k])
    {
      if ApexNS(zone, sets[i]) { idx := Some(i); }
      i := i + 1;
    }
    if idx.None? || nameservers == [] { return sets, nameservers; }
    var k := idx.value;
    assert sets[k] in sets;
    var seen := set r | r in sets[k].records :: Lower(r.content);
    var added: seq<string> := [];
    var j := 0;
    while j < |nameservers|
      invariant 0 <= j <= |nameservers|
      invariant forall n :: n in added ==> n in nameservers && n !in (set r | r in sets[k].records :: Lower(r.content))
      invariant seen == (set r | r in sets[k].records :: Lower(r.content)) + (set n | n in added)
      invariant Distinct(added)
      invariant forall m :: 0 <= m < j ==> nameservers[m] in seen
    {
      if nameservers[j] !in seen {
        seen := seen + {nameservers[j]};
        added := added + [nameservers[j]];
      }
      j := j + 1;
    }
    out := sets[k := sets[k].(records := sets[k].records + Enabled(added))];
    ns := [];
    assert MergedAt(zone, sets, nameservers, k, added, out);
  }

  /** Without an apex NS set both lists stay; else its values get the name servers it lacks. */
  ghost predicate Merged(zone: string, sets: seq<RRset>, nameservers: seq<string>, out: seq<RRset>, ns: seq<string>) {
    if nameservers != [] && exists r :: r in sets && ApexNS(zone, r)
    then ns == [] && exists i, added :: MergedAt(zone, sets, nameservers, i, added, out)
    else out == sets && ns == nameservers
  }

  ghost predicate MergedAt(zone: string, sets: seq<RRset>, nameservers: seq<string>, i: nat, added: seq<string>,
                           out: seq<RRset>) {
    && i < |sets| && ApexNS(zone, sets[i])
    && out == sets[i := sets[i].(records := sets[i].records + Enabled(added))]
    && Distinct(added)
    && (forall n :: n in added ==> n in nameservers && forall r :: r in sets[i].records ==> Lower(r.content) != n)
    && (forall n :: n in nameservers ==> n in added || exists r :: r in sets[i].records && Lower(r.content) == n)
  }

  lemma {:induction false} AddSetsAppends(base: seq<RRset>, extra: seq<RRset>)
    requires UniqueKeys(base + extra)
    ensures AddSets(base, extra) == base + extra
    decreases |extra|
  {
    if extra == [] {
      assert base + extra == base;
    } else {
      var all := base + extra;
      forall i | 0 <= i < |base| ensures !SameKey(base[i], extra[0].name, extra[0].typ) {
        assert all[i] == base[i] && all[|base|] == extra[0];
      }
      ReplaceAppends(base, extra[0]);
      assert (base + [extra[0]]) + extra[1..] == all;
      AddSetsAppends(base + [extra[0]], extra[1..]);
    }
  }

  lemma {:induction false} ReplaceAppends(sets: seq<RRset>, r: RRset)
    requires forall i :: 0 <= i < |sets| ==> !SameKey(sets[i], r.name, r.typ)
    ensures ReplaceInPlace(sets, r) == sets + [r]
  {
    if sets != [] {
      ReplaceAppends(sets[1..], r);
      assert sets + [r] == [sets[0]] + (sets[1..] + [r]);
    }
  }

  lemma BaseWellFormed(rules: Rules, zone: string, ns: seq<string>)
    requires ParserLaws(rules) && CanonicalZone(zone) == Some(zone) && HostList(ns)
    ensures WellFormed(rules, zone, BaseSets(zone, ns))
  {
    hide ParserLaws, Lower, HostList, SetOK, CanonicalZone;
    SoaOK(rules, zone, ns);
    var base := BaseSets(zone, ns);
    if ns != [] {
      ServersOK(rules, zone, ns);
      assert |base| == 2 && base[1] == RRset(zone, NS, SOA_TTL, Enabled(ns), []);
    }
  }

  lemma SoaOK(rules: Rules, zone: string, ns: seq<string>)
    requires CanonicalZone(zone) == Some(zone)
    ensures SetOK(rules, zone, BaseSets(zone, ns)[0]) && Lower(zone) == zone
  {
    hide Lower;
    SplitNameCanonical(zone);
  }

  lemma ServersOK(rules: Rules, zone: string, ns: seq<string>)
    requires ParserLaws(rules) && HostList(ns) && ns != [] && Lower(zone) == zone
    ensures SetOK(rules, zone, RRset(zone, NS, SOA_TTL, Enabled(ns), []))
  {
    hide Hostname, Lower;
    forall i | 0 <= i < |ns| ensures rules.content(NS, ns[i]) == Some(ns[i]) { assert ns[i] in ns; }
  }

  /** Initial sets that are well formed, editable and free of an apex NS beside a nameserver
  list make a well-formed zone. */
  lemma NewZoneWellFormed(rules: Rules, zone: string, ns: seq<string>, extra: seq<RRset>)
    requires WellFormed(rules, zone, BaseSets(zone, ns))
    requires WellFormed(rules, zone, extra) && (forall r :: r in extra ==> Editable(r.typ))
    requires ns != [] ==> forall r :: r in extra ==> !ApexNS(zone, r)
    ensures WellFormed(rules, zone, AddSets(BaseSets(zone, ns), extra))
  {
    hide SetOK, Enabled;
    var base := BaseSets(zone, ns);
    var all := base + extra;
    forall i, j | 0 <= i < j < |all| ensures !SameKey(all[i], all[j].name, all[j].typ) {
      if i < |base| && |base| <= j {
        assert all[j] in extra;
      }
    }
    AddSetsAppends(base, extra);
    forall a, b | a in all && b in all && a.typ.CNAME? && a.name == b.name ensures b.typ.CNAME? {
      if a in extra { assert SetOK(rules, zone, a); ApexFree(rules, zone, a); }
    }
  }

  lemma ApexFree(rules: Rules, zone: string, r: RRset)
    requires SetOK(rules, zone, r) && r.typ.CNAME?
    ensures r.name != zone
  {
  }

  lemma MergedSetOK(rules: Rules, zone: string, r: RRset, nameservers: seq<string>, added: seq<string>)
    requires ParserLaws(rules) && SetOK(rules, zone, r) && ApexNS(zone, r) && HostList(nameservers) && Distinct(added)
    requires forall n :: n in added ==> n in nameservers && forall x :: x in r.records ==> Lower(x.content) != n
    ensures SetOK(rules, zone, r.(records := r.records + Enabled(added)))
  {
    hide Hostname, InZone;
    var rs := r.records + Enabled(added);
    forall i | 0 <= i < |added|
      ensures rules.content(NS, added[i]) == Some(added[i]) && Lower(added[i]) == added[i]
    {
      assert added[i] in added;
      HostnameIdempotent(added[i]);
    }
    forall i, j | 0 <= i < j < |rs| ensures rs[i].content != rs[j].content {
      if i < |r.records| && |r.records| <= j {
        assert r.records[i] in r.records;
        assert added[j - |r.records|] in added;
      }
    }
  }

  lemma MergedWellFormed(rules: Rules, zone: string, sets: seq<RRset>, nameservers: seq<string>, i: nat,
                         added: seq<string>, out: seq<RRset>)
    requires ParserLaws(rules) && WellFormed(rules, zone, sets) && HostList(nameservers)
    requires forall r :: r in sets ==> Editable(r.typ)
    requires MergedAt(zone, sets, nameservers, i, added, out)
    ensures WellFormed(rules, zone, out)
    ensures forall r :: r in out ==> Editable(r.typ)
    ensures forall r :: r in sets ==> InZone(r.name, zone)
    ensures forall r :: r in out ==> InZone(r.name, zone)
  {
    hide ParserLaws, HostList, InZone;
    assert sets[i] in sets;
    assert SetOK(rules, zone, sets[i]);
    MergedSetOK(rules, zone, sets[i], nameservers, added);
    forall r | r in sets ensures InZone(r.name, zone) { assert SetOK(rules, zone, r); }
    forall j | 0 <= j < |out|
      ensures out[j].name == sets[j].name && out[j].typ == sets[j].typ && Editable(out[j].typ) &&
              SetOK(rules, zone, out[j])
    {
      assert sets[j] in sets;
    }
    forall a, b | a in out && b in out && a.typ.CNAME? && a.name == b.name ensures b.typ.CNAME? {
      var x :| 0 <= x < |out| && out[x] == a;
      var y :| 0 <= y < |out| && out[y] == b;
      assert sets[x] in sets && sets[y] in sets;
    }
  }

  // ----- create

  /** The server's metadata of the zone is the row's. */
  ghost predicate Agrees(z: Zone, server: ServerZones) {
    && z.pdnsId in server
    && var s := server[z.pdnsId];
       s.kind == z.kind && s.masters == z.masters && s.dnssec == z.dnssec && s.account == z.tenant
  }

  ghost predicate GoodSets(rules: Rules, zone: string, sets: seq<RRset>) {
    WellFormed(rules, zone, sets) && forall r :: r in sets ==> Editable(r.typ)
  }

  /** The zone asks for no template, or for one of the tenant's that expands for it. */
  ghost predicate TemplateOK(env: Env, templates: TemplateRows, z: Zone) {
    z.templateId == "" ||
    (&& !NeedsMasters(z.kind) && z.templateId in templates && templates[z.templateId].tenant == z.tenant
     && var recs := templates[z.templateId].records;
        && |recs| <= MAX_TEMPLATE_RECORDS && AllSingle(env.rules, z.name, recs)
        && Mergeable(env.rules, z.name, ItemsOf(env.rules, z.name, recs)))
  }

  /** The initial record sets: none, or the template's expansion. */
  ghost predicate FromTemplate(env: Env, templates: TemplateRows, z: Zone, sets: seq<RRset>) {
    if z.templateId == "" then sets == []
    else z.templateId in templates && Expansion(env.rules, z.name, templates[z.templateId].records, sets)
  }

  /** The template's record sets for the zone; none without a template. */
  method Initial(st: Store, env: Env, z: Zone) returns (r: Result<seq<RRset>>)
    requires ZoneName(env.isSuffix, z.name) == Some(z.name)
    modifies st`faults
    ensures old(st.Clean()) ==> st.Clean()
    ensures r.Ok? && ParserLaws(env.rules) ==>
              GoodSets(env.rules, z.name, r.value) && FromTemplate(env, st.templates, z, r.value)
    ensures z.templateId == "" ==> r == Ok([])
    ensures old(st.Clean()) && ParserLaws(env.rules) ==> (r.Ok? <==> TemplateOK(env, st.templates, z))
  {
    hide ZoneName, ParserLaws, WellFormed, AllSingle, Mergeable, ItemsOf;
    if z.templateId == "" {
      EmptyGood(env.rules, z.name);
      return Ok([]);
    }
    if NeedsMasters(z.kind) { return Err(InvalidKind); }
    var t := st.GetTemplate(z.tenant, z.templateId);
    if t.Err? { return Err(if t.error.RowNotFound? then TemplateNotFound else t.error); }
    r := ExpandRecords(env.rules, env.isSuffix, z.name, t.value.records);
  }

  lemma EmptyGood(rules: Rules, zone: string)
    ensures GoodSets(rules, zone, [])
  {
  }

  /** The server zone a create request makes is well formed. */
  lemma CreatedWellFormed(rules: Rules, zone: string, nameservers: seq<string>, sets: seq<RRset>, out: seq<RRset>,
                          ns: seq<string>)
    requires ParserLaws(rules) && CanonicalZone(zone) == Some(zone) && HostList(nameservers) &&
             GoodSets(rules, zone, sets)
    requires Merged(zone, sets, nameservers, out, ns)
    ensures WellFormed(rules, zone, AddSets(BaseSets(zone, ns), out))
    ensures InitialOK(zone, ns, out)
  {
    hide ParserLaws, HostList, CanonicalZone, WellFormed, MergedAt, SetOK;
    if nameservers != [] && exists r :: r in sets && ApexNS(zone, r) {
      var i, added :| MergedAt(zone, sets, nameservers, i, added, out);
      MergedWellFormed(rules, zone, sets, nameservers, i, added, out);
      HostListEmpty();
      BaseWellFormed(rules, zone, []);
    } else {
      BaseWellFormed(rules, zone, ns);
      GoodInZone(rules, zone, sets);
    }
    NewZoneWellFormed(rules, zone, ns, out);
  }

  lemma HostListEmpty()
    ensures HostList([])
  {
  }

  lemma GoodInZone(rules: Rules, zone: string, sets: seq<RRset>)
    requires WellFormed(rules, zone, sets)
    ensures forall r :: r in sets ==> InZone(r.name, zone)
  {
    hide InZone;
    forall r | r in sets ensures InZone(r.name, zone) { assert SetOK(rules, zone, r); }
  }

  /** Why nothing can be created under the name: taken by the tenant, overlapped by another
  tenant, or already on the server. */
  ghost predicate CreateRefused(zones: Rows, server: ServerZones, tenant: string, name: string) {
    || HasName(zones, tenant, name) || Conflict(zones, tenant, name) || name in server
    || exists id :: id in zones && zones[id].pdnsId == name
  }

  lemma LowerZone(isSuffix: string -> bool, name: string)
    requires ZoneName(isSuffix, name) == Some(name)
    ensures Lower(name) == name
  {
    hide ZoneName, Lower, CanonicalZone;
    ZoneNameIdempotent(isSuffix, name);
  }

  /** The ownership rules: the tenant has no zone of the name, no other tenant's zone overlaps
  it, and the server does not hold it. */
  method Vacant(st: Store, pd: Server, tenant: string, name: string) returns (err: Option<Error>)
    requires Lower(name) == name
    modifies st`faults, pd`faults
    ensures old(st.Clean()) ==> st.Clean()
    ensures old(pd.Clean()) ==> pd.Clean()
    ensures err.None? ==>
              !HasName(st.zones, tenant, name) && !Conflict(st.zones, tenant, name) && name !in pd.zones && !pd.down
    ensures err.Some? && old(st.Clean() && pd.Clean()) ==>
              err.value.Duplicate? && CreateRefused(st.zones, pd.zones, tenant, name)
  {
    var own := st.GetZoneByName(tenant, name);
    if own.Ok? { return Some(Duplicate); }
    if !own.error.RowNotFound? { return Some(own.error); }
    var taken := st.ZoneConflict(tenant, name);
    if taken.Err? { return Some(taken.error); }
    if taken.value { return Some(Duplicate); }
    var got := pd.GetZone(name);
    if got.Ok? { return Some(Duplicate); }
    err := if got.error.ServerNotFound? then None else Some(MapServer(got.error));
  }

  /** The checks before anything is written: the request, the template, and the ownership
  rules (same tenant, other tenants, the server). */
  method Admit(st: Store, pd: Server, env: Env, tenant: string, human: bool, inp: CreateInput, newId: string)
    returns (r: Result<(Zone, seq<RRset>)>)
    modifies st`faults, pd`faults
    ensures old(st.Clean()) ==> st.Clean()
    ensures old(pd.Clean()) ==> pd.Clean()
    ensures r.Ok? ==>
              var z := r.value.0;
              && RowFor(env, tenant, inp, newId, z) && ZoneName(env.isSuffix, z.name) == Some(z.name)
              && !HasName(st.zones, tenant, z.name) && !Conflict(st.zones, tenant, z.name) && z.name !in pd.zones
              && !pd.down
              && (ParserLaws(env.rules) ==>
                    GoodSets(env.rules, z.name, r.value.1) && FromTemplate(env, st.templates, z, r.value.1))
    ensures r.Ok? && PlainInput(env, human, inp) ==> r.value.0.nameservers == [] && r.value.1 == []
    ensures r.Ok? ==> InputOK(env, human, inp)
    // without faults only a taken name refuses an acceptable request
    ensures r.Err? && old(st.Clean() && pd.Clean()) && Acceptable(env, st.templates, tenant, human, inp, newId) ==>
              r.error.Duplicate? && CreateRefused(st.zones, pd.zones, tenant, ZoneName(env.isSuffix, inp.name).value)
  {
    hide ZoneName, ParserLaws, RowFor, TemplateOK, FromTemplate, InputOK, GoodSets, PlainInput, Acceptable, Conflict,
      HasName, HostList, CreateRefused;
    if PlainInput(env, human, inp) { PlainIsOK(env, st.templates, tenant, human, inp, newId); }
    AcceptableRow(env, st.templates, tenant, human, inp, newId);
    var p := Prepare(env, tenant, human, inp, newId);
    if p.Err? { return Err(p.error); }
    var z := p.value;
    RowFacts(env, tenant, inp, newId, z);
    ZoneNameIdempotent(env.isSuffix, inp.name);
    var tpl := Initial(st, env, z);
    if tpl.Err? { return Err(tpl.error); }
    LowerZone(env.isSuffix, z.name);
    var err := Vacant(st, pd, tenant, z.name);
    r := if err.Some? then Err(err.value) else Ok((z, tpl.value));
  }

  /** The request is valid, and so is its template for the zone. */
  ghost predicate Acceptable(env: Env, templates: TemplateRows, tenant: string, human: bool, inp: CreateInput,
                             newId: string) {
    && InputOK(env, human, inp) && (PlainInput(env, human, inp) || ParserLaws(env.rules))
    && forall z :: RowFor(env, tenant, inp, newId, z) ==> TemplateOK(env, templates, z)
  }

  lemma AcceptableRow(env: Env, templates: TemplateRows, tenant: string, human: bool, inp: CreateInput, newId: string)
    ensures Acceptable(env, templates, tenant, human, inp, newId) ==>
              InputOK(env, human, inp) && (inp.templateId == "" || ParserLaws(env.rules))
    ensures Acceptable(env, templates, tenant, human, inp, newId) ==>
              forall z :: RowFor(env, tenant, inp, newId, z) ==> TemplateOK(env, templates, z)
  {
    hide InputOK, RowFor, TemplateOK, ParserLaws, ZoneName, KindMasters;
  }

  lemma PlainIsOK(env: Env, templates: TemplateRows, tenant: string, human: bool, inp: CreateInput, newId: string)
    requires PlainInput(env, human, inp)
    ensures Acceptable(env, templates, tenant, human, inp, newId) && inp.templateId == ""
    ensures forall z :: RowFor(env, tenant, inp, newId, z) ==> z.nameservers == []
  {
    hide ZoneName, KindMasters, ParserLaws;
    forall z | RowFor(env, tenant, inp, newId, z) ensures z.nameservers == [] { NoneListed(z.nameservers); }
  }

  lemma NoneListed(hs: seq<string>)
    ensures (forall h :: h !in hs) ==> hs == []
  {
    if hs != [] { assert hs[0] in hs; }
  }

  lemma RowFacts(env: Env, tenant: string, inp: CreateInput, newId: string, z: Zone)
    requires RowFor(env, tenant, inp, newId, z)
    ensures z.id == newId && z.tenant == tenant && ZoneName(env.isSuffix, inp.name) == Some(z.name) &&
            z.pdnsId == z.name
    ensures z.templateId == inp.templateId && inp.kind == Some(z.kind) && HostList(z.nameservers)
  {
  }

  function CreatedZone(z: Zone, ns: seq<string>, sets: seq<RRset>): ServerZone {
    NewZone(z.name, z.kind, z.masters, z.dnssec, z.tenant, ns, sets)
  }

  /** The server first, then the row; a row that cannot be inserted takes the server zone away again. */
  method Commit(st: Store, pd: Server, z: Zone, ns: seq<string>, sets: seq<RRset>)
    returns (err: Option<Error>, residue: bool)
    requires z.pdnsId == z.name
    modifies st`faults, st`zones, pd`faults, pd`zones
    ensures old(st.Clean()) ==> st.Clean()
    ensures old(pd.Clean()) ==> pd.Clean()
    ensures err.None? ==>
              && Inserts(old(st.zones), st.zones, z) && z.name !in old(pd.zones) && !residue && !pd.down
              && pd.zones == old(pd.zones)[z.name := CreatedZone(z, ns, sets)]
    ensures err.Some? ==>
              && st.zones == old(st.zones)
              && (!residue ==> pd.zones == old(pd.zones))
              && (residue ==> z.name !in old(pd.zones) && pd.zones == old(pd.zones)[z.name := CreatedZone(z, ns, sets)])
    ensures err.Some? && old(st.Clean() && pd.Clean()) ==>
              && !residue
              && ((err.value.Duplicate? && (z.name in pd.zones || NameTaken(st.zones, z)))
                  || (err.value.Rejected? && (!HasSuffix(z.name, ".") || !InitialOK(z.name, ns, sets))))
  {
    hide NewZone, InitialOK;
    residue := false;
    var created := pd.CreateZone(z.name, z.kind, z.masters, z.dnssec, z.tenant, ns, sets);
    if created.Err? {
      return Some(if created.error.ServerConflict? then Duplicate else MapServer(created.error)), false;
    }
    err := st.CreateZone(z);
    if err.Some? {
      var derr := pd.DeleteZone(z.pdnsId);
      residue := derr.Some? && !derr.value.ServerNotFound?;
      err := Some(if err.value.RowConflict? then Duplicate else err.value);
    }
  }

  /** The server's zones with one more, every other one as it was. */
  ghost predicate OneMore(before: ServerZones, after: ServerZones, name: string) {
    && name !in before && after.Keys == before.Keys + {name} && after[name].name == name
    && forall id :: id in before ==> after[id] == before[id]
  }

  /** The server zone: the row's metadata, the template's sets and the name servers. */
  ghost predicate CreatedFrom(env: Env, templates: TemplateRows, z: Zone, server: ServerZones) {
    z.name in server &&
    exists tpl, out, ns ::
      && FromTemplate(env, templates, z, tpl) && Merged(z.name, tpl, z.nameservers, out, ns)
      && server[z.name] == CreatedZone(z, ns, out)
  }

  method Create(st: Store, pd: Server, env: Env, tenant: string, human: bool, inp: CreateInput, newId: string)
    returns (r: Result<Zone>, residue: bool)
    modifies st`faults, st`zones, pd`faults, pd`zones
    ensures old(st.Clean()) ==> st.Clean()
    ensures old(pd.Clean()) ==> pd.Clean()
    // the row and the server zone together, their metadata in agreement
    ensures r.Ok? ==>
              var z := r.value;
              && InputOK(env, human, inp) && RowFor(env, tenant, inp, newId, z)
              && (ParserLaws(env.rules) ==> CreatedFrom(env, st.templates, z, pd.zones))
              && !CreateRefused(old(st.zones), old(pd.zones), tenant, z.name) && Inserts(old(st.zones), st.zones, z)
              && OneMore(old(pd.zones), pd.zones, z.name) && Agrees(z, pd.zones) && !residue && !pd.down
    // or neither, unless the compensating delete failed
    ensures r.Err? ==> st.zones == old(st.zones)
    ensures r.Err? && !residue ==> pd.zones == old(pd.zones)
    ensures residue ==>
              && r.Err? && ZoneName(env.isSuffix, inp.name).Some? && !old(st.Clean() && pd.Clean())
              && OneMore(old(pd.zones), pd.zones, ZoneName(env.isSuffix, inp.name).value)
              && !HasName(st.zones, tenant, ZoneName(env.isSuffix, inp.name).value)
              && !Conflict(st.zones, tenant, ZoneName(env.isSuffix, inp.name).value)
    ensures residue && ParserLaws(env.rules) ==>
              exists z :: RowFor(env, tenant, inp, newId, z) && CreatedFrom(env, st.templates, z, pd.zones)
    ensures pd.down ==> r.Err? && !residue
    ensures (r.Ok? || residue) && PlainInput(env, human, inp) ==>
              var name := ZoneName(env.isSuffix, inp.name).value;
              name in pd.zones && pd.zones[name].rrsets == [SoaSet(name, [])]
    // what every create keeps
    ensures Atomic(old(st.zones), st.zones)
    ensures ParserLaws(env.rules) && old(AllWellFormed(env.rules, pd.zones)) ==> AllWellFormed(env.rules, pd.zones)
    // without faults only a taken name refuses an acceptable request
    ensures r.Err? && old(st.Clean() && pd.Clean()) && newId !in old(st.zones) &&
            Acceptable(env, st.templates, tenant, human, inp, newId) ==>
              r.error.Duplicate? && CreateRefused(st.zones, pd.zones, tenant, ZoneName(env.isSuffix, inp.name).value)
  {
    hide ZoneName, ParserLaws, HostList, GoodSets, CreateRefused, OneMore, Agrees, AllWellFormed, NameTaken,
      CanonicalZone, Conflict, HasName, CreatedFrom, FromTemplate, InputOK, RowFor, TemplateOK, PlainInput, Rewrites;
    var admitted := Admit(st, pd, env, tenant, human, inp, newId);
    if admitted.Err? { return Err(admitted.error), false; }
    var z, tpl := admitted.value.0, admitted.value.1;
    RowFacts(env, tenant, inp, newId, z);
    ZoneNameIdempotent(env.isSuffix, inp.name);
    var err;
    err, residue := Make(st, pd, env, z, tpl);
    TakenIsRefused(old(st.zones), old(pd.zones), z);
    InsertedApart(old(st.zones), st.zones, z);
    r := if err.None? then Ok(z) else Err(err.value);
  }

  /** The server zone and the row of an admitted request. */
  method Make(st: Store, pd: Server, env: Env, z: Zone, tpl: seq<RRset>) returns (err: Option<Error>, residue: bool)
    requires z.pdnsId == z.name && CanonicalZone(z.name) == Some(z.name) && HostList(z.nameservers)
    requires ParserLaws(env.rules) ==> GoodSets(env.rules, z.name, tpl) && FromTemplate(env, st.templates, z, tpl)
    modifies st`faults, st`zones, pd`faults, pd`zones
    ensures old(st.Clean()) ==> st.Clean()
    ensures old(pd.Clean()) ==> pd.Clean()
    ensures err.None? ==> Inserts(old(st.zones), st.zones, z) && !residue
    ensures err.Some? ==> st.zones == old(st.zones) && (!residue ==> pd.zones == old(pd.zones))
    ensures err.None? || residue ==>
              && OneMore(old(pd.zones), pd.zones, z.name) && z.name in pd.zones && Agrees(z, pd.zones)
              && (ParserLaws(env.rules) ==> CreatedFrom(env, st.templates, z, pd.zones))
              && (z.nameservers == [] && tpl == [] ==> pd.zones[z.name].rrsets == [SoaSet(z.name, [])])
    ensures err.Some? && old(st.Clean() && pd.Clean()) ==>
              && !residue
              && (ParserLaws(env.rules) || (z.nameservers == [] && tpl == []) ==>
                    err.value.Duplicate? && (z.name in pd.zones || NameTaken(st.zones, z)))
    ensures ParserLaws(env.rules) && old(AllWellFormed(env.rules, pd.zones)) ==> AllWellFormed(env.rules, pd.zones)
  {
    hide ParserLaws, WellFormed, HostList, GoodSets, InitialOK, AddSets, BaseSets, OneMore, Agrees, CreatedZone,
      AllWellFormed, NameTaken, CanonicalZone, CreatedFrom, FromTemplate, Merged, Inserts;
    AbsoluteZone(z.name);
    var sets, ns := MergeApexNS(z.name, tpl, z.nameservers);
    if ParserLaws(env.rules) {
      CreatedWellFormed(env.rules, z.name, z.nameservers, tpl, sets, ns);
      CreatedAs(env, st.templates, z, tpl, sets, ns, pd.zones);
    }
    NothingInitial(z.name);
    NothingMerged(z.name, sets, ns);
    err, residue := Commit(st, pd, z, ns, sets);
    if err.None? || residue {
      Added(old(pd.zones), z, ns, sets);
      if ParserLaws(env.rules) && old(AllWellFormed(env.rules, pd.zones)) {
        OneMoreWellFormed(env.rules, old(pd.zones), pd.zones, z.name);
      }
    }
  }

  lemma AbsoluteZone(name: string)
    requires CanonicalZone(name) == Some(name)
    ensures HasSuffix(name, ".")
  {
    SplitNameCanonical(name);
  }

  lemma InsertedApart(before: Rows, after: Rows, z: Zone)
    requires !Conflict(before, z.tenant, z.name)
    ensures Inserts(before, after, z) || after == before ==> Atomic(before, after)
  {
    hide Conflict;
  }

  lemma CreatedAs(env: Env, templates: TemplateRows, z: Zone, tpl: seq<RRset>, out: seq<RRset>, ns: seq<string>,
                  before: ServerZones)
    requires FromTemplate(env, templates, z, tpl) && Merged(z.name, tpl, z.nameservers, out, ns)
    ensures CreatedFrom(env, templates, z, before[z.name := CreatedZone(z, ns, out)])
  {
    hide FromTemplate, Merged;
  }

  lemma NothingMerged(zone: string, out: seq<RRset>, ns: seq<string>)
    ensures Merged(zone, [], [], out, ns) ==> out == [] && ns == []
  {
  }

  lemma Added(before: ServerZones, z: Zone, ns: seq<string>, sets: seq<RRset>)
    requires z.name !in before && z.pdnsId == z.name
    ensures var after := before[z.name := CreatedZone(z, ns, sets)];
            OneMore(before, after, z.name) && Agrees(z, after) &&
            after[z.name].rrsets == AddSets(BaseSets(z.name, ns), sets)
  {
  }

  lemma OneMoreWellFormed(rules: Rules, before: ServerZones, after: ServerZones, name: string)
    requires AllWellFormed(rules, before) && OneMore(before, after, name) && WellFormed(rules, name, after[name].rrsets)
    ensures AllWellFormed(rules, after)
  {
    hide WellFormed;
  }

  /** Once the ownership checks passed, only a stale id can refuse the insert. */
  lemma TakenIsRefused(zones: Rows, server: ServerZones, z: Zone)
    requires z.pdnsId == z.name && !HasName(zones, z.tenant, z.name) && !Conflict(zones, z.tenant, z.name) &&
             z.name !in server
    ensures NameTaken(zones, z) && z.id !in zones ==> CreateRefused(zones, server, z.tenant, z.name)
    ensures !NameTaken(zones, z) ==> !CreateRefused(zones, server, z.tenant, z.name)
  {
    assert forall id :: id in zones && zones[id].name == z.name ==> Overlaps(z.name, zones[id].name);
  }

  lemma NothingInitial(name: string)
    ensures InitialOK(name, [], []) && AddSets(BaseSets(name, []), []) == [SoaSet(name, [])]
  {
  }

  /** An input without template and nameservers that validation accepts. */
  ghost predicate PlainInput(env: Env, human: bool, inp: CreateInput) {
    && ZoneName(env.isSuffix, inp.name).Some? && KindMasters(env, inp.kind, inp.masters).Ok?
    && inp.nameservers == [] && inp.templateId == "" && inp.description == "" && !(human && inp.origin.Ipam?)
  }

  // ----- reads

  method Owned(st: Store, tenant: string, id: string) returns (r: Result<Zone>)
    modifies st`faults
    ensures old(st.Clean()) ==> st.Clean()
    ensures match r
            case Ok(z) => OwnedBy(st.zones, tenant, id) && st.zones[id] == z
            case Err(e) => (e.StoreDown? && !old(st.Clean())) || (e.ZoneNotFound? && !OwnedBy(st.zones, tenant, id))
  {
    r := st.GetZone(tenant, id);
    if r.Err? && r.error.RowNotFound? { r := Err(ZoneNotFound); }
  }

  /** Lower-cased, trimmed and absolute. `isDomain` is the DNS library's name check. */
  function CanonicalFqdn(isDomain: string -> bool, name: string): Option<string> {
    var n := Fqdn(Lower(Trim(name)));
    if isDomain(n) && n != "." && !DoubleDot(n) then Some(n) else None
  }

  /** The tenant's longest zone containing a name. */
  method FindForName(st: Store, isDomain: string -> bool, tenant: string, name: string) returns (r: Result<Zone>)
    requires st.Valid()
    modifies st`faults
    ensures old(st.Clean()) ==> st.Clean()
    ensures match r
            case Ok(z) =>
              CanonicalFqdn(isDomain, name).Some? &&
              ContainingZone(st.zones, tenant, CanonicalFqdn(isDomain, name).value, z)
            case Err(e) =>
              || (e.StoreDown? && !old(st.Clean()))
              || (e.ZoneNotFound? && CanonicalFqdn(isDomain, name).None?)
              || (&& e.ZoneNotFound?
                  && forall id :: OwnedBy(st.zones, tenant, id) ==>
                       !InZone(CanonicalFqdn(isDomain, name).value, st.zones[id].name))
  {
    hide InZone, CanonicalFqdn;
    var n := CanonicalFqdn(isDomain, name);
    if n.None? { return Err(ZoneNotFound); }
    var fqdn := n.value;
    var all := st.ZonesForTenant(tenant);
    if all.Err? { return Err(all.error); }
    var best := LongestZone(all.value, fqdn);
    r := if best.Some? then Ok(best.value) else Err(ZoneNotFound);
  }

  /** z is the tenant's longest zone containing the name. */
  ghost predicate ContainingZone(zones: Rows, tenant: string, fqdn: string, z: Zone) {
    && OwnedBy(zones, tenant, z.id) && zones[z.id] == z && InZone(fqdn, z.name)
    && forall id :: OwnedBy(zones, tenant, id) && InZone(fqdn, zones[id].name) ==> |zones[id].name| <= |z.name|
  }

  /** The answer is unique, whatever the order of the rows. */
  lemma ContainingZoneUnique(zones: Rows, tenant: string, fqdn: string, a: Zone, b: Zone)
    requires ZonesOK(zones) && ContainingZone(zones, tenant, fqdn, a) && ContainingZone(zones, tenant, fqdn, b)
    ensures a == b
  {
    ZonesOfNameNest(fqdn, a.name, b.name);
  }

  // ----- update

  /** The row an update asks for. */
  function Updated(env: Env, prev: Zone, upd: UpdateInput): Result<Zone> {
    var kind := if upd.kind.Some? then upd.kind.value else Some(prev.kind);
    var masters := if upd.masters.Some? then upd.masters.value
                   else if kind.Some? && NeedsMasters(kind.value) then prev.masters else [];
    var m := KindMasters(env, kind, masters);
    if m.Err? then Err(m.error)
    else
      var description := if upd.description.Some? then Trim(upd.description.value) else prev.description;
      if upd.description.Some? && |description| > MAX_DESCRIPTION then Err(InvalidInput)
      else Ok(prev.(kind := kind.value, masters := m.value,
                    dnssec := if upd.dnssec.Some? then upd.dnssec.value else prev.dnssec, description := description))
  }

  predicate SameMetadata(a: Zone, b: Zone) {
    a.kind == b.kind && a.dnssec == b.dnssec && a.masters == b.masters
  }

  /** Of one server zone at most the metadata changed. */
  ghost predicate MetadataOnly(s0: ServerZones, s1: ServerZones, id: string) {
    && s1.Keys == s0.Keys
    && forall k :: k in s0 ==> s1[k].rrsets == s0[k].rrsets && s1[k].name == s0[k].name && (k != id ==> s1[k] == s0[k])
  }

  /** Server metadata first (only when it changes), then the row; if the row cannot be written
  the previous metadata is put back. */
  method Rewrite(st: Store, pd: Server, tenant: string, prev: Zone, next: Zone)
    returns (err: Option<Error>, residue: bool)
    requires OwnedBy(st.zones, tenant, prev.id) && st.zones[prev.id] == prev && SameIdentity(prev, next)
    requires next ==
             prev.(kind := next.kind, masters := next.masters, dnssec := next.dnssec, description := next.description)
    modifies st`faults, st`zones, pd`faults, pd`zones
    ensures old(st.Clean()) ==> st.Clean()
    ensures old(pd.Clean()) ==> pd.Clean()
    ensures err.None? ==>
              && !residue && Rewrites(old(st.zones), st.zones, next)
              && (tenant != "" && Agrees(prev, old(pd.zones)) ==> Agrees(next, pd.zones))
    ensures err.Some? ==> st.zones == old(st.zones)
    ensures err.Some? && !residue && tenant != "" && Agrees(prev, old(pd.zones)) ==> pd.zones == old(pd.zones)
    ensures residue ==> err.Some? && !old(pd.Clean() && st.Clean())
    ensures old(st.Clean() && pd.Clean()) && (prev.pdnsId in old(pd.zones) || SameMetadata(next, prev)) ==> err.None?
    ensures MetadataOnly(old(pd.zones), pd.zones, prev.pdnsId)
  {
    residue := false;
    var changed := !SameMetadata(next, prev);
    if changed {
      err := pd.UpdateZoneMetadata(prev.pdnsId, next.kind, next.masters, next.dnssec, tenant);
      if err.Some? { return Some(MapServer(err.value)), false; }
    }
    err := st.UpdateZone(next);
    if err.Some? {
      if changed {
        var rerr := pd.UpdateZoneMetadata(prev.pdnsId, prev.kind, prev.masters, prev.dnssec, tenant);
        residue := rerr.Some?;
      }
      return;
    }
  }

  method Update(st: Store, pd: Server, env: Env, tenant: string, id: string, upd: UpdateInput)
    returns (r: Result<Zone>, residue: bool)
    requires st.Valid()
    modifies st`faults, st`zones, pd`faults, pd`zones
    ensures old(st.Clean()) ==> st.Clean()
    ensures old(pd.Clean()) ==> pd.Clean()
    // the row and the server's metadata together
    ensures r.Ok? ==>
              && OwnedBy(old(st.zones), tenant, id) && !residue
              && r == Updated(env, old(st.zones)[id], upd) && Rewrites(old(st.zones), st.zones, r.value)
              && (tenant != "" && Agrees(old(st.zones)[id], old(pd.zones)) ==> Agrees(r.value, pd.zones))
    // or neither, unless putting the metadata back failed
    ensures r.Err? ==> st.zones == old(st.zones)
    ensures r.Err? && !residue && tenant != "" && OwnedBy(st.zones, tenant, id) &&
            Agrees(st.zones[id], old(pd.zones)) ==>
              pd.zones == old(pd.zones)
    ensures residue ==> r.Err? && !old(pd.Clean() && st.Clean())
    // without faults, what the row and the request decide
    ensures old(st.Clean()) && !OwnedBy(old(st.zones), tenant, id) ==> r == Err(ZoneNotFound)
    ensures old(st.Clean()) && OwnedBy(old(st.zones), tenant, id) && Updated(env, old(st.zones)[id], upd).Err? ==>
              r == Updated(env, old(st.zones)[id], upd)
    ensures old(st.Clean() && pd.Clean()) && OwnedBy(old(st.zones), tenant, id) &&
            old(st.zones)[id].pdnsId in old(pd.zones) ==>
              r == Updated(env, old(st.zones)[id], upd)
    // what every update keeps
    ensures Atomic(old(st.zones), st.zones)
    ensures if OwnedBy(old(st.zones), tenant, id) then MetadataOnly(old(pd.zones), pd.zones, old(st.zones)[id].pdnsId)
            else r.Err? && pd.zones == old(pd.zones) && !residue
  {
    hide Updated, Agrees, Conflict, Inserts;
    residue := false;
    var got := Owned(st, tenant, id);
    if got.Err? { return Err(got.error), false; }
    var prev := got.value;
    var want := Updated(env, prev, upd);
    if want.Err? { return Err(want.error), false; }
    UpdatedIdentity(env, prev, upd);
    var err;
    err, residue := Rewrite(st, pd, tenant, prev, want.value);
    r := if err.Some? then Err(err.value) else Ok(want.value);
  }

  lemma UpdatedIdentity(env: Env, prev: Zone, upd: UpdateInput)
    ensures Updated(env, prev, upd).Ok? ==>
              var n := Updated(env, prev, upd).value;
              && SameIdentity(prev, n)
              && n == prev.(kind := n.kind, masters := n.masters, dnssec := n.dnssec, description := n.description)
  {
  }

  // ----- delete

  /** Nothing refers to the zone any more. */
  ghost predicate Forgotten(zones: Rows, sync: SyncRows, challenges: ChallengeRows, tenant: string, id: string) {
    && id !in zones
    && (forall k :: k in sync && sync[k].tenant == tenant ==>
          && (sync[k].forward.Some? ==> sync[k].forward.value.zoneId != id)
          && (sync[k].reverse.Some? ==> sync[k].reverse.value.zoneId != id))
    && (forall k :: k in challenges && challenges[k].tenant == tenant ==> challenges[k].zoneId != id)
  }

  /** How far a delete gets: the server zone goes first, then the sync references, then the row. */
  ghost predicate DeletedSoFar(z0: Rows, s0: ServerZones, r0: SyncRows, z1: Rows, s1: ServerZones, r1: SyncRows,
                               tenant: string, id: string) {
    || (z1 == z0 && s1 == s0 && r1 == r0)
    || (&& OwnedBy(z0, tenant, id) && s1 == s0 - {z0[id].pdnsId}
        && (|| (z1 == z0 && r1 == r0)
            || ((z1 == z0 || z1 == z0 - {id}) && r1 == ClearedRows(r0, tenant, id))))
  }

  /** The server zone, the sync references and the row, in that order. */
  method Delete(st: Store, pd: Server, tenant: string, id: string) returns (err: Option<Error>)
    requires st.Valid()
    modifies st`faults, st`zones, st`sync, st`challenges, pd`faults, pd`zones
    ensures old(st.Clean()) ==> st.Clean()
    ensures old(pd.Clean()) ==> pd.Clean()
    // success leaves no trace of the zone and touches no other
    ensures err.None? ==>
              && OwnedBy(old(st.zones), tenant, id)
              && st.zones == old(st.zones) - {id} && pd.zones == old(pd.zones) - {old(st.zones)[id].pdnsId}
              && st.sync == ClearedRows(old(st.sync), tenant, id)
              && st.challenges == Cascade(old(st.challenges), tenant, id)
              && Forgotten(st.zones, st.sync, st.challenges, tenant, id)
    // a failure keeps the row, so the call can be repeated, and without faults the repeat succeeds
    ensures err.Some? ==> st.zones == old(st.zones) && st.challenges == old(st.challenges)
    ensures DeletedSoFar(old(st.zones), old(pd.zones), old(st.sync), st.zones, pd.zones, st.sync, tenant, id)
    ensures OwnedBy(old(st.zones), tenant, id) && old(st.Clean() && pd.Clean()) ==> err.None?
    ensures err.Some? && OwnedBy(old(st.zones), tenant, id) ==> !old(st.Clean() && pd.Clean())
    ensures !OwnedBy(old(st.zones), tenant, id) ==> err.Some? && pd.zones == old(pd.zones) && st.sync == old(st.sync)
    // what every delete keeps
    ensures Atomic(old(st.zones), st.zones) && st.Valid()
  {
    var got := Owned(st, tenant, id);
    if got.Err? { return Some(got.error); }
    var z := got.value;
    var derr := pd.DeleteZone(z.pdnsId);
    if derr.Some? && !derr.value.ServerNotFound? { return Some(MapServer(derr.value)); }
    assert pd.zones == old(pd.zones) - {z.pdnsId};
    err := st.ClearSyncZone(tenant, id);
    if err.Some? { return; }
    err := st.DeleteZone(tenant, id);
    if err.None? { assert id !in st.zones; }
  }
}
