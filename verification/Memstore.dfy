/** The row store, with the semantics of the in-memory double (internal/memstore/memstore.go):
rows filtered by tenant, globally unique zone names and server ids, unique challenges, and
calls that fail before they have any effect. Lists come in any order. */
module Memstore {
  import opened Strings
  import opened Names
  import opened Wrappers
  import opened Model

  type Rows = map<string, Zone>
  type SyncRows = map<(string, string), SyncRow>
  type TemplateRows = map<string, Template>
  type SupermasterRows = map<string, SupermasterRow>
  type ChallengeRows = map<string, Challenge>

  // ----- what the schema guards

  ghost predicate KeyedById(zones: Rows) {
    forall id :: id in zones ==> zones[id].id == id
  }

  /** Zone names and server ids are unique over all tenants. */
  ghost predicate UniqueZones(zones: Rows) {
    forall a, b :: a in zones && b in zones && a != b ==>
      zones[a].name != zones[b].name && zones[a].pdnsId != zones[b].pdnsId
  }

  ghost predicate ZonesOK(zones: Rows) {
    KeyedById(zones) && UniqueZones(zones)
  }

  ghost predicate ChallengesOK(challenges: ChallengeRows) {
    && (forall k :: k in challenges ==> challenges[k].id == k)
    && (forall a, b :: a in challenges && b in challenges && a != b ==>
          !SameChallenge(challenges[a], challenges[b].tenant, challenges[b].fqdn, challenges[b].value))
  }

  predicate SameChallenge(c: Challenge, tenant: string, fqdn: string, value: string) {
    c.tenant == tenant && c.fqdn == fqdn && c.value == value
  }

  ghost predicate SyncOK(sync: SyncRows) {
    forall k :: k in sync ==> (sync[k].tenant, sync[k].id) == k
  }

  /** The zone is a row of the tenant. */
  predicate OwnedBy(zones: Rows, tenant: string, id: string) {
    id in zones && zones[id].tenant == tenant
  }

  /** A zone of another tenant overlaps the name. */
  ghost predicate Conflict(zones: Rows, tenant: string, name: string) {
    exists id :: id in zones && zones[id].tenant != tenant && Overlaps(name, zones[id].name)
  }

  ghost predicate HasName(zones: Rows, tenant: string, name: string) {
    exists id :: id in zones && zones[id].tenant == tenant && zones[id].name == name
  }

  ghost predicate NameTaken(zones: Rows, z: Zone) {
    z.id in zones || exists id :: id in zones && (zones[id].name == z.name || zones[id].pdnsId == z.pdnsId)
  }

  /** The list holds exactly the tenant's zones, each once. */
  ghost predicate Lists(all: seq<Zone>, zones: Rows, tenant: string) {
    && (forall z :: z in all ==> OwnedBy(zones, tenant, z.id) && zones[z.id] == z)
    && (forall id :: OwnedBy(zones, tenant, id) ==> zones[id] in all)
    && (forall i, j :: 0 <= i < j < |all| ==> all[i] != all[j])
  }

  function Cleared(row: SyncRow, tenant: string, zoneId: string): SyncRow {
    if row.tenant != tenant then row
    else row.(forward := if row.forward.Some? && row.forward.value.zoneId == zoneId then None else row.forward,
              reverse := if row.reverse.Some? && row.reverse.value.zoneId == zoneId then None else row.reverse)
  }

  function ClearedRows(sync: SyncRows, tenant: string, zoneId: string): (r: SyncRows)
    ensures r.Keys == sync.Keys
  {
    map k | k in sync :: Cleared(sync[k], tenant, zoneId)
  }

  /** Deleting a zone takes its challenge rows with it. */
  function Cascade(challenges: ChallengeRows, tenant: string, zoneId: string): ChallengeRows {
    map k | k in challenges && !(challenges[k].tenant == tenant && challenges[k].zoneId == zoneId) :: challenges[k]
  }

  // ----- templates and supermasters

  /** A template of the tenant has the name, in any case. */
  ghost predicate HasTemplateName(templates: TemplateRows, tenant: string, name: string) {
    exists k :: k in templates && templates[k].tenant == tenant && EqualFold(templates[k].name, name)
  }

  ghost predicate TemplateNameTaken(templates: TemplateRows, t: Template) {
    exists k :: k in templates && templates[k].tenant == t.tenant && k != t.id && EqualFold(templates[k].name, t.name)
  }

  ghost predicate SupermasterTaken(rows: SupermasterRows, s: SupermasterRow) {
    s.id in rows || exists k :: k in rows && rows[k].ip == s.ip && rows[k].nameserver == s.nameserver
  }

  // ----- challenges by age

  function OlderThan(challenges: ChallengeRows, before: int): set<string> {
    set k | k in challenges && challenges[k].createdAt < before
  }

  predicate Earlier(a: Challenge, b: Challenge) {
    a.createdAt < b.createdAt || (a.createdAt == b.createdAt && LexLess(a.id, b.id))
  }

  lemma EarlierTotal(a: Challenge, b: Challenge)
    ensures a.id == b.id || Earlier(a, b) || Earlier(b, a)
    ensures !(Earlier(a, b) && Earlier(b, a))
  {
    LexTotal(a.id, b.id);
  }

  lemma EarlierTransitive(a: Challenge, b: Challenge, c: Challenge)
    requires Earlier(a, b) && Earlier(b, c)
    ensures Earlier(a, c)
  {
    if LexLess(a.id, b.id) && LexLess(b.id, c.id) { LexTransitive(a.id, b.id, c.id); }
  }

  ghost predicate InAgeOrder(cs: seq<Challenge>) {
    forall i, j :: 0 <= i < j < |cs| ==> Earlier(cs[i], cs[j])
  }

  ghost function Ids(cs: seq<Challenge>): set<string> {
    set c | c in cs :: c.id
  }

  /** The rows older than a time, oldest first, as many as the limit allows. */
  ghost predicate Oldest(challenges: ChallengeRows, before: int, limit: nat, out: seq<Challenge>) {
    && InAgeOrder(out)
    && (forall c :: c in out ==> c.id in OlderThan(challenges, before) && challenges[c.id] == c)
    && |out| <= limit
    && (forall k :: k in OlderThan(challenges, before) && k !in Ids(out) ==>
          |out| == limit && forall c :: c in out ==> Earlier(c, challenges[k]))
  }

  lemma EarlierApart(a: Challenge, b: Challenge)
    requires Earlier(a, b)
    ensures a != b
  {
    LexTotal(a.id, a.id);
  }

  lemma {:induction false} IdsCount(cs: seq<Challenge>)
    requires InAgeOrder(cs) && forall a, b :: a in cs && b in cs && a.id == b.id ==> a == b
    ensures |Ids(cs)| == |cs|
  {
    hide Earlier;
    if cs == [] {
      assert Ids(cs) == {};
    } else {
      var rest := cs[1..];
      IdsCount(rest);
      assert cs == [cs[0]] + rest;
      assert Ids(cs) == {cs[0].id} + Ids(rest);
      forall c | c in rest ensures c.id != cs[0].id { EarlierApart(cs[0], c); }
    }
  }

  /** A batch takes as many of the rows older than any earlier time as it has room for: the
  oldest go first. */
  lemma BatchTakesOldest(challenges: ChallengeRows, before: int, limit: nat, out: seq<Challenge>, cutoff: int)
    requires Oldest(challenges, before, limit, out) && cutoff <= before
    ensures var n := |OlderThan(challenges, cutoff)|;
            |OlderThan(challenges, cutoff) - Ids(out)| == if n <= limit then 0 else n - limit
  {
    var old0, ids := OlderThan(challenges, cutoff), Ids(out);
    IdsCount(out);
    if k :| k in old0 && k !in ids {
      assert k in OlderThan(challenges, before);
      forall x | x in ids ensures x in old0 {
        var c :| c in out && c.id == x;
        assert Earlier(c, challenges[k]);
      }
      assert ids <= old0 && |ids| == limit;
      Subtract(old0, ids);
      ProperSubset(ids, old0, k);
    } else {
      assert old0 - ids == {};
      Subset(old0, ids);
    }
  }

  lemma Subtract(a: set<string>, b: set<string>)
    requires b <= a
    ensures |a - b| == |a| - |b|
  {
    assert a == b + (a - b);
  }

  lemma Subset(a: set<string>, b: set<string>)
    requires a <= b
    ensures |a| <= |b|
  {
    Subtract(b, a);
  }

  lemma ProperSubset(a: set<string>, b: set<string>, k: string)
    requires a <= b && k in b && k !in a
    ensures |a| < |b|
  {
    Subset(a + {k}, b);
  }

  /** Puts a row into its place by age. */
  method InsertByAge(cs: seq<Challenge>, c: Challenge) returns (out: seq<Challenge>)
    requires InAgeOrder(cs) && forall x :: x in cs ==> x.id != c.id
    ensures InAgeOrder(out) && |out| == |cs| + 1
    ensures forall x :: x in out <==> x in cs || x == c
  {
    hide Earlier;
    var k := 0;
    while k < |cs| && Earlier(cs[k], c)
      invariant 0 <= k <= |cs|
      invariant forall i :: 0 <= i < k ==> Earlier(cs[i], c)
    {
      k := k + 1;
    }
    out := cs[..k] + [c] + cs[k..];
    assert cs == cs[..k] + cs[k..];
    forall i | k <= i < |cs| ensures Earlier(c, cs[i]) {
      EarlierTotal(cs[k], c);
      if k < i { EarlierTransitive(c, cs[k], cs[i]); }
    }
  }

  class Store {
    var zones: Rows
    var sync: SyncRows
    var challenges: ChallengeRows
    var templates: TemplateRows
    var supermasters: SupermasterRows
    /** Whether each of the next calls fails; after the last entry calls succeed. */
    var faults: seq<bool>

    constructor ()
      ensures zones == map[] && sync == map[] && challenges == map[] && templates == map[] && supermasters == map[] &&
              faults == []
      ensures Valid()
    {
      zones, sync, challenges, templates, supermasters, faults := map[], map[], map[], map[], map[], [];
    }

    ghost predicate Valid() reads this`zones, this`sync, this`challenges {
      ZonesOK(zones) && SyncOK(sync) && ChallengesOK(challenges)
    }

    ghost predicate Clean() reads this`faults { faults == [] }

    method Begin() returns (fail: bool)
      modifies this`faults
      ensures old(Clean()) ==> !fail && Clean()
    {
      if faults == [] { return false; }
      fail := faults[0];
      faults := faults[1..];
    }

    // ----- zones

    method CreateZone(z: Zone) returns (err: Option<Error>)
      modifies this`faults, this`zones
      ensures old(Clean()) ==> Clean()
      ensures err.None? ==> !NameTaken(old(zones), z) && zones == old(zones)[z.id := z]
      ensures err.Some? ==>
                && zones == old(zones)
                && ((err.value.StoreDown? && !old(Clean())) || (err.value.RowConflict? && NameTaken(zones, z)))
    {
      var fail := Begin();
      if fail { return Some(StoreDown); }
      if z.id in zones { return Some(RowConflict); }
      if exists id :: id in zones && (zones[id].name == z.name || zones[id].pdnsId == z.pdnsId) {
        return Some(RowConflict);
      }
      zones := zones[z.id := z];
      err := None;
    }

    method GetZone(tenant: string, id: string) returns (r: Result<Zone>)
      modifies this`faults
      ensures old(Clean()) ==> Clean()
      ensures match r
              case Ok(z) => OwnedBy(zones, tenant, id) && zones[id] == z
              case Err(e) => (e.StoreDown? && !old(Clean())) || (e.RowNotFound? && !OwnedBy(zones, tenant, id))
    {
      var fail := Begin();
      if fail { return Err(StoreDown); }
      r := if OwnedBy(zones, tenant, id) then Ok(zones[id]) else Err(RowNotFound);
    }

    method GetZoneByName(tenant: string, name: string) returns (r: Result<Zone>)
      modifies this`faults
      ensures old(Clean()) ==> Clean()
      ensures match r
              case Ok(z) => exists id :: OwnedBy(zones, tenant, id) && zones[id] == z && z.name == name
              case Err(e) => (e.StoreDown? && !old(Clean())) || (e.RowNotFound? && !HasName(zones, tenant, name))
    {
      var fail := Begin();
      if fail { return Err(StoreDown); }
      if exists id :: id in zones && zones[id].tenant == tenant && zones[id].name == name {
        var id :| id in zones && zones[id].tenant == tenant && zones[id].name == name;
        assert OwnedBy(zones, tenant, id);
        return Ok(zones[id]);
      }
      r := Err(RowNotFound);
    }

    method ZoneConflict(tenant: string, name: string) returns (r: Result<bool>)
      modifies this`faults
      ensures old(Clean()) ==> Clean()
      ensures match r
              case Ok(taken) => taken == Conflict(zones, tenant, Lower(name))
              case Err(e) => e.StoreDown? && !old(Clean())
    {
      var fail := Begin();
      if fail { return Err(StoreDown); }
      var n := Lower(name);
      r := Ok(exists id :: id in zones && zones[id].tenant != tenant && Overlaps(n, zones[id].name));
    }

    method ZonesForTenant(tenant: string) returns (r: Result<seq<Zone>>)
      requires Valid()
      modifies this`faults
      ensures old(Clean()) ==> Clean()
      ensures match r
              case Ok(all) => Lists(all, zones, tenant)
              case Err(e) => e.StoreDown? && !old(Clean())
    {
      var fail := Begin();
      if fail { return Err(StoreDown); }
      var all: seq<Zone> := [];
      var left := zones.Keys;
      while left != {}
        invariant left <= zones.Keys
        invariant forall z :: z in all ==> OwnedBy(zones, tenant, z.id) && zones[z.id] == z && z.id !in left
        invariant forall id :: OwnedBy(zones, tenant, id) && id !in left ==> zones[id] in all
        invariant forall i, j :: 0 <= i < j < |all| ==> all[i] != all[j]
        decreases left
      {
        var id :| id in left;
        left := left - {id};
        if zones[id].tenant == tenant {
          all := all + [zones[id]];
        }
      }
      r := Ok(all);
    }

    /** Writes the mutable columns; the id, tenant, name and server id of a row never change. */
    method UpdateZone(z: Zone) returns (err: Option<Error>)
      modifies this`faults, this`zones
      ensures old(Clean()) ==> Clean()
      ensures err.None? ==>
                && OwnedBy(old(zones), z.tenant, z.id)
                && zones == old(zones)[z.id := old(zones)[z.id].(kind := z.kind, masters := z.masters,
                                                                dnssec := z.dnssec, description := z.description)]
      ensures err.Some? ==>
                && zones == old(zones)
                && ((err.value.StoreDown? && !old(Clean()))
                    || (err.value.RowNotFound? && !OwnedBy(zones, z.tenant, z.id)))
    {
      var fail := Begin();
      if fail { return Some(StoreDown); }
      if !OwnedBy(zones, z.tenant, z.id) { return Some(RowNotFound); }
      zones := zones[z.id := zones[z.id].(kind := z.kind, masters := z.masters, dnssec := z.dnssec,
                                          description := z.description)];
      err := None;
    }

    method DeleteZone(tenant: string, id: string) returns (err: Option<Error>)
      modifies this`faults, this`zones, this`challenges
      ensures old(Clean()) ==> Clean()
      ensures err.None? ==>
                && OwnedBy(old(zones), tenant, id)
                && zones == old(zones) - {id} && challenges == Cascade(old(challenges), tenant, id)
      ensures err.Some? ==>
                && zones == old(zones) && challenges == old(challenges)
                && ((err.value.StoreDown? && !old(Clean())) || (err.value.RowNotFound? && !OwnedBy(zones, tenant, id)))
    {
      var fail := Begin();
      if fail { return Some(StoreDown); }
      if !OwnedBy(zones, tenant, id) { return Some(RowNotFound); }
      zones := zones - {id};
      challenges := Cascade(challenges, tenant, id);
      err := None;
    }

    // ----- IPAM sync rows

    method GetSync(tenant: string, id: string) returns (r: Result<SyncRow>)
      modifies this`faults
      ensures old(Clean()) ==> Clean()
      ensures match r
              case Ok(row) => (tenant, id) in sync && sync[(tenant, id)] == row
              case Err(e) => (e.StoreDown? && !old(Clean())) || (e.RowNotFound? && (tenant, id) !in sync)
    {
      var fail := Begin();
      if fail { return Err(StoreDown); }
      r := if (tenant, id) in sync then Ok(sync[(tenant, id)]) else Err(RowNotFound);
    }

    method UpsertSync(row: SyncRow) returns (err: Option<Error>)
      modifies this`faults, this`sync
      ensures old(Clean()) ==> Clean()
      ensures err.None? ==> sync == old(sync)[(row.tenant, row.id) := row]
      ensures err.Some? ==> sync == old(sync) && err.value.StoreDown? && !old(Clean())
    {
      var fail := Begin();
      if fail { return Some(StoreDown); }
      sync := sync[(row.tenant, row.id) := row];
      err := None;
    }

    method DeleteSync(tenant: string, id: string) returns (err: Option<Error>)
      modifies this`faults, this`sync
      ensures old(Clean()) ==> Clean()
      ensures err.None? ==> (tenant, id) in old(sync) && sync == old(sync) - {(tenant, id)}
      ensures err.Some? ==>
                && sync == old(sync)
                && ((err.value.StoreDown? && !old(Clean())) || (err.value.RowNotFound? && (tenant, id) !in sync))
    {
      var fail := Begin();
      if fail { return Some(StoreDown); }
      if (tenant, id) !in sync { return Some(RowNotFound); }
      sync := sync - {(tenant, id)};
      err := None;
    }

    method ClearSyncZone(tenant: string, zoneId: string) returns (err: Option<Error>)
      modifies this`faults, this`sync
      ensures old(Clean()) ==> Clean()
      ensures err.None? ==> sync == ClearedRows(old(sync), tenant, zoneId)
      ensures err.Some? ==> sync == old(sync) && err.value.StoreDown? && !old(Clean())
    {
      var fail := Begin();
      if fail { return Some(StoreDown); }
      sync := ClearedRows(sync, tenant, zoneId);
      err := None;
    }

    // ----- challenges

    method InsertChallenge(c: Challenge) returns (err: Option<Error>)
      modifies this`faults, this`challenges
      ensures old(Clean()) ==> Clean()
      ensures err.None? ==>
                && OwnedBy(zones, c.tenant, c.zoneId) && c.id !in old(challenges)
                && (forall k :: k in old(challenges) ==> !SameChallenge(old(challenges)[k], c.tenant, c.fqdn, c.value))
                && challenges == old(challenges)[c.id := c]
      ensures err.Some? ==> challenges == old(challenges)
      ensures err.Some? && err.value.RowConflict? ==>
                c.id in challenges ||
                exists k :: k in challenges && SameChallenge(challenges[k], c.tenant, c.fqdn, c.value)
      ensures err.Some? && !err.value.RowConflict? ==>
                (err.value.StoreDown? && !old(Clean())) ||
                (err.value.RowNotFound? && !OwnedBy(zones, c.tenant, c.zoneId))
    {
      var fail := Begin();
      if fail { return Some(StoreDown); }
      if !OwnedBy(zones, c.tenant, c.zoneId) { return Some(RowNotFound); }
      if c.id in challenges { return Some(RowConflict); }
      if exists k :: k in challenges && SameChallenge(challenges[k], c.tenant, c.fqdn, c.value) {
        return Some(RowConflict);
      }
      challenges := challenges[c.id := c];
      err := None;
    }

    method DeleteChallenge(tenant: string, fqdn: string, value: string) returns (err: Option<Error>)
      modifies this`faults, this`challenges
      ensures old(Clean()) ==> Clean()
      ensures err.None? ==>
                exists k :: k in old(challenges) && SameChallenge(old(challenges)[k], tenant, fqdn, value) &&
                            challenges == old(challenges) - {k}
      ensures err.Some? ==>
                && challenges == old(challenges)
                && ((err.value.StoreDown? && !old(Clean()))
                    || (err.value.RowNotFound? &&
                        forall k :: k in challenges ==> !SameChallenge(challenges[k], tenant, fqdn, value)))
    {
      var fail := Begin();
      if fail { return Some(StoreDown); }
      if exists k :: k in challenges && SameChallenge(challenges[k], tenant, fqdn, value) {
        var k :| k in challenges && SameChallenge(challenges[k], tenant, fqdn, value);
        challenges := challenges - {k};
        return None;
      }
      err := Some(RowNotFound);
    }

    /** The rows created before a time, oldest first, at most `limit` of them. */
    method ChallengesOlderThan(before: int, limit: nat) returns (r: Result<seq<Challenge>>)
      requires Valid() && limit > 0
      modifies this`faults
      ensures old(Clean()) ==> Clean()
      ensures match r
              case Ok(out) => Oldest(challenges, before, limit, out)
              case Err(e) => e.StoreDown? && !old(Clean())
    {
      hide Earlier;
      var fail := Begin();
      if fail { return Err(StoreDown); }
      var out: seq<Challenge> := [];
      var todo := OlderThan(challenges, before);
      while todo != {}
        invariant old(Clean()) ==> Clean()
        invariant todo <= OlderThan(challenges, before) && InAgeOrder(out)
        invariant forall c :: c in out <==> c.id in OlderThan(challenges, before) - todo && challenges[c.id] == c
      {
        var k :| k in todo;
        out := InsertByAge(out, challenges[k]);
        todo := todo - {k};
      }
      ghost var all := out;
      if |out| > limit { out := out[..limit]; }
      assert forall k :: k in OlderThan(challenges, before) ==> challenges[k] in all;
      assert forall c :: c in out ==> c in all;
      r := Ok(out);
    }

    // ----- templates

    method GetTemplate(tenant: string, id: string) returns (r: Result<Template>)
      modifies this`faults
      ensures old(Clean()) ==> Clean()
      ensures match r
              case Ok(t) => id in templates && templates[id] == t && t.tenant == tenant
              case Err(e) =>
                (e.StoreDown? && !old(Clean())) ||
                (e.RowNotFound? && !(id in templates && templates[id].tenant == tenant))
    {
      var fail := Begin();
      if fail { return Err(StoreDown); }
      r := if id in templates && templates[id].tenant == tenant then Ok(templates[id]) else Err(RowNotFound);
    }

    method CreateTemplate(t: Template) returns (err: Option<Error>)
      modifies this`faults, this`templates
      ensures old(Clean()) ==> Clean()
      ensures err.None? ==>
                t.id !in old(templates) && !TemplateNameTaken(old(templates), t) &&
                templates == old(templates)[t.id := t]
      ensures err.Some? ==>
                && templates == old(templates)
                && ((err.value.StoreDown? && !old(Clean())) ||
                    (err.value.RowConflict? && (t.id in templates || TemplateNameTaken(templates, t))))
    {
      var fail := Begin();
      if fail { return Some(StoreDown); }
      if t.id in templates { return Some(RowConflict); }
      if exists k :: k in templates && templates[k].tenant == t.tenant && k != t.id &&
           EqualFold(templates[k].name, t.name)
      {
        return Some(RowConflict);
      }
      templates := templates[t.id := t];
      err := None;
    }

    method UpdateTemplate(t: Template) returns (err: Option<Error>)
      modifies this`faults, this`templates
      ensures old(Clean()) ==> Clean()
      ensures err.None? ==>
                && t.id in old(templates) && old(templates)[t.id].tenant == t.tenant
                && !TemplateNameTaken(old(templates), t)
                && templates ==
                   old(templates)[t.id := old(templates)[t.id].(name := t.name, description := t.description,
                                                                records := t.records)]
      ensures err.Some? ==>
                && templates == old(templates)
                && ((err.value.StoreDown? && !old(Clean()))
                    || (err.value.RowConflict? && TemplateNameTaken(templates, t))
                    || (err.value.RowNotFound? && !(t.id in templates && templates[t.id].tenant == t.tenant)))
    {
      var fail := Begin();
      if fail { return Some(StoreDown); }
      if !(t.id in templates && templates[t.id].tenant == t.tenant) { return Some(RowNotFound); }
      if exists k :: k in templates && templates[k].tenant == t.tenant && k != t.id &&
           EqualFold(templates[k].name, t.name)
      {
        return Some(RowConflict);
      }
      templates := templates[t.id := templates[t.id].(name := t.name, description := t.description,
                                                      records := t.records)];
      err := None;
    }

    method TemplateIds(tenant: string) returns (r: Result<set<string>>)
      modifies this`faults
      ensures old(Clean()) ==> Clean()
      ensures match r
              case Ok(ids) => ids == set k | k in templates && templates[k].tenant == tenant
              case Err(e) => e.StoreDown? && !old(Clean())
    {
      var fail := Begin();
      if fail { return Err(StoreDown); }
      r := Ok(set k | k in templates && templates[k].tenant == tenant);
    }

    method DeleteTemplate(tenant: string, id: string) returns (err: Option<Error>)
      modifies this`faults, this`templates
      ensures old(Clean()) ==> Clean()
      ensures err.None? ==>
                id in old(templates) && old(templates)[id].tenant == tenant && templates == old(templates) - {id}
      ensures err.Some? ==>
                && templates == old(templates)
                && ((err.value.StoreDown? && !old(Clean())) ||
                    (err.value.RowNotFound? && !(id in templates && templates[id].tenant == tenant)))
    {
      var fail := Begin();
      if fail { return Some(StoreDown); }
      if !(id in templates && templates[id].tenant == tenant) { return Some(RowNotFound); }
      templates := templates - {id};
      err := None;
    }

    // ----- supermasters

    method GetSupermaster(tenant: string, id: string) returns (r: Result<SupermasterRow>)
      modifies this`faults
      ensures old(Clean()) ==> Clean()
      ensures match r
              case Ok(s) => id in supermasters && supermasters[id] == s && s.tenant == tenant
              case Err(e) =>
                (e.StoreDown? && !old(Clean())) ||
                (e.RowNotFound? && !(id in supermasters && supermasters[id].tenant == tenant))
    {
      var fail := Begin();
      if fail { return Err(StoreDown); }
      r := if id in supermasters && supermasters[id].tenant == tenant then Ok(supermasters[id]) else Err(RowNotFound);
    }

    method CreateSupermaster(s: SupermasterRow) returns (err: Option<Error>)
      modifies this`faults, this`supermasters
      ensures old(Clean()) ==> Clean()
      ensures err.None? ==> !SupermasterTaken(old(supermasters), s) && supermasters == old(supermasters)[s.id := s]
      ensures err.Some? ==>
                && supermasters == old(supermasters)
                && ((err.value.StoreDown? && !old(Clean())) ||
                    (err.value.RowConflict? && SupermasterTaken(supermasters, s)))
    {
      var fail := Begin();
      if fail { return Some(StoreDown); }
      if s.id in supermasters { return Some(RowConflict); }
      if exists k :: k in supermasters && supermasters[k].ip == s.ip && supermasters[k].nameserver == s.nameserver {
        return Some(RowConflict);
      }
      supermasters := supermasters[s.id := s];
      err := None;
    }
  }
}
