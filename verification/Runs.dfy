/** What every run of every writer keeps on the server: record changes (by people, by the IPAM sync
and by challenges alike, which all go through the record service), zones created from templates
or bare, metadata updates and deletions. */
module Runs {
  import opened Names
  import opened Wrappers
  import opened Model
  import opened Memstore
  import opened RecordSets
  import opened Records
  import opened Templates
  import opened Zones

  /** A step of a run. A created zone is what a row, the template expanded for it and its name
  servers make. */
  datatype Step =
    | Edits(z: Zone, e: Edit, clean: bool, err: Option<Error>)
    | Creates(z: Zone, templates: TemplateRows)
    | Describes(id: string)
    | Deletes(id: string)

  ghost predicate Next(env: Env, a: ServerZones, step: Step, b: ServerZones) {
    match step
    case Edits(z, e, clean, err) => Linked(z, a) && Outcome(env.rules, z, e, a, clean, err, b)
    case Creates(z, templates) =>
      CanonicalZone(z.name) == Some(z.name) && HostList(z.nameservers) && OneMore(a, b, z.name) &&
      CreatedFrom(env, templates, z, b)
    case Describes(id) => MetadataOnly(a, b, id)
    case Deletes(id) => b == a - {id}
  }

  /** What a create leaves is such a step, whether or not its row could be inserted. */
  lemma CreateIsNext(env: Env, templates: TemplateRows, tenant: string, inp: CreateInput, newId: string, z: Zone,
                     a: ServerZones, b: ServerZones)
    requires RowFor(env, tenant, inp, newId, z) && OneMore(a, b, z.name) && CreatedFrom(env, templates, z, b)
    ensures Next(env, a, Creates(z, templates), b)
  {
    hide CreatedFrom, OneMore, HostList, CanonicalZone;
    RowFacts(env, tenant, inp, newId, z);
    ZoneNameIdempotent(env.isSuffix, inp.name);
  }

  /** What the IPAM sync and the challenges write to a zone is such a step, or nothing. */
  lemma EditIsNext(env: Env, z: Zone, a: ServerZones, b: ServerZones)
    requires Linked(z, a) && OneEdit(env.rules, z, a, b)
    ensures b == a || exists e, clean :: Next(env, a, Edits(z, e, clean, None), b)
  {
    hide Outcome;
    if b != a {
      var e, clean :| Outcome(env.rules, z, e, a, clean, None, b);
      assert Next(env, a, Edits(z, e, clean, None), b);
    }
  }

  lemma CreatedIsWellFormed(env: Env, templates: TemplateRows, z: Zone, server: ServerZones)
    requires ParserLaws(env.rules) && CanonicalZone(z.name) == Some(z.name) && HostList(z.nameservers)
    requires CreatedFrom(env, templates, z, server)
    ensures WellFormed(env.rules, z.name, server[z.name].rrsets)
  {
    hide ParserLaws, CanonicalZone, HostList, Zones.Merged, WellFormed, FromTemplate;
    var tpl, out, ns :|
      FromTemplate(env, templates, z, tpl) && Zones.Merged(z.name, tpl, z.nameservers, out, ns) &&
      server[z.name] == CreatedZone(z, ns, out);
    TemplateIsGood(env, templates, z, tpl);
    CreatedWellFormed(env.rules, z.name, z.nameservers, tpl, out, ns);
  }

  lemma TemplateIsGood(env: Env, templates: TemplateRows, z: Zone, sets: seq<RRset>)
    requires FromTemplate(env, templates, z, sets)
    ensures GoodSets(env.rules, z.name, sets)
  {
    hide AllSingle, KeyOrder, Sourced, HasSet, WellFormed;
    EmptyGood(env.rules, z.name);
  }

  lemma StepKeeps(env: Env, a: ServerZones, step: Step, b: ServerZones)
    requires ParserLaws(env.rules) && AllWellFormed(env.rules, a) && Next(env, a, step, b)
    ensures AllWellFormed(env.rules, b)
    ensures forall id :: id in a && id in b ==> SameSoa(a[id].rrsets, b[id].rrsets)
  {
    hide WellFormed, ParserLaws, Outcome, CanonicalZone, CreatedFrom, HostList;
    match step
    case Edits(z, e, clean, err) => OutcomeKeeps(env.rules, z, e, a, clean, err, b);
    case Creates(z, templates) =>
      CreatedIsWellFormed(env, templates, z, b);
      OneMoreWellFormed(env.rules, a, b, z.name);
    case Describes(id) =>
    case Deletes(id) =>
  }

  ghost predicate IsRun(env: Env, trace: seq<ServerZones>, steps: seq<Step>) {
    && |trace| == |steps| + 1
    && forall i :: 0 <= i < |steps| ==> Next(env, trace[i], steps[i], trace[i + 1])
  }

  /** Over every run, every zone of the server is well formed in every state, and a zone that is
  there throughout keeps the SOA record it started with. */
  lemma {:induction false} RunKeeps(env: Env, trace: seq<ServerZones>, steps: seq<Step>, n: nat)
    requires ParserLaws(env.rules) && IsRun(env, trace, steps) && n <= |steps| && AllWellFormed(env.rules, trace[0])
    ensures AllWellFormed(env.rules, trace[n])
    ensures forall id :: (forall i :: 0 <= i <= n ==> id in trace[i]) ==>
              SameSoa(trace[0][id].rrsets, trace[n][id].rrsets)
  {
    hide AllWellFormed, ParserLaws, Next;
    if n > 0 {
      RunKeeps(env, trace, steps, n - 1);
      StepKeeps(env, trace[n - 1], steps[n - 1], trace[n]);
    }
  }
}
