/** The record operations of the IPAM sync (internal/ipamsync/sync.go, addValue to setPTR):
merging one address into a host's set, taking it out again, and owning a PTR set. */
module SyncRecords {
  import opened Strings
  import opened Names
  import opened Wrappers
  import opened Model
  import opened RecordSets
  import opened Pdns
  import opened Memstore
  import opened Records
  import opened Zones
  import opened Plan

  // ----- what the server holds

  function SetAt(server: ServerZones, id: string, name: string, typ: RRType): Option<RRset> {
    if id in server then Find(server[id].rrsets, name, typ) else None
  }

  function ContentsAt(server: ServerZones, id: string, name: string, typ: RRType): seq<string> {
    var r := SetAt(server, id, name, typ);
    if r.Some? then Contents(r.value.records) else []
  }

  ghost predicate HasValue(server: ServerZones, id: string, name: string, typ: RRType, value: string) {
    value in ContentsAt(server, id, name, typ)
  }

  /** Only the (name, type) set of one zone differs. */
  ghost predicate OnlySet(before: ServerZones, after: ServerZones, id: string, name: string, typ: RRType) {
    && after.Keys == before.Keys
    && (forall k :: k in before && k != id ==> after[k] == before[k])
    && (id in before ==> after[id].name == before[id].name && after[id].kind == before[id].kind)
    && (forall k, n, t :: !(k == id && Lower(n) == name && t == typ) ==>
          SetAt(after, k, n, t) == SetAt(before, k, n, t))
  }

  lemma OnlySetReflexive(server: ServerZones, id: string, name: string, typ: RRType)
    ensures OnlySet(server, server, id, name, typ)
  {
  }

  /** The zone row as the sync may use it: canonical, and under its name on the server if at all. */
  ghost predicate Usable(z: Zone, server: ServerZones) {
    && CanonicalZone(z.name) == Some(z.name)
    && (z.pdnsId in server ==> server[z.pdnsId].name == z.name)
  }

  ghost predicate OwnerIn(z: Zone, name: string) {
    RecordName(z.name, name) == Some(name) && Lower(name) == name
  }

  // ----- the effect of one accepted change

  lemma PutEffect(rules: Rules, z: Zone, inp: RecordSetInput, before: ServerZones, after: ServerZones, rr: RRset)
    requires ParserLaws(rules) && AllWellFormed(rules, before) && Usable(z, before) && OwnerIn(z, inp.name)
    requires z.pdnsId in before && RecordSetOf(rules, z.name, inp, before[z.pdnsId].rrsets) == Ok(rr)
    requires after == WithSets(before, z.pdnsId, Patch(before[z.pdnsId].rrsets, Model.Replace(rr)))
    ensures OnlySet(before, after, z.pdnsId, inp.name, inp.typ)
    ensures SetAt(after, z.pdnsId, inp.name, inp.typ) == Some(rr)
    ensures AllWellFormed(rules, after) && Usable(z, after)
  {
    hide RecordSetOf, CanonicalZone, RecordName, ParserLaws, WellFormed, Patch, Find, Lower;
    var sets := before[z.pdnsId].rrsets;
    PutShape(rules, z, inp, sets, rr);
    WellFormedLower(rules, z.name, sets);
    forall n, t
      ensures Find(Patch(sets, Model.Replace(rr)), n, t) ==
              if Lower(n) == rr.name && t == rr.typ then Some(rr) else Find(sets, n, t)
    {
      FindPatched(sets, Model.Replace(rr), n, t);
    }
    ReplacedWellFormed(rules, z.name, sets, inp);
  }

  /** What an accepted change says about the state before and after. */
  lemma PutDone(rules: Rules, z: Zone, inp: RecordSetInput, before: ServerZones, clean: bool, after: ServerZones)
    requires Outcome(rules, z, Put(inp), before, clean, None, after)
    ensures !NeedsMasters(z.kind) && z.pdnsId in before
    ensures RecordSetOf(rules, z.name, inp, before[z.pdnsId].rrsets).Ok?
    ensures var sets := before[z.pdnsId].rrsets;
            after == WithSets(before, z.pdnsId, Patch(sets, Model.Replace(RecordSetOf(rules, z.name, inp, sets).value)))
  {
    hide RecordSetOf, Patch;
  }

  lemma DropOutcome(rules: Rules, z: Zone, name: string, typ: RRType, before: ServerZones, clean: bool,
                    err: Option<Error>, after: ServerZones)
    requires Outcome(rules, z, Drop(name, typ), before, clean, err, after) && OwnerIn(z, name)
    ensures err.None? ==>
              && z.pdnsId in before && !NeedsMasters(z.kind)
              && after == WithSets(before, z.pdnsId, Patch(before[z.pdnsId].rrsets, Model.Remove(name, typ)))
    ensures err.Some? ==> after == before
    ensures err == Some(RecordNotFound) && z.pdnsId in before ==> SetAt(before, z.pdnsId, name, typ).None?
    ensures clean && z.pdnsId in before && !NeedsMasters(z.kind) && Usable(z, before) && Editable(typ) && err.Some? ==>
              err.value.RecordNotFound?
  {
    hide RecordName, CanonicalZone, Patch, Find;
  }

  lemma PutShape(rules: Rules, z: Zone, inp: RecordSetInput, sets: seq<RRset>, rr: RRset)
    requires OwnerIn(z, inp.name) && CanonicalZone(z.name) == Some(z.name)
    requires RecordSetOf(rules, z.name, inp, sets) == Ok(rr)
    ensures rr.name == inp.name && rr.typ == inp.typ && rr.records != []
  {
    hide CanonicalZone, RecordName, Clash;
  }

  lemma DropEffect(rules: Rules, z: Zone, name: string, typ: RRType, before: ServerZones, after: ServerZones)
    requires AllWellFormed(rules, before) && Usable(z, before) && OwnerIn(z, name)
    requires z.pdnsId in before &&
             after == WithSets(before, z.pdnsId, Patch(before[z.pdnsId].rrsets, Model.Remove(name, typ)))
    ensures OnlySet(before, after, z.pdnsId, name, typ)
    ensures SetAt(after, z.pdnsId, name, typ) == None
    ensures AllWellFormed(rules, after) && Usable(z, after)
  {
    hide CanonicalZone, RecordName, WellFormed, Patch, Find, Lower;
    var sets := before[z.pdnsId].rrsets;
    WellFormedLower(rules, z.name, sets);
    forall n, t
      ensures Find(Patch(sets, Model.Remove(name, typ)), n, t) ==
              if Lower(n) == name && t == typ then None else Find(sets, n, t)
    {
      FindPatched(sets, Model.Remove(name, typ), n, t);
    }
    DropPatch(sets, name, typ);
    RemovedWellFormed(rules, z.name, sets, name, typ);
  }

  lemma DropPatch(sets: seq<RRset>, name: string, typ: RRType)
    ensures Patch(sets, Model.Remove(name, typ)) == Without(sets, name, typ)
  {
  }

  /** Values that are canonical already are stored as they are. */
  lemma CanonicalKept(rules: Rules, zone: string, inp: RecordSetInput, sets: seq<RRset>, rr: RRset)
    requires RecordSetOf(rules, zone, inp, sets) == Ok(rr)
    requires forall i :: 0 <= i < |inp.values| ==>
               rules.content(inp.typ, inp.values[i].content) == Some(inp.values[i].content)
    ensures Contents(rr.records) == Contents(inp.values)
  {
    hide CanonicalZone, RecordName, Clash, ShapeOK;
  }

  /** The values of a set on a well-formed server are canonical. */
  lemma StoredCanonical(rules: Rules, server: ServerZones, id: string, name: string, typ: RRType)
    requires AllWellFormed(rules, server) && Editable(typ)
    ensures forall v :: v in ContentsAt(server, id, name, typ) ==> rules.content(typ, v) == Some(v)
  {
    hide Find, InZone, Lower;
    var f := SetAt(server, id, name, typ);
    if f.Some? {
      assert SetOK(rules, server[id].name, f.value);
    }
  }

  // ----- add

  function InputFor(name: string, typ: RRType, ttl: int, values: seq<string>): RecordSetInput {
    RecordSetInput(name, typ, ttl, Enabled(values), COMMENT)
  }

  /** The set with one more value: the current TTL and values, or a new set. */
  function AddInput(env: SyncEnv, server: ServerZones, id: string, name: string, typ: RRType,
                    value: string): RecordSetInput {
    var cur := SetAt(server, id, name, typ);
    InputFor(name, typ, if cur.Some? then cur.value.ttl else env.ttl, ContentsAt(server, id, name, typ) + [value])
  }

  /** The record service refuses the input for good. */
  ghost predicate PutRefused(rules: Rules, z: Zone, server: ServerZones, inp: RecordSetInput) {
    NeedsMasters(z.kind) || (z.pdnsId in server && RecordSetOf(rules, z.name, inp, server[z.pdnsId].rrsets).Err?)
  }

  predicate Permanent(e: Error) {
    e.Skipped? || e.Duplicate? || e.InvalidKind? || e.BadName? || e.BadRecord?
  }

  /** How an operation that leaves the server alone fails: for good, or because of a fault. */
  ghost predicate Failure(e: Error, refused: bool, clean: bool, z: Zone, server: ServerZones) {
    || (Permanent(e) && refused)
    || (e.Unavailable? && !clean)
    || (e.ServerNotFound? && z.pdnsId !in server)
  }

  method AddValue(pd: Server, env: SyncEnv, z: Zone, name: string, typ: RRType, value: string)
    returns (err: Option<Error>)
    requires SyncLaws(env) && AllWellFormed(env.base.rules, pd.zones) && Usable(z, pd.zones)
    requires OwnerIn(z, name) && AddressType(typ) && env.base.rules.content(typ, value) == Some(value)
    modifies pd`faults, pd`zones
    ensures old(pd.Clean()) ==> pd.Clean()
    ensures AllWellFormed(env.base.rules, pd.zones)
    ensures OnlySet(old(pd.zones), pd.zones, z.pdnsId, name, typ) && OneEdit(env.base.rules, z, old(pd.zones), pd.zones)
    // done: the value is there, after the values that were there, in their order
    ensures err.None? ==>
              && !pd.down && z.pdnsId in pd.zones
              && ContentsAt(pd.zones, z.pdnsId, name, typ) ==
                 if HasValue(old(pd.zones), z.pdnsId, name, typ, value) then
                   ContentsAt(old(pd.zones), z.pdnsId, name, typ)
                 else ContentsAt(old(pd.zones), z.pdnsId, name, typ) + [value]
    ensures old(HasValue(pd.zones, z.pdnsId, name, typ, value)) ==> pd.zones == old(pd.zones)
    // not done: nothing changed
    ensures err.Some? ==>
              && pd.zones == old(pd.zones)
              && Failure(err.value, !HasValue(pd.zones, z.pdnsId, name, typ, value) &&
                                    PutRefused(env.base.rules, z, pd.zones,
                                               AddInput(env, pd.zones, z.pdnsId, name, typ, value)),
                         old(pd.Clean()), z, pd.zones)
    ensures old(pd.Clean()) && err.None? && !old(HasValue(pd.zones, z.pdnsId, name, typ, value)) ==>
              !old(PutRefused(env.base.rules, z, pd.zones, AddInput(env, pd.zones, z.pdnsId, name, typ, value)))
  {
    hide RecordSetOf, CanonicalZone, RecordName, SyncLaws, AllWellFormed, Find, OnlySet, ParserLaws, Outcome, Patch,
      OneEdit;
    OnlySetReflexive(pd.zones, z.pdnsId, name, typ);
    NoEdit(env.base.rules, z, pd.zones);
    LawsOf(env);
    var cur := Lookup(pd, z, name, typ);
    if cur.Err? && !cur.error.RecordNotFound? { return Some(cur.error); }
    if cur.Ok? && value in Contents(cur.value.records) { return None; }
    var inp := AddInput(env, pd.zones, z.pdnsId, name, typ, value);
    ghost var clean := pd.Clean();
    var r := Apply(pd, env.base.rules, z, inp);
    if r.Err? {
      PutFailure(env.base.rules, z, inp, old(pd.zones), clean, r.error, pd.zones);
      return Some(r.error);
    }
    PutDone(env.base.rules, z, inp, old(pd.zones), clean, pd.zones);
    EditMade(env.base.rules, z, Put(inp), old(pd.zones), clean, pd.zones);
    PutEffect(env.base.rules, z, inp, old(pd.zones), pd.zones, r.value);
    StoredCanonical(env.base.rules, old(pd.zones), z.pdnsId, name, typ);
    CanonicalKept(env.base.rules, z.name, inp, old(pd.zones)[z.pdnsId].rrsets, r.value);
    err := None;
  }

  lemma LawsOf(env: SyncEnv)
    requires SyncLaws(env)
    ensures ParserLaws(env.base.rules)
  {
  }

  lemma PutFailure(rules: Rules, z: Zone, inp: RecordSetInput, before: ServerZones, clean: bool, e: Error,
                   after: ServerZones)
    requires Outcome(rules, z, Put(inp), before, clean, Some(e), after) && Usable(z, before)
    ensures after == before && Failure(e, PutRefused(rules, z, before, inp), clean, z, before)
  {
    hide RecordName, CanonicalZone;
  }

  // ----- remove

  function Minus(vs: seq<string>, value: string): (rest: seq<string>)
    ensures forall v :: v in rest <==> v in vs && v != value
    ensures |rest| <= |vs|
    ensures |rest| == |vs| <==> value !in vs
    ensures value !in vs ==> rest == vs
  {
    if vs == [] then []
    else if vs[0] == value then Minus(vs[1..], value)
    else [vs[0]] + Minus(vs[1..], value)
  }

  /** The set without one value. */
  function RestOf(cur: RRset, name: string, value: string): RecordSetInput {
    RecordSetInput(name, cur.typ, cur.ttl, Enabled(Minus(Contents(cur.records), value)), CommentOf(cur))
  }

  /** Nothing but a fault can keep the value: the zone is on the server, and if the value is there
  the zone is primary and what is left of the set is accepted. */
  ghost predicate Removable(rules: Rules, z: Zone, server: ServerZones, name: string, typ: RRType, value: string) {
    && z.pdnsId in server
    && var cur := SetAt(server, z.pdnsId, name, typ);
       cur.Some? && value in Contents(cur.value.records) ==>
         && !NeedsMasters(z.kind)
         && (Minus(Contents(cur.value.records), value) != [] ==>
               RecordSetOf(rules, z.name, RestOf(cur.value, name, value), server[z.pdnsId].rrsets).Ok?)
  }

  /** Takes one value out of a set, deleting the set with its last value. A zone or set that is
  gone is fine. */
  method RemoveValue(st: Store, pd: Server, env: SyncEnv, tenant: string, zoneId: string, name: string, typ: RRType,
                     value: string)
    returns (err: Option<Error>)
    requires SyncLaws(env) && AllWellFormed(env.base.rules, pd.zones) && AddressType(typ)
    requires OwnedBy(st.zones, tenant, zoneId) ==> Usable(st.zones[zoneId], pd.zones) && OwnerIn(st.zones[zoneId], name)
    modifies st`faults, pd`faults, pd`zones
    ensures old(st.Clean()) ==> st.Clean()
    ensures old(pd.Clean()) ==> pd.Clean()
    ensures AllWellFormed(env.base.rules, pd.zones)
    ensures err.None? && !OwnedBy(st.zones, tenant, zoneId) ==> pd.zones == old(pd.zones)
    // done: the value is gone, the others stay in their order
    ensures OwnedBy(st.zones, tenant, zoneId) ==>
              && OnlySet(old(pd.zones), pd.zones, st.zones[zoneId].pdnsId, name, typ)
              && OneEdit(env.base.rules, st.zones[zoneId], old(pd.zones), pd.zones)
    ensures err.None? && OwnedBy(st.zones, tenant, zoneId) ==>
              ContentsAt(pd.zones, st.zones[zoneId].pdnsId, name, typ) ==
              Minus(ContentsAt(old(pd.zones), st.zones[zoneId].pdnsId, name, typ), value)
    // not done: nothing changed
    ensures err.Some? ==> pd.zones == old(pd.zones)
    ensures pd.down ==>
              pd.zones == old(pd.zones) && (old(st.Clean()) && OwnedBy(st.zones, tenant, zoneId) ==> err.Some?)
    // without faults it is done exactly when nothing else keeps the value
    ensures old(st.Clean() && pd.Clean()) ==>
              (err.None? <==>
                 (OwnedBy(st.zones, tenant, zoneId) ==>
                    old(Removable(env.base.rules, st.zones[zoneId], pd.zones, name, typ, value))))
  {
    hide RecordSetOf, CanonicalZone, RecordName, SyncLaws, AllWellFormed, Find, OnlySet, ParserLaws, Outcome, Patch,
      OneEdit;
    LawsOf(env);
    if OwnedBy(st.zones, tenant, zoneId) {
      OnlySetReflexive(pd.zones, st.zones[zoneId].pdnsId, name, typ);
      NoEdit(env.base.rules, st.zones[zoneId], pd.zones);
    }
    var got := Owned(st, tenant, zoneId);
    if got.Err? { return if got.error.ZoneNotFound? then None else Some(got.error); }
    var z := got.value;
    var cur := Lookup(pd, z, name, typ);
    if cur.Err? { return if cur.error.RecordNotFound? then None else Some(cur.error); }
    var rest := Minus(Contents(cur.value.records), value);
    if |rest| == |cur.value.records| { return None; }
    if rest == [] {
      ghost var sure := pd.Clean();
      err := Records.Delete(pd, env.base.rules, z, name, typ);
      DropOutcome(env.base.rules, z, name, typ, old(pd.zones), sure, err, pd.zones);
      if err.None? {
        EditMade(env.base.rules, z, Edit.Drop(name, typ), old(pd.zones), sure, pd.zones);
        DropEffect(env.base.rules, z, name, typ, old(pd.zones), pd.zones);
      } else if err.value.RecordNotFound? {
        err := None;
      }
      return;
    }
    var inp := RestOf(cur.value, name, value);
    FoundType(pd.zones, z.pdnsId, name, typ);
    ghost var clean := pd.Clean();
    var r := Apply(pd, env.base.rules, z, inp);
    if r.Err? {
      PutFailure(env.base.rules, z, inp, old(pd.zones), clean, r.error, pd.zones);
      return Some(r.error);
    }
    PutDone(env.base.rules, z, inp, old(pd.zones), clean, pd.zones);
    EditMade(env.base.rules, z, Put(inp), old(pd.zones), clean, pd.zones);
    PutEffect(env.base.rules, z, inp, old(pd.zones), pd.zones, r.value);
    StoredCanonical(env.base.rules, old(pd.zones), z.pdnsId, name, typ);
    CanonicalKept(env.base.rules, z.name, inp, old(pd.zones)[z.pdnsId].rrsets, r.value);
    err := None;
  }

  lemma FoundType(server: ServerZones, id: string, name: string, typ: RRType)
    ensures SetAt(server, id, name, typ).Some? ==> SetAt(server, id, name, typ).value.typ == typ
  {
    hide Lower;
  }

  function CommentOf(r: RRset): string { if r.comments == [] then "" else r.comments[0] }

  /** Deletes the whole set; a zone or set that is gone is fine. */
  method RemoveSet(st: Store, pd: Server, env: SyncEnv, tenant: string, zoneId: string, name: string, typ: RRType)
    returns (err: Option<Error>)
    requires AllWellFormed(env.base.rules, pd.zones) && Editable(typ)
    requires OwnedBy(st.zones, tenant, zoneId) ==> Usable(st.zones[zoneId], pd.zones) && OwnerIn(st.zones[zoneId], name)
    modifies st`faults, pd`faults, pd`zones
    ensures old(st.Clean()) ==> st.Clean()
    ensures old(pd.Clean()) ==> pd.Clean()
    ensures AllWellFormed(env.base.rules, pd.zones)
    ensures err.None? && !OwnedBy(st.zones, tenant, zoneId) ==> pd.zones == old(pd.zones)
    ensures OwnedBy(st.zones, tenant, zoneId) ==>
              && OnlySet(old(pd.zones), pd.zones, st.zones[zoneId].pdnsId, name, typ)
              && OneEdit(env.base.rules, st.zones[zoneId], old(pd.zones), pd.zones)
    ensures err.None? && OwnedBy(st.zones, tenant, zoneId) ==>
              SetAt(pd.zones, st.zones[zoneId].pdnsId, name, typ) == None
    ensures err.Some? ==> pd.zones == old(pd.zones)
    ensures pd.down ==> pd.zones == old(pd.zones)
    ensures old(st.Clean() && pd.Clean()) &&
            (OwnedBy(st.zones, tenant, zoneId) ==>
               old(st.zones[zoneId].pdnsId in pd.zones) && !NeedsMasters(st.zones[zoneId].kind)) ==>
              err.None?
  {
    hide RecordSetOf, CanonicalZone, RecordName, AllWellFormed, Find, OnlySet, Outcome, Patch, OneEdit;
    if OwnedBy(st.zones, tenant, zoneId) {
      OnlySetReflexive(pd.zones, st.zones[zoneId].pdnsId, name, typ);
      NoEdit(env.base.rules, st.zones[zoneId], pd.zones);
    }
    var got := Owned(st, tenant, zoneId);
    if got.Err? { return if got.error.ZoneNotFound? then None else Some(got.error); }
    var z := got.value;
    ghost var sure := pd.Clean();
    err := Records.Delete(pd, env.base.rules, z, name, typ);
    DropOutcome(env.base.rules, z, name, typ, old(pd.zones), sure, err, pd.zones);
    if err.None? {
      EditMade(env.base.rules, z, Edit.Drop(name, typ), old(pd.zones), sure, pd.zones);
      DropEffect(env.base.rules, z, name, typ, old(pd.zones), pd.zones);
    } else if err.value.RecordNotFound? {
      err := None;
    }
  }

  // ----- PTR

  function PtrInput(env: SyncEnv, owner: string, host: string): RecordSetInput {
    InputFor(owner, PTR, env.ttl, [host])
  }

  /** Points the owner at the host; a set doing so already is left alone. */
  method SetPTR(pd: Server, env: SyncEnv, z: Zone, owner: string, host: string) returns (err: Option<Error>)
    requires SyncLaws(env) && AllWellFormed(env.base.rules, pd.zones) && Usable(z, pd.zones)
    requires OwnerIn(z, owner) && Hostname(host) == Some(host)
    modifies pd`faults, pd`zones
    ensures old(pd.Clean()) ==> pd.Clean()
    ensures AllWellFormed(env.base.rules, pd.zones)
    ensures OnlySet(old(pd.zones), pd.zones, z.pdnsId, owner, PTR) &&
            OneEdit(env.base.rules, z, old(pd.zones), pd.zones)
    ensures err.None? ==> !pd.down && z.pdnsId in pd.zones && ContentsAt(pd.zones, z.pdnsId, owner, PTR) == [host]
    ensures old(ContentsAt(pd.zones, z.pdnsId, owner, PTR)) == [host] ==> pd.zones == old(pd.zones)
    ensures err.Some? ==>
              && pd.zones == old(pd.zones)
              && Failure(err.value, ContentsAt(pd.zones, z.pdnsId, owner, PTR) != [host] &&
                                    PutRefused(env.base.rules, z, pd.zones, PtrInput(env, owner, host)),
                         old(pd.Clean()), z, pd.zones)
    ensures old(pd.Clean()) && err.None? && old(ContentsAt(pd.zones, z.pdnsId, owner, PTR)) != [host] ==>
              !old(PutRefused(env.base.rules, z, pd.zones, PtrInput(env, owner, host)))
  {
    hide RecordSetOf, CanonicalZone, RecordName, SyncLaws, AllWellFormed, Find, OnlySet, ParserLaws, Hostname, Outcome,
      Patch, OneEdit;
    OnlySetReflexive(pd.zones, z.pdnsId, owner, PTR);
    NoEdit(env.base.rules, z, pd.zones);
    LawsOf(env);
    var cur := Lookup(pd, z, owner, PTR);
    if cur.Err? && !cur.error.RecordNotFound? { return Some(cur.error); }
    if cur.Ok? && Contents(cur.value.records) == [host] { return None; }
    var inp := PtrInput(env, owner, host);
    ghost var clean := pd.Clean();
    var r := Apply(pd, env.base.rules, z, inp);
    if r.Err? {
      PutFailure(env.base.rules, z, inp, old(pd.zones), clean, r.error, pd.zones);
      return Some(r.error);
    }
    PutDone(env.base.rules, z, inp, old(pd.zones), clean, pd.zones);
    EditMade(env.base.rules, z, Put(inp), old(pd.zones), clean, pd.zones);
    PutEffect(env.base.rules, z, inp, old(pd.zones), pd.zones, r.value);
    HostIsPtr(env, host);
    CanonicalKept(env.base.rules, z.name, inp, old(pd.zones)[z.pdnsId].rrsets, r.value);
    assert Contents(inp.values) == [host];
    err := None;
  }

  lemma HostIsPtr(env: SyncEnv, host: string)
    requires SyncLaws(env) && Hostname(host) == Some(host)
    ensures env.base.rules.content(PTR, host) == Some(host)
  {
  }
}
