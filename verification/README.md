# Verified model of a multi-tenant DNS control plane

The control plane keeps three stores in step: its own rows (zones, templates, supermasters,
IPAM sync rows, ACME challenge rows), the record sets of an authoritative server, and the
forward table of a recursor. No transaction spans them, and every call may fail. This project
models the services that write them, as methods over the in-memory row store
(`internal/memstore`) and the authoritative server double (`internal/pdns/fake.go`), and proves
what their runs keep.

- **IPAM sync** (`SyncRecords`, `SyncClaims`, `SyncState`, `SyncForward`, `SyncReverse`, `Sync`,
  `Syncer`, with `Plan` and `ReverseNames`): an event re-reads an address and converges its
  address record and PTR set. Over every run with calls failing at any point, each record that
  an event of an address put on the server, or rewrote there, and that is still there is named by
  the row of that address (`Syncer.RunTracks`), so a deleted address leaves nothing behind
  (`Syncer.RunForgets`). A fault-free event converges and repeating it changes nothing
  (`Syncer.AgainChangesNothing`).
- **Zones** (`Zones`, `Ownership`, `Templates`): server-first writes with compensation. Zones of
  different tenants never overlap over any run of whole calls (`Ownership.RunsNeverOverlap`);
  create, update and delete agree on both stores or can be repeated.
- **Challenges** (`Challenges`, `Sweeper`, `ChallengeRuns`, `ChallengeLocks`): read-modify-write
  of one TXT set under striped locks, with rows for a batched sweeper. Under any interleaving no
  update is lost (`ChallengeLocks.RunReplays`). Over every run each published value that is still
  shown has its row (`ChallengeRuns.RunBooks`), and `ceil(n / 100)` passes clear `n` stale rows
  and take their values off the server (`Sweeper.Passes`).
- **Records** (`RecordSets`, `Records`, `Runs`): every writer keeps every zone of the server well
  formed in every state of every run (`Runs.RunKeeps`); a created zone is well formed by how it
  is made, not by assumption (`Runs.CreatedIsWellFormed`).
- **Backup import** (`Backup`): rows are re-linked to what the server holds; importing twice is
  importing once, even under new ids (`Backup.ImportTwice`).
- **Small cores**: `Ids` (UUIDv7 minting), `Ordering` (canonical DNS order), `TxtQuoting` (the TXT
  quoting automaton), `Stream` (the event hub), `Reconciler` (forward table), `Config` (renderers
  and apply).

Check it with `dafny verify dfyconfig.toml` (Dafny 4.11).

## How the model is built

- **Faults.** The row store, the server, the recursor and the file host carry `faults`, a sequence
  of choices consumed one per call; an empty one means that nothing fails any more (`Clean()`).
  The server may also be `down` for good. A failing call fails before it has an effect.
- **Foreign code** is a function-valued parameter with stated laws: the rdata parser
  (`RecordSets.ParserLaws`: canonical text parses to itself), the Public Suffix List
  (`Plan.SyncLaws`: a label suffix of the host), the address parsers and `dns.IsDomainName`.
- **Clocks, random bytes, new ids** and the answers of IPAM are parameters.
- **Ghost sets** of written values (`mine` in `Syncer`, `vs` in `Challenges`) record what a run
  published and did not remove; the code has no such set.
- **Strings** are sequences of characters; lower-casing and trimming are ASCII.

## Where the code is weaker than one might expect

Each item names a case and the condition under which the property holds.

- Exact tracking needs an address literal that is stable per id: `upsert` overwrites the address
  even when it keeps the old forward reference. Case: `Sync.ChangedAddressUnnamed`, which
  `Sync.BothSides` reaches for any changed address while the server is unreachable. Condition:
  `Sync.RowNamesClaims`.
- It also needs the PTR set of the event's own row to lie in a primary zone: a PTR refused for good
  drops the reference although the set cannot be removed either. Case: `Sync.ForgottenPtrUnnamed`.
  Condition: `Sync.RowNamesClaims`.
- `upsert` returns only removal errors, so no error does not mean converged. Case: a new address
  while the server is unreachable (`Syncer.HandleUnreachable`, with `Syncer.NotAtRest`). Condition:
  no faults, and the records of the row can be removed (`Syncer.AgainChangesNothing`).
- Overlap freedom needs each create or import to be one step. Case:
  `Ownership.InterleavedCreatesOverlap`. An insert keeps it exactly when nothing overlaps at that
  moment (`Ownership.InsertKeepsApart`).
- A subnet has one reverse zone exactly when its prefix reaches the lower clamp
  (`ReverseNames.OneZoneFromClamp`). Case: every wider one (`ReverseNames.WideSubnetSplits`).
- An apply settles exactly when the two managed files differ in path (`Config.ApplyTwice`).
- A replay may skip events: the position moves before the send and a full buffer is ignored there.
  Case: every replay longer than the room in the queue (`Stream.ReplaySkips`), such as 33 entries
  into an empty one (`Stream.BurstSkips`). Everything arrives exactly when the subscription is
  open, the ids increase above its last one and the queue has room (`Stream.AllArrive`).
- Re-presenting a challenge does not refresh the age of its row, so the sweeper takes a value that
  was presented again recently. Case: `ChallengeRuns.PresentedAgain`. Condition: a value whose row
  is younger than the cutoff stays (`Sweeper.YoungKept`).

## Model

| member | source | states |
|---|---|---|
| `Names.OverlapsIsNesting` | internal/memstore/memstore.go:250-252 | two zone names overlap exactly when one contains the other; overlap is symmetric |
| `Names.ZonesOfNameNest` | internal/store/models.go:127-142 | any two zones that contain one name are nested, so they overlap, and equally long ones are equal: the reason a longest match is unique |
| `Names.SplitNameIdempotent` | internal/validate/names.go:66-84 | the canonical form of a name is accepted again, unchanged |
| `Names.ZoneNameIdempotent` | internal/validate/names.go:88-155 | a canonical zone name is its own canonical form, for both zone validators |
| `Names.HostnameIdempotent` | internal/validate/names.go:197-214 | a canonical host name is its own canonical form and a legal owner name |
| `Names.RecordNameSound` | internal/validate/names.go:161-192 | every accepted owner name, relative or absolute, is canonical, lies inside the zone, and is accepted again unchanged |
| `Names.RecordNameAbsolute` | internal/validate/names.go:161-192 | an absolute canonical owner inside the zone is accepted as it is |
| `RecordSets.FindClash` | internal/validate/recordset.go:81-91 | the loop reports a clash exactly when a CNAME would share its name with another type |
| `RecordSets.ParseValues` | internal/validate/recordset.go:93-105 | the loop over the values gives the canonical values in order, and fails on the first one that does not parse or repeats |
| `RecordSets.RecordSet` | internal/validate/recordset.go:51-113 | the whole validator, with its error for each refused input |
| `RecordSets.AcceptedSetOK` | internal/validate/recordset.go:51-113 | an accepted record set is canonical, editable, inside the zone, has distinct values (one for a CNAME, none at the apex) and clashes with nothing that is there |
| `RecordSets.ReplacedWellFormed` | internal/records/records.go:256-269 | replacing a validated set keeps the whole zone well formed |
| `RecordSets.RenamedWellFormed` | internal/records/records.go:339-372 | a rename validated against the other sets keeps the whole zone well formed, whether or not the key changed |
| `RecordSets.RenameOrder` | internal/pdns/fake.go:237-278 | replace-then-delete in one patch leaves the old key gone and the new set last, for different keys |
| `Model.FindPatched` | internal/pdns/fake.go:186-195 | a change rewrites the view by (name, type) at one key and at no other |
| `Pdns.Server.GetZone` | internal/pdns/fake.go:128-139 | the stored zone, or unavailable only under a fault, or not found only when it is not there |
| `Pdns.Server.CreateZone` | internal/pdns/fake.go:143-184 | success adds exactly the new zone with its SOA, name servers and initial sets; every refusal changes nothing and has its reason |
| `Pdns.Server.UpdateZoneMetadata` | internal/pdns/fake.go:198-217 | only kind, primaries, DNSSEC and a non-empty account change |
| `Pdns.Server.DeleteZone` | internal/pdns/fake.go:220-231 | success removes exactly that zone; every refusal changes nothing and has its reason |
| `Pdns.Server.PatchRRsets` | internal/pdns/fake.go:237-278 | all changes apply in order and bump the serial once, or none applies; a replacement without a comment list keeps the stored comments |
| `Pdns.TakeFirst` | internal/pdns/fake.go:368-381 | the loop takes out the first matching entry and says whether there was one |
| `Pdns.AddedThenUnlisted` | internal/pdns/fake.go:352-381 | deleting an entry that was just created restores the list |
| `Memstore.Store.CreateZone` | internal/memstore/memstore.go:111-136 | a row is added exactly when its id, name and server id are free, else nothing changes |
| `Memstore.Store.UpdateZone` | internal/memstore/memstore.go:213-227 | writes the mutable columns of a row of that tenant; id, tenant, name and server id stay |
| `Memstore.Store.DeleteZone` | internal/memstore/memstore.go:230-246 | removes the row and cascades to the challenge rows of the zone |
| `Memstore.Store.ZoneConflict` | internal/memstore/memstore.go:255-268 | true exactly when another tenant has a zone overlapping the lower-cased name |
| `Memstore.Store.ZonesForTenant` | internal/memstore/memstore.go:286-297 | exactly the rows of the tenant, each once |
| `Memstore.Store.ClearSyncZone` | internal/memstore/memstore.go:639-658 | clears exactly the references of that tenant to that zone |
| `Memstore.Store.InsertChallenge` | internal/memstore/memstore.go:663-683 | adds a row for an owned zone; a row of the same tenant, name and value makes it a conflict |
| `Memstore.Store.ChallengesOlderThan` | internal/memstore/memstore.go:702-724 | the oldest rows before the time, in age order, at most the limit of them |
| `Memstore.InsertByAge` | internal/memstore/memstore.go:702-724 | the sort step keeps the list in age order with exactly one more row |
| `Memstore.BatchTakesOldest` | internal/memstore/memstore.go:702-724 | for every earlier time, a batch takes min(limit, n) of the n rows older than it: the oldest really go first |
| `Ownership.LongestZone` | internal/store/models.go:133-142 | the loop returns a longest zone containing the name, or none exactly when no zone contains it |
| `Ownership.LongestIsUnique` | internal/store/models.go:133-142 | two listings of one tenant in any order give the same answer |
| `Ownership.InsertKeepsApart` | internal/zones/zones.go:345-354 | inserting a row keeps tenants apart exactly when no other tenant overlaps at that moment |
| `Ownership.RunsNeverOverlap` | internal/zones/zones.go:325-391 | over every run of whole creates, updates, deletes and imports by any tenants, zones of different tenants never overlap, and names and server ids are unique |
| `Ownership.NameHasOneTenant` | internal/zones/zones.go:528-545 | then any DNS name lies inside the zones of at most one tenant |
| `Ownership.InterleavedNamesUnique` | internal/memstore/memstore.go:120-124 | under any interleaving of the calls, global uniqueness of names and server ids still holds |
| `Ownership.InterleavedCreatesOverlap` | internal/memstore/memstore.go:111-136 | but overlap freedom does not: two creates that both check before either inserts, on corp.example. and dev.corp.example. |
| `Zones.Nameservers` | internal/zones/zones.go:254-274 | the name servers are the canonical hosts, each once; refused exactly for too many or a bad one; none for a secondary |
| `Zones.Prepare` | internal/zones/zones.go:295-323 | accepted exactly when name, kind with primaries, name servers, description and origin are; the row carries each of them in canonical form |
| `Zones.MergeApexNS` | internal/zones/zones.go:396-421 | without an apex NS set both lists stay; else that set gets exactly the name servers it lacks, after its values, and the list is empty |
| `Zones.CreatedWellFormed` | internal/zones/zones.go:396-421 | whatever the template and name servers, the zone handed to the server is well formed and acceptable to it |
| `Zones.Vacant` | internal/zones/zones.go:344-361 | passes only when the tenant has no such zone, no other tenant overlaps and the server does not hold the name; without faults it fails only for one of these |
| `Zones.Admit` | internal/zones/zones.go:325-361 | nothing is written; admitted requests have their row and their template expansion; without faults an acceptable request is refused only for a taken name |
| `Zones.Commit` | internal/zones/zones.go:363-391 | server zone and row together, or neither unless the compensating delete failed; without faults the only refusals are taken names and sets the server rejects |
| `Zones.Make` | internal/zones/zones.go:362-391 | the server zone is made of the row, the template and the name servers; every server zone stays well formed |
| `Zones.Create` | internal/zones/zones.go:280-391 | row and server zone in agreement, or (if the compensation succeeded) both stores as before; keeps tenants apart and every zone well formed; without faults an acceptable request for a free name succeeds |
| `Zones.Owned` | internal/zones/zones.go:447-463 | the row exactly when the tenant owns it |
| `Zones.FindForName` | internal/zones/zones.go:500-545 | the name in its canonical form; the tenant's longest zone containing it, or not found exactly when the name is no domain name or none does |
| `Zones.ContainingZoneUnique` | internal/zones/zones.go:528-545 | that zone is unique |
| `Zones.Rewrite` | internal/zones/zones.go:608-625 | server metadata and row together, or (if putting it back succeeded) both as before; records never change |
| `Zones.Update` | internal/zones/zones.go:584-625 | the updated row with the server in agreement, or both as before; without faults the answer is exactly what row and request decide; no other zone and no record changes |
| `Zones.Delete` | internal/zones/zones.go:630-657 | success leaves no row, server zone, sync reference or challenge row of the zone and touches nothing else; every failure keeps the row, and clears references only after the server zone is gone, so repeating the call without faults succeeds, from any failure point |
| `Records.Lookup` | internal/records/records.go:274-293 | the set of that name and type, or not found exactly when there is none |
| `Records.Apply` | internal/records/records.go:232-269 | one validated set replaced in one zone, or nothing changed with the reason |
| `Records.PlanUpdate` | internal/records/records.go:339-372 | the patch has exactly the effect of the edit, for a rename too |
| `Records.Update` | internal/records/records.go:320-372 | the edit applied to one zone and nothing else, or nothing changed with the reason |
| `Records.PlanDelete` | internal/records/records.go:409-425 | the patch has exactly the effect of the removal; refused exactly when there is no such set |
| `Records.Delete` | internal/records/records.go:375-425 | exactly that set removed, or nothing changed with the reason |
| `Records.EditKeeps` | internal/records/records.go:256-425 | every accepted edit keeps the zone well formed and its SOA untouched |
| `Records.RunKeepsWellFormed` | internal/records/records.go:232-425 | over every run of edits on a zone, accepted or refused: one set per (name, type), all names inside, a CNAME alone with one value and never at the apex, distinct values, SOA untouched |
| `Records.OutcomeKeeps` | internal/records/records.go:232-425 | whatever a call ends in, every zone of the server stays well formed with its SOA |
| `Runs.CreateIsNext` | internal/zones/zones.go:280-391 | what Zones.Create leaves on the server is a create step: the new zone is made of the merged apex NS set and the expanded template |
| `Runs.EditIsNext` | internal/pdns/fake.go:237-278 | what each record writer (records, IPAM sync, challenges) leaves is one validated edit of one zone, or nothing |
| `Runs.CreatedIsWellFormed` | internal/zones/zones.go:396-421 | a zone so made is well formed: not assumed of the step |
| `Runs.StepKeeps` | internal/pdns/fake.go:143-278 | one step of any writer (records, IPAM, challenges, zone create, metadata, delete) keeps every server zone well formed |
| `Runs.RunKeeps` | internal/pdns/fake.go:143-278 | over every run of all writers, every zone is well formed in every state, and a zone that is there throughout keeps its SOA |
| `Templates.KeyInjective` | internal/templates/expand.go:95-103 | equal grouping keys are equal names and types |
| `Templates.SumForAll` | internal/templates/expand.go:95-103 | every record falls into exactly one group: no value is lost or doubled |
| `Templates.GroupRecords` | internal/templates/expand.go:69-103 | the first loop succeeds exactly when each record alone is valid; groups hold the values in template order |
| `Templates.BuildSets` | internal/templates/expand.go:104-122 | the second loop builds one set per group, in key order, and fails only on a group that does not fit |
| `Templates.HeadersClash` | internal/templates/expand.go:107-114 | checking a group against the headers of the others is checking it against every record |
| `Templates.ExpandRecords` | internal/templates/expand.go:36-122 | succeeds exactly when zone, count, each record and their merge are valid; the output is a well-formed zone's worth of sets in key order, each made of exactly its records with the first one's TTL, as many values as records |
| `ReverseNames.ReverseName` | internal/ipamsync/plan.go:126-134 | the loop joins the parts last first |
| `ReverseNames.ReverseZoneHoldsOwner` | internal/ipamsync/plan.go:137-163 | for every address and every integer prefix the reverse zone is a zone name a tenant may claim, in the reverse tree, and contains the canonical PTR owner |
| `ReverseNames.SubnetSharesZone` | internal/ipamsync/plan.go:149-163 | for every prefix from the lower clamp to full length, all addresses of the subnet get one zone |
| `ReverseNames.WideSubnetSplits` | internal/ipamsync/plan.go:149-163 | for every address of either family and every prefix below the clamp, flipping the last bit of the first part stays in the subnet and leaves the zone |
| `ReverseNames.OneZoneFromClamp` | internal/ipamsync/plan.go:149-163 | so a subnet has one reverse zone if and only if its prefix reaches the clamp |
| `ReverseNames.PTROwnerInjective` | internal/ipamsync/plan.go:137-143 | two addresses with one PTR owner are equal up to IPv4 mapping |
| `Plan.Longest` | internal/ipamsync/plan.go:61-73 | the loop returns a longest zone of the right tree containing the name, or none exactly when there is none |
| `Plan.BestZoneUnique` | internal/ipamsync/plan.go:61-73 | that zone is unique |
| `Plan.PlanForward` | internal/ipamsync/plan.go:80-103 | an existing best zone, else the registrable domain; skipped exactly when the host is unusable or neither exists |
| `Plan.PlanReverse` | internal/ipamsync/plan.go:177-188 | an existing best reverse zone of the PTR owner, else the reverse zone of the subnet |
| `Plan.WantedFor` | internal/ipamsync/plan.go:34-57 | every canonical host and address, for every prefix, asks for well-formed records |
| `Plan.CreatedIsChosen` | internal/ipamsync/plan.go:61-103 | a zone created for a name no zone contained is what the plan selects next |
| `SyncRecords.AddValue` | internal/ipamsync/sync.go:336-351 | done: the value is there, after the others in their order; not done: nothing changed, with the reason; a present value changes nothing |
| `SyncRecords.RemoveValue` | internal/ipamsync/sync.go:356-379 | done: exactly that value gone, the set with its last one; not done: nothing changed; without faults it is done exactly unless the rest would be refused |
| `SyncRecords.RemoveSet` | internal/ipamsync/sync.go:382-391 | done: the set is gone and nothing else; not done: nothing changed; without faults done in a primary zone |
| `SyncRecords.SetPTR` | internal/ipamsync/sync.go:394-404 | done: the set is exactly the host; not done: nothing changed, with the reason |
| `SyncState.ZoneFor` | internal/ipamsync/sync.go:297-308 | loads the planned zone or creates it; a name another tenant owns or overlaps is a duplicate, and then nothing changed |
| `SyncState.PlanSelectsBest` | internal/ipamsync/plan.go:80-103 | the plan selects the best zone and no other |
| `SyncForward.ForwardTarget` | internal/ipamsync/sync.go:156-160 | on success the target is the tenant's best zone for the host, after the call |
| `SyncForward.DropForward` | internal/ipamsync/sync.go:163-165 | on success the recorded address value is gone; a failure changes nothing |
| `SyncForward.WriteForward` | internal/ipamsync/sync.go:165-171 | written and referenced; or refused for good and dereferenced; or failed and the old reference kept |
| `SyncForward.ForwardMove` | internal/ipamsync/sync.go:227-244 | after any outcome the previous record is gone or still named by the kept reference; nothing but the wanted value appeared; a target that failed for now changes nothing; only a failed removal is noted |
| `SyncForward.ForwardSide` | internal/ipamsync/sync.go:155-174 | the same for plan, zone and record together; without faults the value is there unless refused for good |
| `SyncReverse.ReverseMove` | internal/ipamsync/sync.go:227-244 | the same for the PTR set, except for one stuck in a zone that became secondary |
| `SyncReverse.ReverseTarget` | internal/ipamsync/sync.go:185-189 | on success the target is the tenant's best reverse zone for the owner |
| `SyncReverse.ReverseSide` | internal/ipamsync/sync.go:176-203 | plan, zone and PTR set together; without faults the set is exactly the host unless refused for good |
| `SyncReverse.PresentPtrWritable` | internal/ipamsync/sync.go:394-404 | a PTR set that is there can be rewritten unless its zone is secondary |
| `Sync.SidesWrote` | internal/ipamsync/sync.go:142-203 | every record that both sides together put on the server, or rewrote there, is one the new row names |
| `Sync.BothSides` | internal/ipamsync/sync.go:142-203 | both sides as one transition of the row: nothing else appeared or was rewritten, the reverse side cannot disturb the forward record, only the event's tenant is touched; without faults the only error is a recorded record that cannot be removed |
| `Sync.RowNamesClaims` | internal/ipamsync/sync.go:142-212 | with a stable address the row written after both sides names every record that is still there |
| `Sync.ChangedAddressUnnamed` | internal/ipamsync/sync.go:147-170 | with a changed address it does not: a kept record is no longer named by the row |
| `Sync.ForgottenPtrUnnamed` | internal/ipamsync/sync.go:190-203 | nor when a PTR set stays in a zone that became secondary and its reference is dropped |
| `Sync.ZoneDeletedNamed` | internal/memstore/memstore.go:639-658 | clearing the references to a zone without records: what survives elsewhere is still named |
| `Syncer.Upsert` | internal/ipamsync/sync.go:142-212 | keeps the system invariant and the naming of every record under any faults; every record that appeared, was rewritten or stayed is followed; without faults no error unless a recorded record cannot be removed, and then converged or refused for good |
| `Syncer.Drop` | internal/ipamsync/sync.go:273-293 | success removes both recorded records; without faults it succeeds when they can be removed |
| `Syncer.Clear` | internal/ipamsync/sync.go:248-259 | a cleared host: both records go, the row stays without references |
| `Syncer.Release` | internal/ipamsync/sync.go:262-270 | a deleted address: both records go, then the row |
| `Syncer.Handle` | internal/ipamsync/sync.go:99-138 | one event against any answer under any faults, on rows, server and the records written: the step relation of the runs below; other tenants' zones, records and rows are untouched |
| `Syncer.AgainChangesNothing` | internal/ipamsync/sync.go:99-212 | two fault-free events with one answer, for a row whose recorded records can be removed (an id without a row always): both without error, at rest after the first, and the second changes no zone, record set or row |
| `Syncer.HandleTwice` | internal/ipamsync/sync.go:99-212 | the code meets this: two calls are two such events |
| `Syncer.NotAtRest` | internal/ipamsync/sync.go:155-174 | an address whose value is missing from its best zone, though it could be added, is not at rest |
| `Syncer.HandleUnreachable` | internal/ipamsync/sync.go:142-212 | no error is not convergence: with the server unreachable an event for a new address returns none and leaves it not at rest |
| `Syncer.WrittenIsMine` | internal/ipamsync/sync.go:142-212 | over every run, each record an event put on the server or rewrote there, PTR sets it took over included, and that stayed since is in the set of written records |
| `Syncer.DeleteIsStep` | internal/zones/zones.go:648-657 | a zone deletion that fails at any call is a step of the runs |
| `Syncer.StepTracks` | internal/ipamsync/sync.go:99-293 | one event, zone deletion or outside write keeps every record the sync wrote and did not remove named by its id's row |
| `Syncer.RunKeepsNames` | internal/ipamsync/sync.go:99-293 | so over every run with calls failing at any point |
| `Syncer.RunTracks` | internal/ipamsync/sync.go:99-293 | so each record that an event of an id put on the server or rewrote there, and that is still there, is named by the row of that id |
| `Syncer.RunForgets` | internal/ipamsync/sync.go:262-293 | so when an event for an address IPAM no longer has returns no error, no record that an event of the run wrote for it is still there, PTR sets it took over included, and its row is gone |
| `Challenges.CheckedName` | internal/acmechallenge/acmechallenge.go:114-137 | an accepted request has a canonical challenge name and a digest as value |
| `Challenges.Merge` | internal/acmechallenge/acmechallenge.go:274-283 | the loop finds the value, or appends it after the others with their flags |
| `Challenges.Strike` | internal/acmechallenge/acmechallenge.go:333-342 | the loop keeps every other value with content, order and flag, and says whether it was there |
| `Challenges.Current` | internal/acmechallenge/acmechallenge.go:232-243 | the TXT set at the name; refused exactly when a CNAME is there or the zone cannot be read |
| `Challenges.Book` | internal/acmechallenge/acmechallenge.go:290-296 | a row for the value, unless the insert failed, which is only reported |
| `Challenges.Resolve` | internal/acmechallenge/acmechallenge.go:208-228 | the tenant's longest primary zone for the request; each refusal has its reason; without faults it is found when it exists |
| `Challenges.PutIn` | internal/acmechallenge/acmechallenge.go:267-286 | the set gains exactly the value, at its end, by one validated edit; without faults it succeeds where a value can be published |
| `Challenges.TakeOut` | internal/acmechallenge/acmechallenge.go:332-350 | the set loses exactly the value, and goes with its last one, by one validated edit |
| `Challenges.Publish` | internal/acmechallenge/acmechallenge.go:267-296 | the value is published by one edit and booked, or nothing changed |
| `Challenges.Retract` | internal/acmechallenge/acmechallenge.go:313-350 | the value is gone by one edit and its row with it, or nothing changed |
| `Challenges.Present` | internal/acmechallenge/acmechallenge.go:254-286 | publishes at the end of the set in the longest zone; the values shown afterwards are exactly the ones before and this one, each booked unless the insert failed; without faults succeeds where it can |
| `Challenges.CleanUp` | internal/acmechallenge/acmechallenge.go:300-329 | exactly that value is gone, from every zone the run published it in; the others stay shown and booked |
| `Sweeper.SweepOne` | internal/acmechallenge/sweeper.go:27-49 | forgets the row of a vanished zone or takes the value out; a failure keeps the row; exactly the values still shown stay in the ledger |
| `Sweeper.Sweep` | internal/acmechallenge/sweeper.go:21-51 | each value is struck by its own old row only; a fault-free pass removes the oldest min(100, n) rows with their values and counts those it took out |
| `Sweeper.YoungKept` | internal/acmechallenge/sweeper.go:21-51 | a value whose row is younger than the cutoff keeps its record and flag, whatever failed |
| `Sweeper.PassCounts` | internal/acmechallenge/sweeper.go:21-51 | a complete pass leaves n - min(100, n) of the n rows older than any earlier time |
| `Sweeper.PassHides` | internal/acmechallenge/sweeper.go:21-51 | a pass shows no value whose row it or an earlier pass removed |
| `Sweeper.Passes` | internal/acmechallenge/sweeper.go:21-51 | ceil(n / 100) fault-free passes, whatever their later cutoffs, clear the n rows older than the first and none of their values is shown any more |
| `ChallengeRuns.PublishedIsKept` | internal/acmechallenge/acmechallenge.go:254-350 | over every run of publications, clean-ups and sweeps a value published and shown since is in the ledger |
| `ChallengeRuns.RunStaysBooked` | internal/acmechallenge/acmechallenge.go:254-350 | while no insert failed, every value of the ledger has a row |
| `ChallengeRuns.RunBooks` | internal/acmechallenge/acmechallenge.go:254-350 | so from an empty ledger each published value that is still shown has the row the sweeper needs |
| `ChallengeRuns.PresentedAgain` | internal/acmechallenge/acmechallenge.go:290-296 | present, present again later, sweep between the two ages: the value is gone, because the second call keeps the old row |
| `ChallengeLocks.StepKeeps` | internal/acmechallenge/acmechallenge.go:79-111 | every step of any interleaving of lock, read, patch and unlock keeps the invariant, for any stripe hash |
| `ChallengeLocks.RunReplays` | internal/acmechallenge/acmechallenge.go:267-350 | in every state of every run each TXT set is the applied operations, in lock order, applied to the set at the start: no update is lost |
| `ChallengeLocks.RunDecides` | internal/acmechallenge/acmechallenge.go:267-350 | so a value is there exactly when the last applied operation on it was a publication |
| `ChallengeLocks.RunKeepsOthers` | internal/acmechallenge/acmechallenge.go:267-350 | and values no operation is about keep content, order and disabled flag |
| `Backup.Importer.ImportTemplate` | internal/backup/backup.go:464-498 | skip mode: settled afterwards, nothing done when it was; overwrite mode: the tenant's template gets the document's fields; every row is counted |
| `Backup.Importer.Insert` | internal/backup/backup.go:575-590 | the row first, then the account of the server zone; a refused row changes nothing |
| `Backup.Importer.Link` | internal/backup/backup.go:552-590 | the row mirrors the live zone and keeps the template link only to a template of the target |
| `Backup.Importer.ImportLive` | internal/backup/backup.go:540-590 | gone since the listing, another account's, or linked, each exactly in its case |
| `Backup.Importer.ImportUnknown` | internal/backup/backup.go:527-590 | missing, skipped or linked, each exactly in its case; the server gains and loses no zone |
| `Backup.Importer.ImportZone` | internal/backup/backup.go:506-590 | one zone row: what may change on both stores, what it becomes, settled afterwards, nothing done when it was |
| `Backup.FindEntry` | internal/backup/backup.go:607-617 | the loop says whether the entry is on the server, or a foreign one is |
| `Backup.Importer.Enter` | internal/backup/backup.go:627-641 | the row of an entry; one just created is taken back when the row is refused |
| `Backup.Importer.ImportSupermaster` | internal/backup/backup.go:592-641 | the name server is put in canonical form; recorded, skipped or created on the server first; whatever fails, a counted entry is recorded, on the server or another account's; settled afterwards, nothing done when it was |
| `Backup.HostIsNsName` | internal/backup/backup.go:270-331 | every canonical host name meets what an import assumes of a name server |
| `Backup.Importer.ImportTemplates` | internal/backup/backup.go:407-449 | the loop: counts every row, settles all of them, does nothing when they were |
| `Backup.Importer.ImportZones` | internal/backup/backup.go:407-449 | the same for zones; zones of different tenants stay apart; under any faults every existing row is as it was, in overwrite mode but for the description of the target's |
| `Backup.Importer.ImportSupermasters` | internal/backup/backup.go:407-449 | the same for supermasters, skipped without the right |
| `Backup.Importer.WipeTemplates` | internal/backup/backup.go:451-462 | a full import removes exactly the target's templates |
| `Backup.Importer.Run` | internal/backup/backup.go:407-449 | imported + skipped + missing is the row count of each collection; no server zone or record is created, deleted or changed, only accounts of zones the target now has; existing zone rows stay, in overwrite mode but for the description of the target's; a full import leaves only the document's templates |
| `Backup.Remap` | internal/backup/backup.go:335-357 | every row gets its own new id; a template link follows its template or is dropped |
| `Backup.Import` | internal/backup/backup.go:374-405 | all of this for a document of the same or another tenant |
| `Backup.ImportTwice` | internal/backup/backup.go:374-405 | two fault-free skip-mode imports of one document: the second changes neither store and imports nothing, even when the rows get new ids each time |
| `Backup.ImportAgain` | internal/backup/backup.go:374-405 | the code meets this: two calls are two such imports |
| `Ids.SmallerDiffers` | internal/store/ids.go:38-42 | big-endian byte strings compare as their numbers |
| `Ids.TextOrder` | internal/store/ids.go:43-44 | the text form compares as the bytes |
| `Ids.LeadingValue` | internal/store/ids.go:38-42 | the first eight bytes are milliseconds, version 7 and sequence, whatever the random bytes |
| `Ids.LaterText` | internal/store/ids.go:38-45 | a later stamp gives a later text |
| `Ids.Minter.Tick` | internal/store/ids.go:22-37 | the next stamp exactly, for a clock that advanced, stood still or went back, with the borrowed millisecond |
| `Ids.Fill` | internal/store/ids.go:38-42 | the byte array filled in place is the layout |
| `Ids.Borrowed` | internal/store/ids.go:24-35 | the borrowed time is at most a millisecond in 2049 calls |
| `Ids.Minter.NewID` | internal/store/ids.go:19-45 | a strictly later stamp and its text; ahead of the largest reading by at most a millisecond per 2049 calls since the clock last advanced it |
| `Ids.MintAll` | internal/store/ids.go:19-45 | for every sequence of readings, backward ones too, and every random source the texts strictly increase while the time fits 48 bits |
| `Ordering.CanonicalOrder` | internal/records/records.go:106-110 | comparing canonical strings is comparing label lists from the root |
| `Ordering.CanonicalInjective` | internal/records/records.go:106-110 | equal canonical strings are equal names up to case and trailing dot |
| `Ordering.TieOrder` | internal/records/records.go:120-132 | the tie-breaker compares names first, then types |
| `Ordering.SoaFirst` | internal/records/records.go:112-117 | SOA before every other type |
| `Ordering.TieInjective` | internal/records/records.go:120-132 | the tie-breaker is injective on (name, type) |
| `Ordering.ParentFirst` | internal/records/records.go:106-110 | a parent sorts before everything below it |
| `Ordering.SubtreeBlock` | internal/records/records.go:106-110 | whatever sorts between two names of a zone is in the zone: a subtree is one block |
| `TxtQuoting.ScanControl` | internal/validate/content.go:79-86 | the loop finds a control character exactly when there is one |
| `TxtQuoting.Scan` | internal/validate/content.go:96-127 | accepts exactly without control characters and with the automaton back outside quotes |
| `TxtQuoting.QuoteOpenUntilEnd` | internal/validate/content.go:129-156 | inside a quoted text the automaton is in the quoted state before its final character |
| `TxtQuoting.QuotedAccepted` | internal/validate/content.go:145-156 | a quoted text is accepted exactly when it has no control character |
| `TxtQuoting.QuoteRoundTrip` | internal/validate/content.go:129-156 | unescaping the quoted text returns the text |
| `Stream.Targets` | internal/stream/hub.go:270-280 | the loop over the recipients decides exactly whether the entry is addressed to the user |
| `Stream.TargetsAgree` | internal/stream/hub.go:170-207 | an entry is for exactly the users it was published to, unless its only recipient is "*" |
| `Stream.AnyOrder` | internal/stream/hub.go:251-352 | whatever replay and dispatch push, in any order: strictly increasing ids, and nothing but what was pushed |
| `Stream.AllArrive` | internal/stream/hub.go:337-352 | everything pushed is delivered if and only if the subscription is open, the ids increase above its last one and the queue has room for all |
| `Stream.FirstArrive` | internal/stream/hub.go:337-352 | of increasing entries exactly the first ones that fit in the queue arrive, and the position moves past the others all the same |
| `Stream.ReplaySkips` | internal/stream/hub.go:251-267 | so for every open subscription and every replay longer than its room, what does not fit is lost for good: refused again even after the reader caught up |
| `Stream.BurstSkips` | internal/stream/hub.go:251-267 | such a replay: 33 entries, one a millisecond, of which 32 arrive |
| `Stream.AtMostOnce` | internal/stream/hub.go:337-352 | so no event twice |
| `Stream.After` | internal/stream/client.go:114-125 | the entries after an id, at most that many |
| `Stream.Hub.Open` | internal/stream/hub.go:211-248 | opened and counted; refused exactly by a stopped hub, an unreadable stream of a tenant without connections, or at a limit of the user or tenant |
| `Stream.Hub.Push` | internal/stream/hub.go:337-352 | queued when it is newer and there is room, false exactly for a full buffer |
| `Stream.Hub.Receive` | internal/stream/hub.go:337-352 | the reader gets queued events in order, each one pushed to it |
| `Stream.Hub.Close` | internal/stream/hub.go:358-379 | idempotent; the counts match the open connections, and no tenant entry stays empty |
| `Stream.Hub.Replay` | internal/stream/hub.go:251-267 | exactly the later entries addressed to the user are pushed, or a reset |
| `Stream.Hub.Deliver` | internal/stream/hub.go:315-330 | one connection: pushed to, or closed when its buffer is full; its history grows by the entry exactly when it was queued |
| `Stream.Hub.Dispatch` | internal/stream/hub.go:315-330 | exactly the tenant's open, addressed connections are pushed to, each history grows by exactly what was queued, and one with a full buffer is closed |
| `Stream.Hub.Stop` | internal/stream/hub.go:125-139 | every connection is closed and no tenant stays counted |
| `Stream.DispatchReaches` | internal/stream/hub.go:315-330 | after it every addressed connection has the entry, had a later one, or is closed |
| `Reconciler.CanonAgrees` | internal/recursor/reconciler.go:115-121 | the reconciler's and the client's spelling of a zone agree; only the root is refused |
| `Reconciler.Recursor.SyncForward` | internal/recursor/fake.go:98-113 | the entry is set and the call logged, or nothing changed |
| `Reconciler.Recursor.RemoveForward` | internal/recursor/fake.go:116-131 | the entry is removed and the call logged, or nothing changed |
| `Reconciler.SyncAll` | internal/recursor/reconciler.go:145-154 | every managed zone is tried whatever failed before; the kept names are exactly these and the ones before |
| `Reconciler.DropAll` | internal/recursor/reconciler.go:159-163 | every name of the table that is not kept is tried, and no other |
| `Reconciler.Reconcile` | internal/recursor/reconciler.go:125-168 | under any faults no managed, static or root name is removed and every zone is tried; no error, so also without faults, means that the table is the managed zones plus the static and root entries that were there |
| `Reconciler.ReconciledTwice` | internal/recursor/reconciler.go:125-168 | a second pass changes nothing |
| `Config.CanonicalList` | internal/dnsconf/model.go:169-191 | the canonical list, or an error exactly when there is none |
| `Config.Validate` | internal/dnsconf/model.go:119-158 | the canonical model, or an error exactly when there is none; its values may reach a file |
| `Config.Writer.Quote` | internal/dnsconf/render.go:37-45 | the quoted value; an unsafe one latches the error |
| `Config.Writer.Bare` | internal/dnsconf/render.go:48-55 | the joined values; an unsafe one latches the error |
| `Config.RenderRecursor` | internal/dnsconf/render.go:68-99 | the file's lines, refused exactly when a value is unsafe: never for a validated model |
| `Config.RenderAuth` | internal/dnsconf/render.go:105-118 | the same for the authoritative server |
| `Config.RecursorInjective` | internal/dnsconf/render.go:68-99 | two recursor sections with one file have the same rendered settings |
| `Config.AuthInjective` | internal/dnsconf/render.go:105-118 | two authoritative sections with one file are equal |
| `Config.FilesDiffer` | internal/dnsconf/render.go:68-118 | the two servers never render the same file |
| `Config.Host.WriteIfChanged` | internal/dnsconf/files.go:31-63 | replaced unless it already holds the content, and says so; a failure leaves it |
| `Config.ApplyOne` | internal/dnsconf/service.go:240-313 | the file is written and its server restarted only if the file changed; each of the outcomes (unconfigured, unchanged, failed, restarted, restart needed) reports exactly what happened |
| `Config.Apply` | internal/dnsconf/service.go:240-290 | without faults the files hold their renders, exactly the changed servers restart, and a settled host is left alone |
| `Config.ApplyTwice` | internal/dnsconf/service.go:191-206 | an immediate re-apply changes and restarts nothing exactly when the two managed files are not one and the same |

## Left out

- Network clients, HTTP and gRPC routing, wiring, the browser interface, SQL and row-level security: the in-repository doubles state the semantics the services rely on.
- Authorisation, audit events, metrics, emitted events and log lines: they do not change the modelled state; a caller is assumed to be admitted.
- Faults of other kinds than unavailable, and calls that take effect and then report a failure.
- Per-type rdata parsing, the Public Suffix List, address parsing and the unmapping of parsed addresses: abstract, with the laws named above.
- Spelling of record types and zone kinds: parsed at the boundary; an unknown kind is a `None` of the request, and an unknown kind on the server is not modelled for imports.
- Initial record sets passed to zone creation by a Go caller: no caller in the repository passes any, so only templates contribute them.
- Page order, filters and counts of list operations, and the timestamps of rows other than challenge ages.
- The supermaster service: it repeats the compensation pattern of zones with less state; its calls appear in the backup import.
- Decoding and field checks of a backup document, and the export: an import starts from a validated document whose zone names and supermaster addresses are canonical and whose name servers are host names.
- Event id text, trimming of the stream window, blocking reads and the server-sent-event writer: entries carry their numeric ids.
- Counting of unowned zones, the immediate reconcile and the readiness state of the recursor reconciler.
- Storing of file hashes, the drift report and the reconcile after a restart in the configuration service: files are compared by content, which an injective hash decides.
- The forward sync a zone create or delete triggers: it is the recursor call that the reconciler repeats.
- Stopping of goroutines, contexts and timers: passes are calls with explicit times.
- Comments of record sets beyond their text.
- Disabled flags under IPAM rewrites: the code drops them and the model does too; nothing is claimed about keeping them there.
- `DeleteIPAMSync` of a missing row and other store answers no modelled caller distinguishes.
- Syncer.RunTracks: assumes that events with a host save their row, keep the literal of their id and find its PTR set in a primary zone, because the code loses the reference otherwise (see above); other zones and tenants are free.
- ChallengeRuns.RunBooks: runs over fixed zones, and assumes that no challenge row insert failed, because the code only reports that failure; `Zones.Delete` covers the deletion of a zone.
- Challenges.CleanUp: says that a value is gone from every zone it was published in while no deeper zone appears in between, because the code resolves the longest zone again.
- ChallengeLocks.RunReplays: covers the operations that take the stripe lock; record edits through the records service do not take it and are not interleaved here.
- Ordering.CanonicalOrder: for labels whose characters are above the separators 0x00 and 0x01 and hold no escaped dot, as canonical names are.
- Stream.AnyOrder: order and at-most-once only; `Stream.AllArrive` says when everything arrives.
- Config.RecursorInjective: on the rendered settings; the confirmation of an open resolver is not rendered.
