/** Importing a backup (internal/backup/backup.go): templates, zones and supermasters are
re-linked to what the authoritative server holds; no server zone is created or deleted. */
module Backup {
  import opened Strings
  import opened Names
  import opened Wrappers
  import opened Model
  import opened Pdns
  import opened Memstore
  import opened Ownership

  /** A validated document. Supermaster addresses are in canonical form. */
  datatype Document = Document(tenant: string, templates: seq<Template>, zones: seq<Zone>,
                               supermasters: seq<SupermasterRow>)

  datatype Tally = Tally(imported: nat, skipped: nat)

  function Total(t: Tally): nat { t.imported + t.skipped }

  type ServerZones = map<string, ServerZone>

  // ----- rows that another import would not touch

  /** The template as it is stored. */
  function Tidy(t: Template, target: string): Template {
    t.(tenant := target, name := Trim(t.name), description := Trim(t.description))
  }

  function Revised(t: Template, raw: Template): Template {
    t.(name := Trim(raw.name), description := Trim(raw.description), records := raw.records)
  }

  ghost predicate TemplateSettled(templates: TemplateRows, u: Template) {
    u.id in templates || HasTemplateName(templates, u.tenant, u.name)
  }

  /** A server account the target may adopt: unset, its own, or the document's tenant. */
  predicate OwnAccount(target: string, origin: string, account: string) {
    account == "" || account == target || (origin != "" && account == origin)
  }

  ghost predicate NameUsed(zones: Rows, name: string) {
    exists id :: id in zones && (zones[id].name == name || zones[id].pdnsId == name)
  }

  ghost predicate ZoneSettled(zones: Rows, server: ServerZones, target: string, origin: string, name: string) {
    || HasName(zones, target, name) || name !in server || Conflict(zones, target, name) || NameUsed(zones, name)
    || !OwnAccount(target, origin, server[name].account)
  }

  function Undotted(ns: string): string { TrimSuffix(ns, ".") }

  predicate SameEntry(e: Supermaster, ip: string, ns: string) {
    e.ip == ip && Undotted(e.nameserver) == Undotted(ns)
  }

  /** The name server of a row in canonical form, as an import stores it. */
  function NsOf(s: SupermasterRow): string {
    var h := Hostname(s.nameserver);
    if h.Some? then h.value else ""
  }

  lemma NsOfFacts(s: SupermasterRow)
    requires Hostname(s.nameserver).Some?
    ensures NsName(NsOf(s))
  {
    hide Hostname;
    HostnameIdempotent(s.nameserver);
    HostIsNsName(NsOf(s));
  }

  ghost predicate ForeignEntry(live: seq<Supermaster>, target: string, origin: string, ip: string, ns: string) {
    exists e :: e in live && SameEntry(e, ip, ns) && !OwnAccount(target, origin, e.account)
  }

  ghost predicate HasEntry(rows: SupermasterRows, ip: string, ns: string) {
    exists k :: k in rows && rows[k].ip == ip && rows[k].nameserver == ns
  }

  ghost predicate SupermasterSettled(rows: SupermasterRows, live: seq<Supermaster>, target: string, origin: string,
                                     s: SupermasterRow) {
    s.id in rows || HasEntry(rows, s.ip, NsOf(s)) || ForeignEntry(live, target, origin, s.ip, NsOf(s))
  }

  // ----- what an import may do to the server

  /** The same zones with the same records; only accounts become the target's. */
  ghost predicate OnlyAccounts(s0: ServerZones, s1: ServerZones, target: string) {
    && s1.Keys == s0.Keys
    && forall k :: k in s0 ==> s1[k] == s0[k] || s1[k] == s0[k].(account := target)
  }

  /** Every zone whose account changed has a row of the target. */
  ghost predicate Adopted(s0: ServerZones, s1: ServerZones, zones: Rows, target: string) {
    forall k :: k in s0 && k in s1 && s1[k] != s0[k] ==> HasName(zones, target, k)
  }

  ghost predicate RowsStay(z0: Rows, z1: Rows) {
    forall id :: id in z0 ==> id in z1 && z1[id] == z0[id]
  }

  /** Rows of other tenants are as they were, those of the target but for their description, and
  rows only come. */
  ghost predicate OnlyTarget(z0: Rows, z1: Rows, target: string) {
    && (forall id :: id in z0 ==> id in z1 && (z0[id].tenant != target ==> z1[id] == z0[id]))
    && (forall id :: id in z0 && z0[id].tenant == target ==> z1[id] == z0[id].(description := z1[id].description))
    && (forall id :: id in z1 && id !in z0 ==> z1[id].tenant == target)
  }

  class Importer {
    const st: Store
    const pd: Server
    const target: string
    const origin: string
    const overwrite: bool
    const admin: bool
    var templates: Tally
    var zones: Tally
    var supermasters: Tally
    var missing: seq<string>

    constructor (st: Store, pd: Server, target: string, origin: string, overwrite: bool, admin: bool)
      ensures this.st == st && this.pd == pd && this.target == target && this.origin == origin
      ensures this.overwrite == overwrite && this.admin == admin
      ensures templates == Tally(0, 0) && zones == Tally(0, 0) && supermasters == Tally(0, 0) && missing == []
    {
      this.st, this.pd, this.target, this.origin, this.overwrite, this.admin :=
        st, pd, target, origin, overwrite, admin;
      templates, zones, supermasters, missing := Tally(0, 0), Tally(0, 0), Tally(0, 0), [];
    }

    method ImportTemplate(raw: Template) returns (err: Option<Error>)
      modifies st`faults, st`templates, this`templates
      ensures old(st.Clean()) ==> st.Clean() && err.None?
      ensures err.None? ==> Total(templates) == old(Total(templates)) + 1
      ensures forall k :: k in old(st.templates) ==> k in st.templates
      ensures !overwrite ==> forall k :: k in old(st.templates) ==> st.templates[k] == old(st.templates)[k]
      ensures forall k :: k in st.templates && k !in old(st.templates) ==> k == raw.id
      // created as tidied, or updated in overwrite mode, and then counted as imported
      ensures st.templates != old(st.templates) ==>
                && err.None? && templates.imported == old(templates.imported) + 1
                && st.templates ==
                   old(st.templates)[raw.id :=
                     if raw.id in old(st.templates) then Revised(old(st.templates)[raw.id], raw) else Tidy(raw, target)]
      // in overwrite mode a template of the target is updated unless its name is taken
      ensures overwrite && err.None? && raw.id in old(st.templates) && old(st.templates)[raw.id].tenant == target &&
              !TemplateNameTaken(old(st.templates), Tidy(raw, target)) && old(st.Clean()) ==>
                && st.templates == old(st.templates)[raw.id := Revised(old(st.templates)[raw.id], raw)]
                && templates.imported == old(templates.imported) + 1
      // in skip mode: settled afterwards, and nothing done when it was
      ensures err.None? && !overwrite ==>
                raw.id in old(st.templates) || HasTemplateName(st.templates, target, Tidy(raw, target).name)
      ensures !overwrite && old(TemplateSettled(st.templates, Tidy(raw, target))) ==>
                st.templates == old(st.templates) && templates.imported == old(templates.imported)
    {
      hide EqualFold, Trim, HasTemplateName, TemplateNameTaken;
      var t := Tidy(raw, target);
      var got := st.GetTemplate(target, t.id);
      if got.Ok? {
        if !overwrite {
          templates := templates.(skipped := templates.skipped + 1);
          return None;
        }
        err := st.UpdateTemplate(t);
      } else if got.error.RowNotFound? {
        SettledIsTaken(st.templates, t);
        err := st.CreateTemplate(t);
        if err.None? { NowNamed(st.templates, t); }
      } else {
        return Some(got.error);
      }
      if err.None? {
        templates := templates.(imported := templates.imported + 1);
      } else if err.value.RowConflict? || err.value.RowNotFound? {
        templates := templates.(skipped := templates.skipped + 1);
        err := None;
      }
    }

    /** The row first, then the server account; a failed account update is only logged. */
    method Insert(z: Zone, live: ServerZone) returns (err: Option<Error>)
      requires ZonesOK(st.zones) && z.name in pd.zones && pd.zones[z.name] == live &&
               !Conflict(st.zones, target, z.name)
      requires z.tenant == target && z.pdnsId == z.name
      modifies st`faults, st`zones, pd`faults, pd`zones, this`zones
      ensures old(st.Clean()) ==> st.Clean() && err.None?
      ensures old(pd.Clean()) ==> pd.Clean()
      ensures err.None? ==> Total(zones) == old(Total(zones)) + 1
      ensures ZonesOK(st.zones) && ZoneEffect(old(st.zones), old(pd.zones), st.zones, pd.zones, z.id, target, overwrite)
      ensures st.zones != old(st.zones) ==>
                && err.None? && zones.imported == old(zones.imported) + 1 && st.zones == old(st.zones)[z.id := z]
                && (old(pd.Clean()) && target != "" ==> pd.zones == old(pd.zones)[z.name := live.(account := target)])
      ensures pd.zones.Keys == old(pd.zones).Keys
      ensures st.zones == old(st.zones) ==> pd.zones == old(pd.zones)
      ensures err.None? ==> z.id in old(st.zones) || HasName(st.zones, target, z.name) || NameUsed(st.zones, z.name)
      ensures old(z.id in st.zones || NameUsed(st.zones, z.name)) ==>
                st.zones == old(st.zones) && pd.zones == old(pd.zones) && zones.imported == old(zones.imported)
    {
      hide ZoneEffect, ZonesOK, Conflict, HasName, NameUsed, NameTaken;
      EffectNone(st.zones, pd.zones, z.id, target, overwrite);
      TakenNames(st.zones, z);
      err := st.CreateZone(z);
      if err.Some? {
        if !err.value.RowConflict? { return; }
        zones := zones.(skipped := zones.skipped + 1);
        return None;
      }
      assert pd.zones[z.name := live] == pd.zones;
      if live.account != target {
        var uerr := pd.UpdateZoneMetadata(z.pdnsId, live.kind, live.masters, live.dnssec, target);
      }
      EffectLinked(old(st.zones), old(pd.zones), st.zones, pd.zones, z, overwrite);
      zones := zones.(imported := zones.imported + 1);
    }

    /** The row mirrors the live zone; the document contributes the description, the template link
    and the origin. */
    method Link(row: Zone, live: ServerZone) returns (err: Option<Error>)
      requires ZonesOK(st.zones) && row.name in pd.zones && pd.zones[row.name] == live &&
               !Conflict(st.zones, target, row.name)
      modifies st`faults, st`zones, pd`faults, pd`zones, this`zones
      ensures old(st.Clean()) ==> st.Clean() && err.None?
      ensures old(pd.Clean()) ==> pd.Clean()
      ensures err.None? ==> Total(zones) == old(Total(zones)) + 1
      ensures ZonesOK(st.zones) &&
              ZoneEffect(old(st.zones), old(pd.zones), st.zones, pd.zones, row.id, target, overwrite)
      ensures st.zones != old(st.zones) ==>
                && err.None? && zones.imported == old(zones.imported) + 1
                && Relinked(row, live, target, st.templates, old(st.zones), st.zones, old(st.Clean()))
      ensures pd.zones.Keys == old(pd.zones).Keys
      ensures st.zones != old(st.zones) && old(pd.Clean()) && target != "" ==>
                pd.zones == old(pd.zones)[row.name := live.(account := target)]
      ensures st.zones == old(st.zones) ==> pd.zones == old(pd.zones)
      ensures err.None? ==>
                row.id in old(st.zones) || HasName(st.zones, target, row.name) || NameUsed(st.zones, row.name)
      ensures old(row.id in st.zones || NameUsed(st.zones, row.name)) ==>
                st.zones == old(st.zones) && pd.zones == old(pd.zones) && zones.imported == old(zones.imported)
    {
      hide ZoneEffect, ZonesOK, Conflict, HasName, NameUsed;
      var z := row.(tenant := target, pdnsId := row.name, kind := live.kind, masters := live.masters,
                    dnssec := live.dnssec);
      if z.templateId != "" {
        var tpl := st.GetTemplate(target, z.templateId);
        if tpl.Err? { z := z.(templateId := ""); }
      }
      err := Insert(z, live);
    }

    /** A zone without a row that no other tenant overlaps: gone from the server, another account's,
    or linked. */
    method ImportLive(row: Zone) returns (err: Option<Error>)
      requires Lower(row.name) == row.name && ZonesOK(st.zones) && !Conflict(st.zones, target, row.name)
      modifies st`faults, st`zones, pd`faults, pd`zones, this`zones, this`missing
      ensures old(st.Clean()) ==> st.Clean()
      ensures old(pd.Clean()) ==> pd.Clean()
      ensures old(st.Clean() && pd.Clean()) ==> err.None?
      ensures err.None? ==> Total(zones) + |missing| == old(Total(zones) + |missing|) + 1
      ensures ZonesOK(st.zones) &&
              ZoneEffect(old(st.zones), old(pd.zones), st.zones, pd.zones, row.id, target, overwrite)
      ensures st.zones != old(st.zones) ==>
                && err.None? && zones.imported == old(zones.imported) + 1 && missing == old(missing)
                && row.name in old(pd.zones) && OwnAccount(target, origin, old(pd.zones)[row.name].account)
                && Relinked(row, old(pd.zones)[row.name], target, st.templates, old(st.zones), st.zones,
                            old(st.Clean()))
                && (old(pd.Clean()) && target != "" ==>
                      pd.zones == old(pd.zones)[row.name := old(pd.zones)[row.name].(account := target)])
      ensures st.zones == old(st.zones) ==> pd.zones == old(pd.zones)
      ensures missing != old(missing) ==> missing == old(missing) + [row.name] && row.name !in pd.zones
      ensures err.None? && row.name !in pd.zones ==> missing == old(missing) + [row.name]
      ensures err.None? ==> row.id in old(st.zones) || ZoneSettled(st.zones, pd.zones, target, origin, row.name)
      ensures old(row.id in st.zones ||
                  (!HasName(st.zones, target, row.name) &&
                   ZoneSettled(st.zones, pd.zones, target, origin, row.name))) ==>
                st.zones == old(st.zones) && pd.zones == old(pd.zones) && zones.imported == old(zones.imported)
    {
      hide Lower, ZoneEffect, ZonesOK, Conflict, HasName, NameUsed, OwnAccount, Relinked;
      EffectNone(st.zones, pd.zones, row.id, target, overwrite);
      var live := pd.GetZone(row.name);
      if live.Err? {
        if !live.error.ServerNotFound? { return Some(live.error); }
        missing := missing + [row.name];
        return None;
      }
      if !OwnAccount(target, origin, live.value.account) {
        zones := zones.(skipped := zones.skipped + 1);
        return None;
      }
      err := Link(row, live.value);
    }

    /** A zone the target has no row for: missing on the server, another tenant's, another
    account's, or linked. */
    method ImportUnknown(row: Zone, onServer: set<string>) returns (err: Option<Error>)
      requires Lower(row.name) == row.name && ZonesOK(st.zones) && (row.name in pd.zones ==> row.name in onServer)
      modifies st`faults, st`zones, pd`faults, pd`zones, this`zones, this`missing
      ensures old(st.Clean()) ==> st.Clean()
      ensures old(pd.Clean()) ==> pd.Clean()
      ensures old(st.Clean() && pd.Clean()) ==> err.None?
      ensures err.None? ==> Total(zones) + |missing| == old(Total(zones) + |missing|) + 1
      ensures ZonesOK(st.zones) &&
              ZoneEffect(old(st.zones), old(pd.zones), st.zones, pd.zones, row.id, target, overwrite)
      // a new row mirrors the live zone, whose account becomes the target's
      ensures st.zones != old(st.zones) ==>
                && err.None? && zones.imported == old(zones.imported) + 1 && missing == old(missing)
                && row.name in old(pd.zones) && !Conflict(old(st.zones), target, row.name)
                && OwnAccount(target, origin, old(pd.zones)[row.name].account)
                && Relinked(row, old(pd.zones)[row.name], target, st.templates, old(st.zones), st.zones,
                            old(st.Clean()))
                && (old(pd.Clean()) && target != "" ==>
                      pd.zones == old(pd.zones)[row.name := old(pd.zones)[row.name].(account := target)])
      ensures st.zones == old(st.zones) ==> pd.zones == old(pd.zones)
      // missing is what the server does not hold
      ensures missing != old(missing) ==> missing == old(missing) + [row.name] && row.name !in pd.zones
      ensures err.None? && row.name !in pd.zones && !Conflict(old(st.zones), target, row.name) ==>
                missing == old(missing) + [row.name]
      ensures err.None? ==> row.id in old(st.zones) || ZoneSettled(st.zones, pd.zones, target, origin, row.name)
      ensures old(row.id in st.zones ||
                  (!HasName(st.zones, target, row.name) &&
                   ZoneSettled(st.zones, pd.zones, target, origin, row.name))) ==>
                st.zones == old(st.zones) && pd.zones == old(pd.zones) && zones.imported == old(zones.imported)
    {
      hide Lower, ZoneEffect, ZonesOK, Conflict, HasName, NameUsed, OwnAccount, Relinked;
      EffectNone(st.zones, pd.zones, row.id, target, overwrite);
      if row.name !in onServer {
        missing := missing + [row.name];
        return None;
      }
      var taken := st.ZoneConflict(target, row.name);
      if taken.Err? { return Some(taken.error); }
      if taken.value {
        zones := zones.(skipped := zones.skipped + 1);
        return None;
      }
      ghost var clean := st.Clean();
      err := ImportLive(row);
      if row.name in old(pd.zones) {
        RelinkedLess(row, old(pd.zones)[row.name], target, st.templates, old(st.zones), st.zones, old(st.Clean()),
                     clean);
      }
    }

    /** A zone the tenant has is left alone (its description is updated in overwrite mode); one the
    server does not hold is reported missing; one of another tenant or account is skipped; else
    the row mirrors the live zone and the server account becomes the target's. */
    method ImportZone(row: Zone, onServer: set<string>) returns (err: Option<Error>)
      requires Lower(row.name) == row.name && ZonesOK(st.zones) && pd.Valid() && onServer == NamesOn(pd.zones)
      modifies st`faults, st`zones, pd`faults, pd`zones, this`zones, this`missing
      ensures old(st.Clean()) ==> st.Clean()
      ensures old(pd.Clean()) ==> pd.Clean()
      ensures old(st.Clean() && pd.Clean()) ==> err.None?
      ensures err.None? ==> Total(zones) + |missing| == old(Total(zones) + |missing|) + 1
      ensures ZonesOK(st.zones) &&
              ZoneEffect(old(st.zones), old(pd.zones), st.zones, pd.zones, row.id, target, overwrite)
      // an unknown zone becomes a row that mirrors the live one; a known one gets the description
      ensures !HasName(old(st.zones), target, row.name) && st.zones != old(st.zones) ==>
                && row.name in old(pd.zones) && OwnAccount(target, origin, old(pd.zones)[row.name].account)
                && Relinked(row, old(pd.zones)[row.name], target, st.templates, old(st.zones), st.zones,
                            old(st.Clean()))
                && (old(pd.Clean()) && target != "" ==>
                      pd.zones == old(pd.zones)[row.name := old(pd.zones)[row.name].(account := target)])
      ensures HasName(old(st.zones), target, row.name) ==> pd.zones == old(pd.zones) && missing == old(missing)
      ensures HasName(old(st.zones), target, row.name) && overwrite && err.None? ==>
                Redescribed(row, target, old(st.zones), st.zones) && zones.imported == old(zones.imported) + 1
      ensures missing != old(missing) ==> missing == old(missing) + [row.name] && row.name !in pd.zones
      // in skip mode: settled afterwards, and nothing done when it was
      ensures err.None? && !overwrite ==>
                row.id in old(st.zones) || ZoneSettled(st.zones, pd.zones, target, origin, row.name)
      ensures !overwrite && old(row.id in st.zones || ZoneSettled(st.zones, pd.zones, target, origin, row.name)) ==>
                st.zones == old(st.zones) && pd.zones == old(pd.zones) && zones.imported == old(zones.imported)
    {
      hide Lower, ZoneEffect, ZonesOK, Conflict, NamesOn, HasName, NameUsed, OwnAccount;
      OnlyNames(pd.zones, row.name);
      EffectNone(st.zones, pd.zones, row.id, target, overwrite);
      var got := st.GetZoneByName(target, row.name);
      if got.Ok? {
        NameFound(st.zones, target, got.value);
        if !overwrite {
          zones := zones.(skipped := zones.skipped + 1);
          return None;
        }
        ghost var id :| OwnedBy(st.zones, target, id) && st.zones[id] == got.value && got.value.name == row.name;
        ZoneKeys(st.zones, id);
        err := st.UpdateZone(got.value.(description := row.description));
        if err.None? {
          zones := zones.(imported := zones.imported + 1);
          EffectDescribed(old(st.zones), st.zones, pd.zones, got.value, row, target);
        }
        return;
      }
      if !got.error.RowNotFound? { return Some(got.error); }
      err := ImportUnknown(row, onServer);
    }

    /** The row of an entry; one just added to the server is taken back when the row is refused. */
    method Enter(s: SupermasterRow, added: bool, ghost before: seq<Supermaster>) returns (err: Option<Error>)
      requires added ==>
                 && pd.supermasters == before + [Supermaster(s.ip, Undotted(s.nameserver), target)]
                 && !Listed(before, s.ip, Undotted(s.nameserver))
      requires !added ==> pd.supermasters == before
      modifies st`faults, st`supermasters, pd`faults, pd`supermasters, this`supermasters
      ensures old(st.Clean()) ==> st.Clean() && err.None?
      ensures old(pd.Clean()) ==> pd.Clean()
      ensures err.None? ==> Total(supermasters) == old(Total(supermasters)) + 1
      ensures pd.supermasters == old(pd.supermasters) || pd.supermasters == before
      ensures || st.supermasters == old(st.supermasters)
              || (&& s.id !in old(st.supermasters) && pd.supermasters == old(pd.supermasters)
                  && st.supermasters == old(st.supermasters)[s.id := s])
      ensures err.None? ==>
                && SupermasterTaken(st.supermasters, s)
                && (st.supermasters == old(st.supermasters) ==> SupermasterTaken(old(st.supermasters), s))
      ensures st.supermasters == old(st.supermasters) && old(pd.Clean()) ==> pd.supermasters == before
      ensures st.supermasters != old(st.supermasters) ==>
                err.None? && supermasters.imported == old(supermasters.imported) + 1
      ensures old(SupermasterTaken(st.supermasters, s)) ==>
                st.supermasters == old(st.supermasters) && supermasters.imported == old(supermasters.imported)
    {
      hide TrimSuffix, Unlisted, Listed;
      if added { AddedThenUnlisted(before, Supermaster(s.ip, Undotted(s.nameserver), target)); }
      ListedLast(pd.supermasters);
      err := st.CreateSupermaster(s);
      if err.Some? {
        if added {
          var derr := pd.DeleteSupermaster(s.ip, Undotted(s.nameserver));
        }
        if !err.value.RowConflict? { return; }
        supermasters := supermasters.(skipped := supermasters.skipped + 1);
        return None;
      }
      supermasters := supermasters.(imported := supermasters.imported + 1);
    }

    /** An entry that is on the server under an account the target may adopt is only recorded; a
    foreign one is skipped; else it is created on the server first, and taken back when the row
    is refused. */
    method ImportSupermaster(raw: SupermasterRow, live: seq<Supermaster>, ghost sure: bool) returns (err: Option<Error>)
      requires Hostname(raw.nameserver).Some? && live <= pd.supermasters
      requires sure ==> st.Clean() && pd.Clean() && AddedHaveRows(live, pd.supermasters, st.supermasters)
      modifies st`faults, st`supermasters, pd`faults, pd`supermasters, this`supermasters
      ensures old(st.Clean()) ==> st.Clean()
      ensures old(pd.Clean()) ==> pd.Clean()
      ensures sure ==> err.None? && AddedHaveRows(live, pd.supermasters, st.supermasters)
      ensures err.None? ==> Total(supermasters) == old(Total(supermasters)) + 1
      ensures live <= pd.supermasters && old(pd.supermasters) <= pd.supermasters
      ensures forall k :: k in old(st.supermasters) ==>
                k in st.supermasters && st.supermasters[k] == old(st.supermasters)[k]
      ensures forall k :: k in st.supermasters && k !in old(st.supermasters) ==> k == raw.id
      ensures st.supermasters != old(st.supermasters) ==>
                && err.None? && supermasters.imported == old(supermasters.imported) + 1
                && st.supermasters == old(st.supermasters)[raw.id := raw.(tenant := target, nameserver := NsOf(raw))]
      ensures pd.supermasters == old(pd.supermasters) ||
              pd.supermasters == old(pd.supermasters) + [Supermaster(raw.ip, Undotted(NsOf(raw)), target)]
      ensures sure ==>
                || raw.id in old(st.supermasters) || HasEntry(st.supermasters, raw.ip, NsOf(raw))
                || ForeignEntry(pd.supermasters, target, origin, raw.ip, NsOf(raw))
      // whatever fails, a counted entry is recorded, on the server, or another account's
      ensures err.None? ==>
                || raw.id in old(st.supermasters) || HasEntry(st.supermasters, raw.ip, NsOf(raw))
                || ForeignEntry(live, target, origin, raw.ip, NsOf(raw))
                || Listed(pd.supermasters, raw.ip, Undotted(NsOf(raw)))
      ensures sure &&
              old(live == pd.supermasters &&
                  SupermasterSettled(st.supermasters, pd.supermasters, target, origin, raw)) ==>
                && st.supermasters == old(st.supermasters) && pd.supermasters == old(pd.supermasters)
                && supermasters.imported == old(supermasters.imported)
    {
      hide TrimSuffix, HasSuffix, Unlisted, OwnAccount, NsName, AddedHaveRows, ForeignEntry, Listed, NsOf, Hostname;
      NsOfFacts(raw);
      var s := raw.(tenant := target, nameserver := NsOf(raw));
      var got := st.GetSupermaster(target, s.id);
      if got.Ok? {
        supermasters := supermasters.(skipped := supermasters.skipped + 1);
        return None;
      }
      if !got.error.RowNotFound? { return Some(got.error); }
      var found, foreign := FindEntry(live, target, origin, s.ip, s.nameserver);
      if foreign {
        ForeignLater(live, pd.supermasters, target, origin, s.ip, s.nameserver);
        supermasters := supermasters.(skipped := supermasters.skipped + 1);
        return None;
      }
      var ns := Undotted(s.nameserver);
      Redotted(s.nameserver);
      if !found {
        err := pd.CreateSupermaster(Supermaster(s.ip, ns, target));
        if err.Some? {
          if !err.value.ServerConflict? { return; }
          supermasters := supermasters.(skipped := supermasters.skipped + 1);
          if sure { ListedHasEntry(live, pd.supermasters, st.supermasters, s.ip, s.nameserver, ns); }
          return None;
        }
        AddedThenUnlisted(old(pd.supermasters), Supermaster(s.ip, ns, target));
      }
      err := Enter(s, !found, old(pd.supermasters));
      if sure {
        RowsHaveAdded(live, old(pd.supermasters), pd.supermasters, old(st.supermasters), st.supermasters, s, ns);
      }
    }

    // ----- the collections

    method ImportTemplates(rows: seq<Template>) returns (err: Option<Error>)
      modifies st`faults, st`templates, this`templates
      ensures old(st.Clean()) ==> st.Clean() && err.None?
      ensures err.None? ==> Total(templates) == old(Total(templates)) + |rows|
      ensures err.None? && !overwrite ==>
                TemplatesKept(old(st.templates), st.templates, rows) && TemplatesSettled(st.templates, rows, target)
      ensures err.None? && !overwrite && FreshTemplates(rows, old(st.templates)) ==>
                TemplatesNamed(st.templates, rows, target)
      ensures !overwrite && old(TemplatesSettled(st.templates, rows, target)) ==>
                st.templates == old(st.templates) && templates.imported == old(templates.imported)
    {
      hide TemplateSettled, TemplatesKept, TemplatesNamed, FreshTemplates, TemplatesSettled, HasTemplateName, Tidy;
      NoTemplatesYet(st.templates, target);
      var i := 0;
      while i < |rows|
        invariant 0 <= i <= |rows|
        invariant old(st.Clean()) ==> st.Clean()
        invariant Total(templates) == old(Total(templates)) + i
        invariant !overwrite ==> TemplatesKept(old(st.templates), st.templates, rows[..i])
        invariant !overwrite ==> TemplatesSettled(st.templates, rows[..i], target)
        invariant !overwrite && FreshTemplates(rows, old(st.templates)) ==>
                    TemplatesNamed(st.templates, rows[..i], target)
        invariant !overwrite && old(TemplatesSettled(st.templates, rows, target)) ==>
                    st.templates == old(st.templates) && templates.imported == old(templates.imported)
      {
        ghost var before := st.templates;
        OneSettled(st.templates, rows, i, target);
        err := ImportTemplate(rows[i]);
        if err.Some? { return; }
        assert rows[..i + 1] == rows[..i] + [rows[i]];
        if !overwrite {
          TemplatesNext(old(st.templates), before, st.templates, rows, i, target);
        }
        i := i + 1;
      }
      assert rows[..i] == rows;
      err := None;
    }

    method ImportZones(rows: seq<Zone>) returns (err: Option<Error>)
      requires ZonesOK(st.zones) && pd.Valid() && forall z :: z in rows ==> Lower(z.name) == z.name
      modifies st`faults, st`zones, pd`faults, pd`zones, this`zones, this`missing
      ensures old(st.Clean()) ==> st.Clean()
      ensures old(pd.Clean()) ==> pd.Clean()
      ensures old(st.Clean() && pd.Clean()) ==> err.None?
      ensures err.None? ==> Total(zones) + |missing| == old(Total(zones) + |missing|) + |rows|
      ensures rows == [] ==> err.None?
      ensures ZonesOK(st.zones) && pd.Valid() &&
              ZonesEffect(old(st.zones), old(pd.zones), st.zones, pd.zones, target, overwrite)
      ensures err.None? && !overwrite ==>
                RowsKept(old(st.zones), st.zones, rows) && ZonesSettled(st.zones, pd.zones, rows, target, origin)
      ensures err.None? && !overwrite && FreshZones(rows, old(st.zones)) ==>
                NamesSettled(st.zones, pd.zones, rows, target, origin)
      ensures !overwrite && old(ZonesSettled(st.zones, pd.zones, rows, target, origin)) ==>
                st.zones == old(st.zones) && pd.zones == old(pd.zones) && zones.imported == old(zones.imported)
    {
      hide ZoneEffect, ZoneSettled, ZonesOK, ZonesEffect, NamesOn, Lower, RowsKept, FreshZones, NamesSettled;
      NoRowsYet(st.zones, pd.zones, target, origin);
      ZonesNone(st.zones, pd.zones, target, overwrite);
      if rows == [] { return None; }
      var names := pd.ListZoneNames();
      if names.Err? { return Some(names.error); }
      var onServer := set n | n in names.value :: Lower(n);
      NamesLowered(pd.zones, names.value, onServer);
      var i := 0;
      while i < |rows|
        invariant 0 <= i <= |rows| && ZonesOK(st.zones) && pd.Valid() && onServer == NamesOn(pd.zones)
        invariant old(st.Clean()) ==> st.Clean()
        invariant old(pd.Clean()) ==> pd.Clean()
        invariant Total(zones) + |missing| == old(Total(zones) + |missing|) + i
        invariant ZonesEffect(old(st.zones), old(pd.zones), st.zones, pd.zones, target, overwrite)
        invariant !overwrite ==>
                    RowsKept(old(st.zones), st.zones, rows[..i]) &&
                    ZonesSettled(st.zones, pd.zones, rows[..i], target, origin)
        invariant !overwrite && FreshZones(rows, old(st.zones)) ==>
                    NamesSettled(st.zones, pd.zones, rows[..i], target, origin)
        invariant !overwrite && old(ZonesSettled(st.zones, pd.zones, rows, target, origin)) ==>
                    st.zones == old(st.zones) && pd.zones == old(pd.zones) && zones.imported == old(zones.imported)
      {
        ghost var z1, s1 := st.zones, pd.zones;
        assert rows[i] in rows;
        err := ImportZone(rows[i], onServer);
        ZonesThen(old(st.zones), old(pd.zones), z1, s1, st.zones, pd.zones, rows[i].id, target, overwrite);
        if err.Some? { return; }
        assert rows[..i + 1] == rows[..i] + [rows[i]];
        if !overwrite {
          ZonesNext(old(st.zones), z1, s1, st.zones, pd.zones, rows, i, target, origin);
        }
        i := i + 1;
      }
      assert rows[..i] == rows;
      err := None;
    }

    method ImportSupermasters(rows: seq<SupermasterRow>) returns (err: Option<Error>)
      requires forall r :: r in rows ==> Hostname(r.nameserver).Some?
      modifies st`faults, st`supermasters, pd`faults, pd`supermasters, this`supermasters
      ensures old(st.Clean()) ==> st.Clean()
      ensures old(pd.Clean()) ==> pd.Clean()
      ensures old(st.Clean() && pd.Clean()) || rows == [] ==> err.None?
      ensures err.None? ==>
                Total(supermasters) == old(Total(supermasters)) + |rows| &&
                EntriesKept(old(st.supermasters), st.supermasters, rows)
      ensures old(st.Clean() && pd.Clean()) && admin ==>
                EntriesSettled(st.supermasters, pd.supermasters, rows, target, origin)
      ensures old(st.Clean() && pd.Clean()) && admin && FreshEntries(rows, old(st.supermasters)) ==>
                EntriesNamed(st.supermasters, pd.supermasters, rows, target, origin)
      ensures old(st.Clean() && pd.Clean()) &&
              (admin ==> old(EntriesSettled(st.supermasters, pd.supermasters, rows, target, origin))) ==>
                && st.supermasters == old(st.supermasters) && pd.supermasters == old(pd.supermasters)
                && supermasters.imported == old(supermasters.imported)
    {
      hide NsOf, Hostname, SupermasterSettled, ForeignEntry, HasEntry, AddedHaveRows, EntriesKept, EntriesNamed,
        FreshEntries;
      NoEntriesYet(st.supermasters, pd.supermasters, target, origin);
      if rows == [] { return None; }
      if !admin {
        supermasters := supermasters.(skipped := supermasters.skipped + |rows|);
        KeptMore(st.supermasters, rows);
        return None;
      }
      var live := pd.ListSupermasters();
      if live.Err? { return Some(live.error); }
      var i := 0;
      while i < |rows|
        invariant 0 <= i <= |rows| && live.value <= pd.supermasters
        invariant old(st.Clean()) ==> st.Clean()
        invariant old(pd.Clean()) ==> pd.Clean()
        invariant Total(supermasters) == old(Total(supermasters)) + i
        invariant EntriesKept(old(st.supermasters), st.supermasters, rows[..i])
        invariant old(st.Clean() && pd.Clean()) ==>
                    && AddedHaveRows(live.value, pd.supermasters, st.supermasters)
                    && EntriesSettled(st.supermasters, pd.supermasters, rows[..i], target, origin)
        invariant old(st.Clean() && pd.Clean()) && FreshEntries(rows, old(st.supermasters)) ==>
                    EntriesNamed(st.supermasters, pd.supermasters, rows[..i], target, origin)
        invariant old(st.Clean() && pd.Clean()) &&
                  old(EntriesSettled(st.supermasters, pd.supermasters, rows, target, origin)) ==>
                    && st.supermasters == old(st.supermasters) && pd.supermasters == old(pd.supermasters)
                    && supermasters.imported == old(supermasters.imported)
      {
        ghost var r1, s1 := st.supermasters, pd.supermasters;
        assert rows[i] in rows;
        err := ImportSupermaster(rows[i], live.value, old(st.Clean() && pd.Clean()));
        if err.Some? { return; }
        assert rows[..i + 1] == rows[..i] + [rows[i]];
        EntriesNext(old(st.supermasters), r1, s1, st.supermasters, pd.supermasters, rows, i, target, origin,
                    old(st.Clean() && pd.Clean()));
        i := i + 1;
      }
      assert rows[..i] == rows;
      err := None;
    }

    /** A full import deletes the target's templates first. */
    method WipeTemplates() returns (err: Option<Error>)
      modifies st`faults, st`templates
      ensures old(st.Clean()) ==> st.Clean() && err.None?
      ensures err.None? ==> forall k :: k in st.templates ==> st.templates[k].tenant != target
      ensures forall k :: k in old(st.templates) && old(st.templates)[k].tenant != target ==>
                k in st.templates && st.templates[k] == old(st.templates)[k]
    {
      var ids := st.TemplateIds(target);
      if ids.Err? { return Some(ids.error); }
      var todo := ids.value;
      while todo != {}
        invariant old(st.Clean()) ==> st.Clean()
        invariant forall k :: k in st.templates && st.templates[k].tenant == target ==> k in todo
        invariant forall k :: k in old(st.templates) && old(st.templates)[k].tenant != target ==>
                    k in st.templates && st.templates[k] == old(st.templates)[k]
      {
        var id :| id in todo;
        err := st.DeleteTemplate(target, id);
        if err.Some? && !err.value.RowNotFound? { return; }
        todo := todo - {id};
      }
      err := None;
    }

    /** Templates, then zones, then supermasters. */
    method Run(b: Document, full: bool) returns (err: Option<Error>)
      requires ZonesOK(st.zones) && pd.Valid() && Canonical(b)
      modifies st`faults, st`templates, st`zones, st`supermasters, pd`faults, pd`zones, pd`supermasters, this
      ensures old(st.Clean() && pd.Clean()) ==> st.Clean() && pd.Clean()
      ensures old(st.Clean() && pd.Clean()) ==> err.None?
      // every row of the document is accounted for
      ensures err.None? ==>
                && Total(templates) == old(Total(templates)) + |b.templates|
                && Total(zones) + |missing| == old(Total(zones) + |missing|) + |b.zones|
                && Total(supermasters) == old(Total(supermasters)) + |b.supermasters|
      ensures ZonesOK(st.zones) && pd.Valid() &&
              ZonesEffect(old(st.zones), old(pd.zones), st.zones, pd.zones, target, overwrite)
      // after a full import the target's templates are the document's
      ensures err.None? && !overwrite && full ==>
                forall k :: k in st.templates && st.templates[k].tenant == target ==>
                  exists t :: t in b.templates && t.id == k
      ensures err.None? && !overwrite && !full ==>
                IdsFrom(b, old(st.templates), st.templates, old(st.zones), st.zones, old(st.supermasters),
                        st.supermasters)
      ensures old(st.Clean() && pd.Clean()) && !overwrite ==>
                DocumentSettled(st.templates, st.zones, pd.zones, st.supermasters, pd.supermasters, b, target, origin,
                                admin)
      ensures old(st.Clean() && pd.Clean()) && !overwrite && !full &&
              old(FreshDocument(b, st.templates, st.zones, st.supermasters)) ==>
                DocumentNamed(st.templates, st.zones, pd.zones, st.supermasters, pd.supermasters, b, target, origin,
                              admin)
      ensures old(st.Clean() && pd.Clean()) && !overwrite && !full &&
              old(DocumentSettled(st.templates, st.zones, pd.zones, st.supermasters, pd.supermasters, b, target, origin,
                                  admin)) ==>
                && st.templates == old(st.templates) && st.zones == old(st.zones) && pd.zones == old(pd.zones)
                && st.supermasters == old(st.supermasters) && pd.supermasters == old(pd.supermasters)
                && templates.imported == old(templates.imported) && zones.imported == old(zones.imported)
                && supermasters.imported == old(supermasters.imported)
    {
      hide ZonesOK, ZonesEffect, TemplatesSettled, ZonesSettled, EntriesSettled, TemplatesNamed, NamesSettled,
        EntriesNamed, FreshTemplates, FreshZones, FreshEntries, Hostname, Lower, TemplatesKept, RowsKept, EntriesKept;
      ZonesNone(st.zones, pd.zones, target, overwrite);
      if full {
        err := WipeTemplates();
        if err.Some? { return; }
      }
      ghost var wiped := st.templates;
      err := ImportTemplates(b.templates);
      if err.Some? { return; }
      OnlyDocument(wiped, st.templates, b.templates, target);
      err := ImportZones(b.zones);
      if err.Some? { return; }
      err := ImportSupermasters(b.supermasters);
    }
  }

  lemma NowNamed(templates: TemplateRows, t: Template)
    requires t.id in templates && templates[t.id] == t
    ensures HasTemplateName(templates, t.tenant, t.name)
  {
  }

  lemma SettledIsTaken(templates: TemplateRows, t: Template)
    ensures TemplateSettled(templates, t) <==> t.id in templates || TemplateNameTaken(templates, t)
    ensures TemplateNameTaken(templates, t) ==> HasTemplateName(templates, t.tenant, t.name)
  {
    hide EqualFold;
  }

  /** The row added for a live zone: its kind, masters and DNSSEC are the live zone's, its template
  link one of the target's templates or dropped, the rest the document's. */
  ghost predicate Relinked(row: Zone, live: ServerZone, target: string, templates: TemplateRows, z0: Rows, z1: Rows,
                           clean: bool) {
    && row.id in z1 && z1 == z0[row.id := z1[row.id]]
    && var z := z1[row.id];
       && z == row.(tenant := target, pdnsId := row.name, kind := live.kind, masters := live.masters,
                    dnssec := live.dnssec, templateId := z.templateId)
       && (z.templateId == row.templateId || z.templateId == "")
       && (z.templateId != "" ==> z.templateId in templates && templates[z.templateId].tenant == target)
       && (clean && row.templateId in templates && templates[row.templateId].tenant == target ==>
             z.templateId == row.templateId)
  }

  lemma RelinkedLess(row: Zone, live: ServerZone, target: string, templates: TemplateRows, z0: Rows, z1: Rows,
                     less: bool, clean: bool)
    requires less ==> clean
    ensures Relinked(row, live, target, templates, z0, z1, clean) ==>
              Relinked(row, live, target, templates, z0, z1, less)
  {
  }

  /** The target's zone of that name has the document's description. */
  ghost predicate Redescribed(row: Zone, target: string, z0: Rows, z1: Rows) {
    exists id :: OwnedBy(z0, target, id) && z0[id].name == row.name &&
      z1 == z0[id := z0[id].(description := row.description)]
  }

  ghost function NamesOn(server: ServerZones): set<string> {
    set id | id in server :: Lower(server[id].name)
  }

  /** A canonical name is on the list if it is on the server. */
  lemma OnlyNames(server: ServerZones, name: string)
    requires Lower(name) == name && forall id :: id in server ==> server[id].name == id
    ensures name in server ==> name in NamesOn(server)
  {
    hide Lower;
    if name in server { assert server[name].name == name; }
  }

  /** What importing one zone row may do to both stores. */
  ghost predicate ZoneEffect(z0: Rows, s0: ServerZones, z1: Rows, s1: ServerZones, rowId: string, target: string,
                             overwrite: bool) {
    && Atomic(z0, z1) && OnlyTarget(z0, z1, target) && OnlyAccounts(s0, s1, target) && Adopted(s0, s1, z1, target)
    && (forall id :: id in z1 && id !in z0 ==> id == rowId)
    && (!overwrite ==> RowsStay(z0, z1))
  }

  lemma EffectNone(zones: Rows, server: ServerZones, rowId: string, target: string, overwrite: bool)
    ensures ZoneEffect(zones, server, zones, server, rowId, target, overwrite)
  {
    hide Inserts, Rewrites, Conflict;
  }

  lemma EffectDescribed(z0: Rows, z1: Rows, server: ServerZones, z: Zone, row: Zone, target: string)
    requires ZonesOK(z0) && OwnedBy(z0, target, z.id) && z.id in z1 && z1 == z0[z.id := z1[z.id]]
    requires z1[z.id] == z0[z.id].(description := z1[z.id].description)
    ensures ZoneEffect(z0, server, z1, server, row.id, target, true) && ZonesOK(z1)
  {
    hide Conflict, Inserts, HasName, ZonesOK;
    ZoneKeys(z0, z.id);
    assert Rewrites(z0, z1, z1[z.id]);
    assert Raw(z0, z1);
    RawKeepsUnique(z0, z1);
  }

  lemma ZoneKeys(zones: Rows, id: string)
    requires ZonesOK(zones) && id in zones
    ensures zones[id].id == id
  {
  }

  lemma TakenNames(zones: Rows, z: Zone)
    requires z.pdnsId == z.name
    ensures NameTaken(zones, z) <==> z.id in zones || NameUsed(zones, z.name)
  {
  }

  lemma NameFound(zones: Rows, tenant: string, z: Zone)
    requires exists id :: OwnedBy(zones, tenant, id) && zones[id] == z
    ensures HasName(zones, tenant, z.name)
  {
  }

  lemma EffectLinked(z0: Rows, s0: ServerZones, z1: Rows, s1: ServerZones, z: Zone, overwrite: bool)
    requires ZonesOK(z0) && z.id !in z0 && !NameTaken(z0, z) && z1 == z0[z.id := z] && !Conflict(z0, z.tenant, z.name)
    requires z.pdnsId == z.name && z.name in s0
    requires s1 == s0 || s1 == s0[z.name := s0[z.name].(account := z.tenant)]
    ensures ZoneEffect(z0, s0, z1, s1, z.id, z.tenant, overwrite) && ZonesOK(z1) && HasName(z1, z.tenant, z.name)
  {
    hide Conflict, ZonesOK, NameTaken;
    assert Inserts(z0, z1, z);
    assert Raw(z0, z1);
    RawKeepsUnique(z0, z1);
    assert z.id in z1 && z1[z.id] == z;
  }

  // ----- supermasters

  /** Entries added since the list was read have rows. */
  ghost predicate AddedHaveRows(live: seq<Supermaster>, now: seq<Supermaster>, rows: SupermasterRows) {
    forall e :: e in now && e !in live ==> HasEntry(rows, e.ip, e.nameserver + ".")
  }

  /** An absolute name without an empty label at its end. */
  predicate NsName(ns: string) { HasSuffix(ns, ".") && !HasSuffix(Undotted(ns), ".") }

  lemma HostIsNsName(ns: string)
    requires Hostname(ns) == Some(ns)
    ensures NsName(ns)
  {
    SplitNameCanonical(ns);
    var u := Undotted(ns);
    assert u != "" ==> u[|u| - 1] == ns[|ns| - 2] && ns[|ns| - 1] == '.';
  }

  lemma Redotted(ns: string)
    requires NsName(ns)
    ensures Undotted(ns) + "." == ns && Undotted(Undotted(ns)) == Undotted(ns)
  {
  }

  /** The loop over the server's entries: whether one is there, or a foreign one. */
  method FindEntry(live: seq<Supermaster>, target: string, origin: string, ip: string, ns: string)
    returns (found: bool, foreign: bool)
    ensures foreign == ForeignEntry(live, target, origin, ip, ns)
    ensures !foreign ==> (found <==> exists e :: e in live && SameEntry(e, ip, ns))
  {
    hide OwnAccount, SameEntry;
    found, foreign := false, false;
    var i := 0;
    while i < |live|
      invariant 0 <= i <= |live| && !foreign
      invariant found <==> exists e :: e in live[..i] && SameEntry(e, ip, ns)
      invariant !ForeignEntry(live[..i], target, origin, ip, ns)
    {
      assert live[..i + 1] == live[..i] + [live[i]];
      if SameEntry(live[i], ip, ns) {
        if !OwnAccount(target, origin, live[i].account) {
          assert live[i] in live;
          return found, true;
        }
        found := true;
      }
      i := i + 1;
    }
    assert live[..i] == live;
  }

  lemma ListedHasEntry(live: seq<Supermaster>, now: seq<Supermaster>, rows: SupermasterRows, ip: string,
                       nameserver: string, ns: string)
    requires Listed(now, ip, ns) && AddedHaveRows(live, now, rows) && ns + "." == nameserver
    requires Undotted(nameserver) == ns == Undotted(ns)
    requires !exists e :: e in live && SameEntry(e, ip, nameserver)
    ensures HasEntry(rows, ip, nameserver)
  {
    var e :| e in now && e.ip == ip && e.nameserver == ns;
    assert e !in live;
  }

  lemma ListedLast(all: seq<Supermaster>)
    ensures all != [] ==> Listed(all, all[|all| - 1].ip, all[|all| - 1].nameserver)
  {
  }

  lemma RowsHaveAdded(live: seq<Supermaster>, s0: seq<Supermaster>, s1: seq<Supermaster>, r0: SupermasterRows,
                      r1: SupermasterRows, s: SupermasterRow, ns: string)
    requires AddedHaveRows(live, s0, r0) && ns + "." == s.nameserver
    requires r1 == r0 || (s.id !in r0 && r1 == r0[s.id := s])
    requires s1 == s0 || (exists a :: s1 == s0 + [Supermaster(s.ip, ns, a)])
    ensures s1 == s0 || r1 != r0 ==> AddedHaveRows(live, s1, r1)
    ensures SupermasterTaken(r1, s) && s.id !in r0 ==> HasEntry(r1, s.ip, s.nameserver)
  {
    if r1 != r0 { assert s.id in r1 && r1[s.id] == s; }
    if s1 == s0 || r1 != r0 {
      forall e | e in s1 && e !in live ensures HasEntry(r1, e.ip, e.nameserver + ".") {
        if e in s0 {
          var k :| k in r0 && r0[k].ip == e.ip && r0[k].nameserver == e.nameserver + ".";
          assert k in r1;
        }
      }
    }
  }

  lemma ForeignLater(live: seq<Supermaster>, now: seq<Supermaster>, target: string, origin: string, ip: string,
                     ns: string)
    requires live <= now && ForeignEntry(live, target, origin, ip, ns)
    ensures ForeignEntry(now, target, origin, ip, ns)
  {
    hide SameEntry, OwnAccount;
    var e :| e in live && SameEntry(e, ip, ns) && !OwnAccount(target, origin, e.account);
    assert e in now;
  }

  // ----- all templates

  ghost predicate TemplatesSettled(templates: TemplateRows, rows: seq<Template>, target: string) {
    forall t :: t in rows ==> TemplateSettled(templates, Tidy(t, target))
  }

  ghost predicate TemplatesNamed(templates: TemplateRows, rows: seq<Template>, target: string) {
    forall t :: t in rows ==> HasTemplateName(templates, target, Tidy(t, target).name)
  }

  ghost predicate FreshTemplates(rows: seq<Template>, templates: TemplateRows) {
    && (forall t :: t in rows ==> t.id !in templates)
    && (forall i, j :: 0 <= i < j < |rows| ==> rows[i].id != rows[j].id)
  }

  /** Templates stay, and new ones have ids of the rows. */
  ghost predicate TemplatesKept(t0: TemplateRows, t1: TemplateRows, rows: seq<Template>) {
    && (forall k :: k in t0 ==> k in t1 && t1[k] == t0[k])
    && (forall k :: k in t1 && k !in t0 ==> exists t :: t in rows && t.id == k)
  }

  lemma OnlyDocument(t0: TemplateRows, t1: TemplateRows, rows: seq<Template>, target: string)
    ensures TemplatesKept(t0, t1, rows) && (forall k :: k in t0 ==> t0[k].tenant != target) ==>
              forall k :: k in t1 && t1[k].tenant == target ==> exists t :: t in rows && t.id == k
  {
  }

  lemma NoTemplatesYet(templates: TemplateRows, target: string)
    ensures TemplatesKept(templates, templates, []) && TemplatesSettled(templates, [], target)
    ensures TemplatesNamed(templates, [], target)
  {
  }

  lemma OneSettled(templates: TemplateRows, rows: seq<Template>, i: nat, target: string)
    requires i < |rows|
    ensures TemplatesSettled(templates, rows, target) ==> TemplateSettled(templates, Tidy(rows[i], target))
  {
  }

  lemma SettledLater(t0: TemplateRows, t1: TemplateRows, u: Template)
    requires forall k :: k in t0 ==> k in t1 && t1[k] == t0[k]
    ensures TemplateSettled(t0, u) ==> TemplateSettled(t1, u)
    ensures HasTemplateName(t0, u.tenant, u.name) ==> HasTemplateName(t1, u.tenant, u.name)
  {
    hide EqualFold;
  }

  lemma TemplatesNext(t0: TemplateRows, t1: TemplateRows, t2: TemplateRows, rows: seq<Template>, i: nat, target: string)
    requires i < |rows| && TemplatesKept(t0, t1, rows[..i]) && TemplatesSettled(t1, rows[..i], target)
    requires forall k :: k in t1 ==> k in t2 && t2[k] == t1[k]
    requires forall k :: k in t2 && k !in t1 ==> k == rows[i].id
    requires rows[i].id in t1 || HasTemplateName(t2, target, Tidy(rows[i], target).name)
    ensures TemplatesKept(t0, t2, rows[..i + 1]) && TemplatesSettled(t2, rows[..i + 1], target)
    ensures FreshTemplates(rows, t0) && TemplatesNamed(t1, rows[..i], target) ==>
              TemplatesNamed(t2, rows[..i + 1], target)
  {
    hide HasTemplateName;
    var more := rows[..i + 1];
    assert more == rows[..i] + [rows[i]];
    forall t | t in rows[..i]
      ensures TemplateSettled(t2, Tidy(t, target))
      ensures HasTemplateName(t1, target, Tidy(t, target).name) ==> HasTemplateName(t2, target, Tidy(t, target).name)
    {
      SettledLater(t1, t2, Tidy(t, target));
    }
    assert rows[i] in more;
    if FreshTemplates(rows, t0) { FreshStill(t0, t1, rows, i); }
  }

  lemma FreshStill(t0: TemplateRows, t1: TemplateRows, rows: seq<Template>, i: nat)
    requires i < |rows| && TemplatesKept(t0, t1, rows[..i]) && FreshTemplates(rows, t0)
    ensures rows[i].id !in t1
  {
    assert rows[i] in rows;
  }

  // ----- all zones

  /** What importing zones may do to both stores: overlap-free rows stay so, rows of other tenants
  and in skip mode all rows stay, the server's zones and records stay, and only accounts of zones
  the target now has change. */
  ghost predicate ZonesEffect(z0: Rows, s0: ServerZones, z1: Rows, s1: ServerZones, target: string, overwrite: bool) {
    && (NoOverlap(z0) ==> NoOverlap(z1)) && OnlyTarget(z0, z1, target) && (!overwrite ==> RowsStay(z0, z1))
    && OnlyAccounts(s0, s1, target) && Adopted(s0, s1, z1, target)
  }

  lemma ZonesNone(zones: Rows, server: ServerZones, target: string, overwrite: bool)
    ensures ZonesEffect(zones, server, zones, server, target, overwrite)
  {
    hide NoOverlap;
  }

  lemma NamesStay(z1: Rows, z2: Rows, target: string, name: string)
    requires OnlyTarget(z1, z2, target)
    ensures HasName(z1, target, name) ==> HasName(z2, target, name)
    ensures NameUsed(z1, name) ==> NameUsed(z2, name)
    ensures Conflict(z1, target, name) ==> Conflict(z2, target, name)
  {
    hide Overlaps;
    if id :| id in z1 && z1[id].tenant == target && z1[id].name == name { assert id in z2; }
    if id :| id in z1 && (z1[id].name == name || z1[id].pdnsId == name) { assert id in z2; }
    if id :| id in z1 && z1[id].tenant != target && Overlaps(name, z1[id].name) { assert id in z2; }
  }

  lemma ZonesThen(z0: Rows, s0: ServerZones, z1: Rows, s1: ServerZones, z2: Rows, s2: ServerZones, rowId: string,
                  target: string, overwrite: bool)
    requires ZonesEffect(z0, s0, z1, s1, target, overwrite) && ZoneEffect(z1, s1, z2, s2, rowId, target, overwrite) &&
             ZonesOK(z1)
    ensures ZonesEffect(z0, s0, z2, s2, target, overwrite) && NamesOn(s2) == NamesOn(s1)
    ensures (forall id :: id in s1 ==> s1[id].name == id) ==> (forall id :: id in s2 ==> s2[id].name == id)
  {
    hide Atomic, NoOverlap, Adopted, OnlyAccounts, OnlyTarget, ZonesOK, NamesOn;
    if NoOverlap(z0) { AtomicKeepsApart(z1, z2); }
    TargetThen(z0, z1, z2, target);
    AccountsThen(s0, s1, s2, target);
    AdoptedThen(s0, s1, s2, z1, z2, target);
    SameNames(s1, s2, target);
  }

  lemma TargetThen(z0: Rows, z1: Rows, z2: Rows, target: string)
    requires OnlyTarget(z0, z1, target) && OnlyTarget(z1, z2, target)
    ensures OnlyTarget(z0, z2, target)
  {
  }

  lemma AccountsThen(s0: ServerZones, s1: ServerZones, s2: ServerZones, target: string)
    requires OnlyAccounts(s0, s1, target) && OnlyAccounts(s1, s2, target)
    ensures OnlyAccounts(s0, s2, target) && s0.Keys == s1.Keys
  {
  }

  lemma AdoptedThen(s0: ServerZones, s1: ServerZones, s2: ServerZones, z1: Rows, z2: Rows, target: string)
    requires s0.Keys == s1.Keys && Adopted(s0, s1, z1, target) && Adopted(s1, s2, z2, target) &&
             OnlyTarget(z1, z2, target)
    ensures Adopted(s0, s2, z2, target)
  {
    hide HasName, OnlyTarget;
    forall k | k in s0 && k in s2 && s2[k] != s0[k] ensures HasName(z2, target, k) {
      if s1[k] != s0[k] { NamesStay(z1, z2, target, k); }
    }
  }

  lemma SameNames(s1: ServerZones, s2: ServerZones, target: string)
    requires OnlyAccounts(s1, s2, target)
    ensures s1.Keys == s2.Keys && NamesOn(s2) == NamesOn(s1)
    ensures (forall id :: id in s1 ==> s1[id].name == id) ==> (forall id :: id in s2 ==> s2[id].name == id)
  {
    hide Lower;
    assert forall id :: id in s1 ==> s2[id].name == s1[id].name;
  }

  lemma NamesLowered(server: ServerZones, names: set<string>, onServer: set<string>)
    requires names == (set id | id in server :: server[id].name) && onServer == (set n | n in names :: Lower(n))
    ensures onServer == NamesOn(server)
  {
    hide Lower;
    forall n | n in onServer ensures n in NamesOn(server) {
      var m :| m in names && Lower(m) == n;
      var id :| id in server && server[id].name == m;
    }
    forall n | n in NamesOn(server) ensures n in onServer {
      var id :| id in server && Lower(server[id].name) == n;
      assert server[id].name in names;
    }
  }

  ghost predicate ZonesSettled(zones: Rows, server: ServerZones, rows: seq<Zone>, target: string, origin: string) {
    forall z :: z in rows ==> z.id in zones || ZoneSettled(zones, server, target, origin, z.name)
  }

  ghost predicate NamesSettled(zones: Rows, server: ServerZones, rows: seq<Zone>, target: string, origin: string) {
    forall z :: z in rows ==> ZoneSettled(zones, server, target, origin, z.name)
  }

  ghost predicate FreshZones(rows: seq<Zone>, zones: Rows) {
    && (forall z :: z in rows ==> z.id !in zones)
    && (forall i, j :: 0 <= i < j < |rows| ==> rows[i].id != rows[j].id)
  }

  ghost predicate RowsKept(z0: Rows, z1: Rows, rows: seq<Zone>) {
    && RowsStay(z0, z1)
    && (forall id :: id in z1 && id !in z0 ==> exists z :: z in rows && z.id == id)
  }

  /** A settled name stays settled while other rows are imported. */
  lemma StaysSettled(z1: Rows, s1: ServerZones, z2: Rows, s2: ServerZones, rowId: string, target: string,
                     origin: string, name: string)
    requires ZoneEffect(z1, s1, z2, s2, rowId, target, false) && ZoneSettled(z1, s1, target, origin, name)
    ensures ZoneSettled(z2, s2, target, origin, name)
  {
    hide Atomic, HasName, Conflict, NameUsed, OwnAccount;
    NamesStay(z1, z2, target, name);
  }

  lemma RowsThen(z0: Rows, z1: Rows, z2: Rows, rows: seq<Zone>, i: nat)
    requires i < |rows| && RowsKept(z0, z1, rows[..i]) && RowsStay(z1, z2)
    requires (forall id :: id in z2 && id !in z1 ==> id == rows[i].id)
    ensures RowsKept(z0, z2, rows[..i + 1])
  {
    assert rows[..i + 1] == rows[..i] + [rows[i]];
    assert rows[i] in rows[..i + 1];
  }

  lemma ZonesNext(z0: Rows, z1: Rows, s1: ServerZones, z2: Rows, s2: ServerZones, rows: seq<Zone>, i: nat,
                  target: string, origin: string)
    requires i < |rows| && RowsKept(z0, z1, rows[..i]) && ZonesSettled(z1, s1, rows[..i], target, origin)
    requires ZoneEffect(z1, s1, z2, s2, rows[i].id, target, false)
    requires rows[i].id in z1 || ZoneSettled(z2, s2, target, origin, rows[i].name)
    ensures RowsKept(z0, z2, rows[..i + 1]) && ZonesSettled(z2, s2, rows[..i + 1], target, origin)
    ensures FreshZones(rows, z0) && NamesSettled(z1, s1, rows[..i], target, origin) ==>
              NamesSettled(z2, s2, rows[..i + 1], target, origin)
  {
    hide Atomic, ZoneSettled, OnlyAccounts, Adopted, OnlyTarget, RowsKept;
    RowsThen(z0, z1, z2, rows, i);
    var more := rows[..i + 1];
    assert more == rows[..i] + [rows[i]];
    forall z | z in rows[..i] && ZoneSettled(z1, s1, target, origin, z.name)
      ensures ZoneSettled(z2, s2, target, origin, z.name)
    {
      StaysSettled(z1, s1, z2, s2, rows[i].id, target, origin, z.name);
    }
    assert rows[i] in more && rows[i] in rows;
    if FreshZones(rows, z0) { FreshRow(z0, z1, rows, i); }
  }

  lemma FreshRow(z0: Rows, z1: Rows, rows: seq<Zone>, i: nat)
    requires i < |rows| && RowsKept(z0, z1, rows[..i]) && FreshZones(rows, z0)
    ensures rows[i].id !in z1
  {
    assert rows[i] in rows;
  }

  // ----- all supermasters

  ghost predicate EntriesSettled(entries: SupermasterRows, live: seq<Supermaster>, rows: seq<SupermasterRow>,
                                 target: string, origin: string) {
    forall r :: r in rows ==> SupermasterSettled(entries, live, target, origin, r)
  }

  ghost predicate EntriesNamed(entries: SupermasterRows, live: seq<Supermaster>, rows: seq<SupermasterRow>,
                               target: string, origin: string) {
    forall r :: r in rows ==> HasEntry(entries, r.ip, NsOf(r)) || ForeignEntry(live, target, origin, r.ip, NsOf(r))
  }

  ghost predicate FreshEntries(rows: seq<SupermasterRow>, entries: SupermasterRows) {
    && (forall r :: r in rows ==> r.id !in entries)
    && (forall i, j :: 0 <= i < j < |rows| ==> rows[i].id != rows[j].id)
  }

  ghost predicate EntriesKept(r0: SupermasterRows, r1: SupermasterRows, rows: seq<SupermasterRow>) {
    && (forall k :: k in r0 ==> k in r1 && r1[k] == r0[k])
    && (forall k :: k in r1 && k !in r0 ==> exists r :: r in rows && r.id == k)
  }

  lemma NoRowsYet(zones: Rows, server: ServerZones, target: string, origin: string)
    ensures RowsKept(zones, zones, []) && NamesSettled(zones, server, [], target, origin)
  {
  }

  lemma KeptMore(entries: SupermasterRows, rows: seq<SupermasterRow>)
    ensures EntriesKept(entries, entries, rows)
  {
  }

  lemma NoEntriesYet(rows: SupermasterRows, live: seq<Supermaster>, target: string, origin: string)
    ensures EntriesKept(rows, rows, []) && EntriesNamed(rows, live, [], target, origin) &&
            AddedHaveRows(live, live, rows)
  {
  }

  lemma EntryLater(r1: SupermasterRows, s1: seq<Supermaster>, r2: SupermasterRows, s2: seq<Supermaster>,
                   r: SupermasterRow, target: string, origin: string)
    requires (forall k :: k in r1 ==> k in r2 && r2[k] == r1[k]) && s1 <= s2
    ensures SupermasterSettled(r1, s1, target, origin, r) ==> SupermasterSettled(r2, s2, target, origin, r)
    ensures HasEntry(r1, r.ip, NsOf(r)) ==> HasEntry(r2, r.ip, NsOf(r))
    ensures ForeignEntry(s1, target, origin, r.ip, NsOf(r)) ==> ForeignEntry(s2, target, origin, r.ip, NsOf(r))
  {
    hide ForeignEntry, NsOf;
    if k :| k in r1 && r1[k].ip == r.ip && r1[k].nameserver == NsOf(r) { assert k in r2; }
    if ForeignEntry(s1, target, origin, r.ip, NsOf(r)) { ForeignLater(s1, s2, target, origin, r.ip, NsOf(r)); }
  }

  lemma EntriesNext(r0: SupermasterRows, r1: SupermasterRows, s1: seq<Supermaster>, r2: SupermasterRows,
                    s2: seq<Supermaster>, rows: seq<SupermasterRow>, i: nat, target: string, origin: string,
                    clean: bool)
    requires i < |rows| && EntriesKept(r0, r1, rows[..i]) && (forall k :: k in r1 ==> k in r2 && r2[k] == r1[k]) &&
             s1 <= s2
    requires forall k :: k in r2 && k !in r1 ==> k == rows[i].id
    requires clean ==>
               && EntriesSettled(r1, s1, rows[..i], target, origin)
               && (rows[i].id in r1 || HasEntry(r2, rows[i].ip, NsOf(rows[i])) ||
                   ForeignEntry(s2, target, origin, rows[i].ip, NsOf(rows[i])))
    ensures EntriesKept(r0, r2, rows[..i + 1])
    ensures clean ==> EntriesSettled(r2, s2, rows[..i + 1], target, origin)
    ensures clean && FreshEntries(rows, r0) && EntriesNamed(r1, s1, rows[..i], target, origin) ==>
              EntriesNamed(r2, s2, rows[..i + 1], target, origin)
  {
    hide HasEntry, ForeignEntry, NsOf;
    var more := rows[..i + 1];
    assert more == rows[..i] + [rows[i]];
    forall r | r in rows[..i]
      ensures SupermasterSettled(r1, s1, target, origin, r) ==> SupermasterSettled(r2, s2, target, origin, r)
      ensures HasEntry(r1, r.ip, NsOf(r)) ==> HasEntry(r2, r.ip, NsOf(r))
      ensures ForeignEntry(s1, target, origin, r.ip, NsOf(r)) ==> ForeignEntry(s2, target, origin, r.ip, NsOf(r))
    {
      EntryLater(r1, s1, r2, s2, r, target, origin);
    }
    assert rows[i] in more;
    if FreshEntries(rows, r0) { FreshEntry(r0, r1, rows, i); }
  }

  lemma FreshEntry(r0: SupermasterRows, r1: SupermasterRows, rows: seq<SupermasterRow>, i: nat)
    requires i < |rows| && EntriesKept(r0, r1, rows[..i]) && FreshEntries(rows, r0)
    ensures rows[i].id !in r1
  {
    assert rows[i] in rows;
  }

  // ----- the document

  /** Zone names are in canonical form, and name servers are host names, as validation leaves them. */
  ghost predicate Canonical(b: Document) {
    (forall z :: z in b.zones ==> Lower(z.name) == z.name) &&
    (forall r :: r in b.supermasters ==> Hostname(r.nameserver).Some?)
  }

  /** Another skip-mode import of the document would change nothing. */
  ghost predicate DocumentSettled(templates: TemplateRows, zones: Rows, server: ServerZones, entries: SupermasterRows,
                                  live: seq<Supermaster>,
                                  b: Document, target: string, origin: string, admin: bool) {
    && TemplatesSettled(templates, b.templates, target) && ZonesSettled(zones, server, b.zones, target, origin)
    && (admin ==> EntriesSettled(entries, live, b.supermasters, target, origin))
  }

  /** And would not even with other ids. */
  ghost predicate DocumentNamed(templates: TemplateRows, zones: Rows, server: ServerZones, entries: SupermasterRows,
                                live: seq<Supermaster>, b: Document, target: string, origin: string, admin: bool) {
    && TemplatesNamed(templates, b.templates, target) && NamesSettled(zones, server, b.zones, target, origin)
    && (admin ==> EntriesNamed(entries, live, b.supermasters, target, origin))
  }

  /** New rows have ids of the document. */
  ghost predicate IdsFrom(b: Document, t0: TemplateRows, t1: TemplateRows, z0: Rows, z1: Rows, r0: SupermasterRows,
                          r1: SupermasterRows) {
    TemplatesKept(t0, t1, b.templates) && RowsKept(z0, z1, b.zones) && EntriesKept(r0, r1, b.supermasters)
  }

  ghost predicate FreshDocument(b: Document, templates: TemplateRows, zones: Rows, entries: SupermasterRows) {
    FreshTemplates(b.templates, templates) && FreshZones(b.zones, zones) && FreshEntries(b.supermasters, entries)
  }

  // ----- another tenant's document

  /** The same rows under new ids. */
  ghost predicate SameRows(a: Document, b: Document) {
    && a.tenant == b.tenant && |a.templates| == |b.templates| && |a.zones| == |b.zones|
    && |a.supermasters| == |b.supermasters|
    && (forall i :: 0 <= i < |a.templates| ==> b.templates[i] == a.templates[i].(id := b.templates[i].id))
    && (forall i :: 0 <= i < |a.zones| ==>
          b.zones[i] == a.zones[i].(id := b.zones[i].id, templateId := b.zones[i].templateId))
    && (forall i :: 0 <= i < |a.supermasters| ==> b.supermasters[i] == a.supermasters[i].(id := b.supermasters[i].id))
  }

  /** A zone's template link follows its template, or is dropped. */
  ghost predicate LinkFollows(a: Document, b: Document, i: nat)
    requires SameRows(a, b) && i < |a.zones|
  {
    var old0 := a.zones[i].templateId;
    if forall j :: 0 <= j < |a.templates| ==> a.templates[j].id != old0 then b.zones[i].templateId == ""
    else exists j :: 0 <= j < |a.templates| && a.templates[j].id == old0 && b.zones[i].templateId == b.templates[j].id
  }

  ghost predicate Renamed(a: Document, b: Document, ids: seq<string>) {
    && SameRows(a, b) && |ids| == |a.templates| + |a.zones| + |a.supermasters|
    && (forall i :: 0 <= i < |b.templates| ==> b.templates[i].id == ids[i])
    && (forall i :: 0 <= i < |b.zones| ==> b.zones[i].id == ids[|a.templates| + i])
    && (forall i :: 0 <= i < |b.supermasters| ==> b.supermasters[i].id == ids[|a.templates| + |a.zones| + i])
  }

  /** Gives every row a new id; template links follow their template. */
  method Remap(a: Document, ids: seq<string>) returns (b: Document)
    requires |ids| == |a.templates| + |a.zones| + |a.supermasters|
    ensures Renamed(a, b, ids) && forall i :: 0 <= i < |a.zones| ==> LinkFollows(a, b, i)
  {
    var templates, link := RemapTemplates(a.templates, ids[..|a.templates|]);
    var zones := RemapZones(a.zones, ids[|a.templates|..|a.templates| + |a.zones|], link);
    var entries := RemapSupermasters(a.supermasters, ids[|a.templates| + |a.zones|..]);
    b := Document(a.tenant, templates, zones, entries);
    assert SameRows(a, b);
    forall i | 0 <= i < |a.zones| ensures LinkFollows(a, b, i) {
      if a.zones[i].templateId in link {
        var j :| 0 <= j < |a.templates| && a.templates[j].id == a.zones[i].templateId &&
          link[a.zones[i].templateId] == templates[j].id;
      }
    }
  }

  method RemapTemplates(rows: seq<Template>, ids: seq<string>) returns (out: seq<Template>, link: map<string, string>)
    requires |ids| == |rows|
    ensures |out| == |rows| && forall i :: 0 <= i < |rows| ==> out[i] == rows[i].(id := ids[i])
    ensures forall i :: 0 <= i < |rows| ==> rows[i].id in link
    ensures forall k :: k in link ==> exists j :: 0 <= j < |rows| && rows[j].id == k && link[k] == ids[j]
  {
    out, link := [], map[];
    var i := 0;
    while i < |rows|
      invariant 0 <= i <= |rows| && |out| == i
      invariant forall j :: 0 <= j < i ==> out[j] == rows[j].(id := ids[j]) && rows[j].id in link
      invariant forall k :: k in link ==> exists j :: 0 <= j < i && rows[j].id == k && link[k] == ids[j]
    {
      link := link[rows[i].id := ids[i]];
      out := out + [rows[i].(id := ids[i])];
      i := i + 1;
    }
  }

  method RemapZones(rows: seq<Zone>, ids: seq<string>, link: map<string, string>) returns (out: seq<Zone>)
    requires |ids| == |rows|
    ensures |out| == |rows|
    ensures forall i :: 0 <= i < |rows| ==>
              out[i] == rows[i].(id := ids[i],
                                 templateId := if rows[i].templateId in link then link[rows[i].templateId] else "")
  {
    out := [];
    var i := 0;
    while i < |rows|
      invariant 0 <= i <= |rows| && |out| == i
      invariant forall j :: 0 <= j < i ==>
                  out[j] == rows[j].(id := ids[j],
                                     templateId := if rows[j].templateId in link then link[rows[j].templateId] else "")
    {
      out := out + [rows[i].(id := ids[i],
                             templateId := if rows[i].templateId in link then link[rows[i].templateId] else "")];
      i := i + 1;
    }
  }

  method RemapSupermasters(rows: seq<SupermasterRow>, ids: seq<string>) returns (out: seq<SupermasterRow>)
    requires |ids| == |rows|
    ensures |out| == |rows| && forall i :: 0 <= i < |rows| ==> out[i] == rows[i].(id := ids[i])
  {
    out := [];
    var i := 0;
    while i < |rows|
      invariant 0 <= i <= |rows| && |out| == i
      invariant forall j :: 0 <= j < i ==> out[j] == rows[j].(id := ids[j])
    {
      out := out + [rows[i].(id := ids[i])];
      i := i + 1;
    }
  }

  /** Ids that no row has. */
  ghost predicate UnusedIds(ids: seq<string>, templates: TemplateRows, zones: Rows, entries: SupermasterRows) {
    Distinct(ids) && forall x :: x in ids ==> x !in templates && x !in zones && x !in entries
  }

  lemma RenamedIsFresh(a: Document, b: Document, ids: seq<string>, templates: TemplateRows, zones: Rows,
                       entries: SupermasterRows)
    requires Renamed(a, b, ids) && UnusedIds(ids, templates, zones, entries)
    ensures FreshDocument(b, templates, zones, entries)
  {
    RenamedIds(a, b, ids);
  }

  /** What is settled by name stays settled under other ids. */
  lemma NamedIsSettled(a: Document, b: Document, c: Document, templates: TemplateRows, zones: Rows, server: ServerZones,
                       entries: SupermasterRows,
                       live: seq<Supermaster>, target: string, origin: string, admin: bool)
    requires SameRows(a, b) && SameRows(a, c) &&
             DocumentNamed(templates, zones, server, entries, live, b, target, origin, admin)
    ensures DocumentSettled(templates, zones, server, entries, live, c, target, origin, admin)
  {
    hide HasTemplateName, ZoneSettled, HasEntry, ForeignEntry, Trim, Hostname;
    forall t | t in c.templates ensures TemplateSettled(templates, Tidy(t, target)) {
      var i :| 0 <= i < |c.templates| && c.templates[i] == t;
      assert b.templates[i] in b.templates;
    }
    forall z | z in c.zones ensures ZoneSettled(zones, server, target, origin, z.name) {
      var i :| 0 <= i < |c.zones| && c.zones[i] == z;
      assert b.zones[i] in b.zones;
    }
    if admin {
      forall r | r in c.supermasters ensures SupermasterSettled(entries, live, target, origin, r) {
        var i :| 0 <= i < |c.supermasters| && c.supermasters[i] == r;
        assert b.supermasters[i] in b.supermasters;
      }
    }
  }

  lemma CanonicalRows(a: Document, b: Document)
    requires SameRows(a, b) && Canonical(a)
    ensures Canonical(b)
  {
    hide Lower, Hostname;
    forall z | z in b.zones ensures Lower(z.name) == z.name {
      var i :| 0 <= i < |b.zones| && b.zones[i] == z;
      assert a.zones[i] in a.zones;
    }
    forall r | r in b.supermasters ensures Hostname(r.nameserver).Some? {
      var i :| 0 <= i < |b.supermasters| && b.supermasters[i] == r;
      assert a.supermasters[i] in a.supermasters;
    }
  }

  lemma RenamedRows(a: Document, b: Document, ids: seq<string>)
    requires Renamed(a, b, ids)
    ensures SameRows(a, b)
  {
  }

  lemma RowCounts(a: Document, b: Document)
    requires SameRows(a, b)
    ensures |a.templates| == |b.templates| && |a.zones| == |b.zones| && |a.supermasters| == |b.supermasters|
  {
  }

  lemma UnusedParts(ids: seq<string>, more: seq<string>, templates: TemplateRows, zones: Rows, entries: SupermasterRows)
    requires UnusedIds(ids + more, templates, zones, entries)
    ensures UnusedIds(ids, templates, zones, entries) && UnusedIds(more, templates, zones, entries)
    ensures forall x :: x in ids ==> x !in more
  {
    var all := ids + more;
    forall i, j | 0 <= i < |ids| && 0 <= j < |more| ensures ids[i] != more[j] {
      assert all[i] == ids[i] && all[|ids| + j] == more[j];
    }
    forall i, j | 0 <= i < j < |ids| ensures ids[i] != ids[j] { assert all[i] == ids[i] && all[j] == ids[j]; }
    forall i, j | 0 <= i < j < |more| ensures more[i] != more[j] {
      assert all[|ids| + i] == more[i] && all[|ids| + j] == more[j];
    }
  }

  lemma RenamedIds(a: Document, b: Document, ids: seq<string>)
    requires Renamed(a, b, ids)
    ensures forall t :: t in b.templates ==> t.id in ids
    ensures forall z :: z in b.zones ==> z.id in ids
    ensures forall r :: r in b.supermasters ==> r.id in ids
  {
    var n, m := |a.templates|, |a.templates| + |a.zones|;
    forall t | t in b.templates ensures t.id in ids {
      var i :| 0 <= i < |b.templates| && b.templates[i] == t;
      assert ids[i] in ids;
    }
    forall z | z in b.zones ensures z.id in ids {
      var i :| 0 <= i < |b.zones| && b.zones[i] == z;
      assert ids[n + i] in ids;
    }
    forall r | r in b.supermasters ensures r.id in ids {
      var i :| 0 <= i < |b.supermasters| && b.supermasters[i] == r;
      assert ids[m + i] in ids;
    }
  }

  lemma StillUnused(a: Document, b: Document, ids: seq<string>, more: seq<string>, t0: TemplateRows, t1: TemplateRows,
                    z0: Rows, z1: Rows, r0: SupermasterRows, r1: SupermasterRows)
    requires Renamed(a, b, ids) && IdsFrom(b, t0, t1, z0, z1, r0, r1) && UnusedIds(more, t0, z0, r0)
    requires forall x :: x in ids ==> x !in more
    ensures UnusedIds(more, t1, z1, r1)
  {
    hide Renamed;
    RenamedIds(a, b, ids);
  }

  lemma SameRowsSelf(a: Document)
    ensures SameRows(a, a)
  {
  }

  // ----- import

  /** The rows and server state an import touches. */
  datatype Stores = Stores(templates: TemplateRows, zones: Rows, server: ServerZones, entries: SupermasterRows,
                           live: seq<Supermaster>)

  /** A fault-free skip-mode import of a document, whose rows were entered as `rows`: new rows have
  their ids; everything is settled afterwards, under the same ids or by name when the ids are new;
  and when it was settled before, nothing changed and nothing was imported. */
  ghost predicate SkipImported(a: Stores, b: Stores, doc: Document, rows: Document, target: string, admin: bool,
                               imported: nat) {
    && SameRows(doc, rows) && (doc.tenant == target ==> rows == doc)
    && IdsFrom(rows, a.templates, b.templates, a.zones, b.zones, a.entries, b.entries)
    && ZonesEffect(a.zones, a.server, b.zones, b.server, target, false)
    && (if doc.tenant == target then
          DocumentSettled(b.templates, b.zones, b.server, b.entries, b.live, rows, target, doc.tenant, admin)
        else DocumentNamed(b.templates, b.zones, b.server, b.entries, b.live, rows, target, doc.tenant, admin))
    && (DocumentSettled(a.templates, a.zones, a.server, a.entries, a.live, rows, target, doc.tenant, admin) ==>
          b == a && imported == 0)
  }

  lemma NothingCounted()
    ensures Total(Tally(0, 0)) == 0
  {
  }

  /** Loads a validated document into the target tenant; rows of another tenant's document get
  new ids. */
  method Import(st: Store, pd: Server, doc: Document, target: string, overwrite: bool, full: bool, admin: bool,
                ids: seq<string>)
    returns (im: Importer, err: Option<Error>, ghost b: Document)
    requires ZonesOK(st.zones) && pd.Valid() && Canonical(doc)
    requires |ids| == |doc.templates| + |doc.zones| + |doc.supermasters|
    requires doc.tenant != target ==> UnusedIds(ids, st.templates, st.zones, st.supermasters)
    modifies st`faults, st`templates, st`zones, st`supermasters, pd`faults, pd`zones, pd`supermasters
    ensures old(st.Clean() && pd.Clean()) ==> st.Clean() && pd.Clean()
    ensures SameRows(doc, b) && (if doc.tenant == target then b == doc else Renamed(doc, b, ids))
    ensures err.None? && !overwrite && !full ==>
              IdsFrom(b, old(st.templates), st.templates, old(st.zones), st.zones, old(st.supermasters),
                      st.supermasters)
    ensures old(st.Clean() && pd.Clean()) ==> err.None?
    ensures err.None? ==>
              && Total(im.templates) == |doc.templates| && Total(im.zones) + |im.missing| == |doc.zones|
              && Total(im.supermasters) == |doc.supermasters|
    ensures ZonesOK(st.zones) && pd.Valid() &&
            ZonesEffect(old(st.zones), old(pd.zones), st.zones, pd.zones, target, overwrite)
    // in skip mode without faults: settled afterwards, and nothing done when it was
    ensures old(st.Clean() && pd.Clean()) && !overwrite && !full ==>
              SkipImported(Stores(old(st.templates), old(st.zones), old(pd.zones), old(st.supermasters),
                                  old(pd.supermasters)),
                           Stores(st.templates, st.zones, pd.zones, st.supermasters, pd.supermasters),
                           doc, b, target, admin,
                           im.templates.imported + im.zones.imported + im.supermasters.imported)
  {
    hide ZonesOK, ZonesEffect, DocumentSettled, DocumentNamed, Canonical, SameRows, UnusedIds, FreshDocument, Renamed,
      IdsFrom, Total;
    NothingCounted();
    im := new Importer(st, pd, target, doc.tenant, overwrite, admin);
    var rows := doc;
    SameRowsSelf(doc);
    if doc.tenant != target {
      rows := Remap(doc, ids);
      RenamedRows(doc, rows, ids);
      RenamedIsFresh(doc, rows, ids, st.templates, st.zones, st.supermasters);
    }
    CanonicalRows(doc, rows);
    RowCounts(doc, rows);
    b := rows;
    err := im.Run(rows, full);
  }

  /** A fault-free skip-mode import, done twice: the second one changes nothing and imports nothing,
  even for another tenant's document whose rows get new ids each time. */
  lemma ImportTwice(a: Stores, b: Stores, c: Stores, doc: Document, rows: Document, again: Document, target: string,
                    admin: bool, m: nat, n: nat)
    requires SkipImported(a, b, doc, rows, target, admin, m) && SkipImported(b, c, doc, again, target, admin, n)
    ensures c == b && n == 0
  {
    hide DocumentSettled, DocumentNamed, SameRows, IdsFrom, ZonesEffect;
    if doc.tenant != target {
      NamedIsSettled(doc, rows, again, b.templates, b.zones, b.server, b.entries, b.live, target, doc.tenant, admin);
    }
  }

  /** One import after the other; `mid` is what the first one left. */
  method ImportAgain(st: Store, pd: Server, doc: Document, target: string, admin: bool, ids: seq<string>,
                     more: seq<string>)
    returns (first: Importer, second: Importer, ghost mid: Stores, ghost rows: Document)
    requires ZonesOK(st.zones) && pd.Valid() && Canonical(doc) && st.Clean() && pd.Clean()
    requires |ids| == |more| == |doc.templates| + |doc.zones| + |doc.supermasters|
    requires doc.tenant != target ==> UnusedIds(ids + more, st.templates, st.zones, st.supermasters)
    modifies st`faults, st`templates, st`zones, st`supermasters, pd`faults, pd`zones, pd`supermasters
    ensures SkipImported(Stores(old(st.templates), old(st.zones), old(pd.zones), old(st.supermasters),
                                old(pd.supermasters)),
                         mid, doc, rows, target, admin,
                         first.templates.imported + first.zones.imported + first.supermasters.imported)
    ensures mid == Stores(st.templates, st.zones, pd.zones, st.supermasters, pd.supermasters)
    ensures second.templates.imported == 0 && second.zones.imported == 0 && second.supermasters.imported == 0
  {
    hide ZonesOK, ZonesEffect, Canonical, SameRows, Renamed, IdsFrom, UnusedIds, SkipImported, Total;
    if doc.tenant != target { UnusedParts(ids, more, st.templates, st.zones, st.supermasters); }
    ghost var before := Stores(st.templates, st.zones, pd.zones, st.supermasters, pd.supermasters);
    var err;
    first, err, rows := Import(st, pd, doc, target, false, false, admin, ids);
    mid := Stores(st.templates, st.zones, pd.zones, st.supermasters, pd.supermasters);
    ghost var m := first.templates.imported + first.zones.imported + first.supermasters.imported;
    if doc.tenant != target {
      StillUnused(doc, rows, ids, more, old(st.templates), mid.templates, old(st.zones), mid.zones,
                  old(st.supermasters), mid.entries);
    }
    ghost var again;
    second, err, again := Import(st, pd, doc, target, false, false, admin, more);
    ImportTwice(before, mid, Stores(st.templates, st.zones, pd.zones, st.supermasters, pd.supermasters), doc, rows,
                again, target, admin,
                m, second.templates.imported + second.zones.imported + second.supermasters.imported);
  }
}
