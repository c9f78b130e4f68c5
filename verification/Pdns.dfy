/** The authoritative server, with the semantics of the in-memory double
(internal/pdns/fake.go): whole-set REPLACE and DELETE, all-or-nothing patches, one zone per
name, and calls that fail before they have any effect. */
module Pdns {
  import opened Strings
  import opened Names
  import opened Wrappers
  import opened Model

  const SOA_TTL := 3600

  function SoaSet(name: string, nameservers: seq<string>): RRset {
    var primary := if nameservers == [] then "a.misconfigured.dns.server.invalid." else nameservers[0];
    RRset(name, SOA, SOA_TTL, [Record(primary + " hostmaster." + name + " 1 10800 3600 604800 3600", false)], [])
  }

  function Enabled(contents: seq<string>): (rs: seq<Record>)
    ensures |rs| == |contents|
    ensures forall i :: 0 <= i < |rs| ==> rs[i] == Record(contents[i], false)
  {
    seq(|contents|, i requires 0 <= i < |contents| => Record(contents[i], false))
  }

  /** SOA, and NS when nameservers are given: what a new zone starts with. */
  function BaseSets(name: string, nameservers: seq<string>): seq<RRset> {
    [SoaSet(name, nameservers)] +
    if nameservers == [] then [] else [RRset(name, NS, SOA_TTL, Enabled(nameservers), [])]
  }

  function AddSets(sets: seq<RRset>, extra: seq<RRset>): seq<RRset>
    decreases |extra|
  {
    if extra == [] then sets else AddSets(ReplaceInPlace(sets, extra[0]), extra[1..])
  }

  /** The server takes the initial record sets: in zone, and no apex NS beside a nameserver list. */
  predicate InitialOK(name: string, nameservers: seq<string>, extra: seq<RRset>) {
    forall r :: r in extra ==> InitialSetOK(name, nameservers, r)
  }

  predicate InitialSetOK(name: string, nameservers: seq<string>, r: RRset) {
    InZone(r.name, name) && !(nameservers != [] && r.name == name && r.typ.NS?)
  }

  function NewZone(name: string, kind: Kind, masters: seq<string>, dnssec: bool, account: string,
                   nameservers: seq<string>, extra: seq<RRset>): ServerZone
  {
    ServerZone(name, kind, masters, dnssec, account, 1, AddSets(BaseSets(name, nameservers), extra))
  }

  predicate ChangeOK(c: Change, zone: string) {
    match c
    case Replace(rr) => InZone(rr.name, zone)
    case Refill(rr) => InZone(rr.name, zone)
    case Remove(name, typ) => InZone(name, zone) && !typ.SOA?
  }

  predicate ChangesOK(cs: seq<Change>, zone: string) {
    forall c :: c in cs ==> ChangeOK(c, zone)
  }

  // ----- supermasters

  ghost predicate Listed(all: seq<Supermaster>, ip: string, nameserver: string) {
    exists x :: x in all && x.ip == ip && x.nameserver == nameserver
  }

  /** The list without its first entry for the address and name. */
  function Unlisted(all: seq<Supermaster>, ip: string, nameserver: string): seq<Supermaster> {
    if all == [] then []
    else if all[0].ip == ip && all[0].nameserver == nameserver then all[1..]
    else [all[0]] + Unlisted(all[1..], ip, nameserver)
  }

  /** The server's loop. */
  method TakeFirst(all: seq<Supermaster>, ip: string, nameserver: string) returns (found: bool, rest: seq<Supermaster>)
    ensures found == Listed(all, ip, nameserver) && rest == Unlisted(all, ip, nameserver)
  {
    var i := 0;
    while i < |all|
      invariant 0 <= i <= |all|
      invariant forall k :: 0 <= k < i ==> !(all[k].ip == ip && all[k].nameserver == nameserver)
      invariant Unlisted(all, ip, nameserver) == all[..i] + Unlisted(all[i..], ip, nameserver)
    {
      ghost var tail := Unlisted(all[i + 1..], ip, nameserver);
      assert all[i..][0] == all[i] && all[i..][1..] == all[i + 1..];
      if all[i].ip == ip && all[i].nameserver == nameserver {
        assert all[i] in all;
        return true, all[..i] + all[i + 1..];
      }
      assert all[..i] + ([all[i]] + tail) == all[..i + 1] + tail;
      i := i + 1;
    }
    found, rest := false, all;
  }

  /** Taking out an entry that was just added restores the list. */
  lemma {:induction false} AddedThenUnlisted(all: seq<Supermaster>, s: Supermaster)
    requires !Listed(all, s.ip, s.nameserver)
    ensures Unlisted(all + [s], s.ip, s.nameserver) == all
  {
    if all != [] {
      assert all[0] in all;
      AddedThenUnlisted(all[1..], s);
      assert (all + [s])[1..] == all[1..] + [s];
    }
  }

  class Server {
    var zones: map<string, ServerZone>
    var supermasters: seq<Supermaster>
    /** Calls fail while the server is unreachable. */
    var down: bool
    /** Whether each of the next calls fails; after the last entry calls succeed. */
    var faults: seq<bool>

    constructor ()
      ensures zones == map[] && supermasters == [] && !down && faults == []
    {
      zones, supermasters, down, faults := map[], [], false, [];
    }

    /** Zones are filed under their name. */
    ghost predicate Valid() reads this`zones {
      forall id :: id in zones ==> zones[id].name == id
    }

    /** No call fails from here on. */
    ghost predicate Clean() reads this`down, this`faults {
      !down && faults == []
    }

    method Begin() returns (fail: bool)
      modifies this`faults
      ensures down ==> fail
      ensures old(Clean()) ==> !fail && Clean()
    {
      if down { return true; }
      if faults == [] { return false; }
      fail := faults[0];
      faults := faults[1..];
    }

    method GetZone(id: string) returns (r: Result<ServerZone>)
      modifies this`faults
      ensures old(Clean()) ==> Clean()
      ensures match r
              case Ok(z) => !down && id in zones && zones[id] == z
              case Err(e) => (e.Unavailable? && !old(Clean())) || (e.ServerNotFound? && id !in zones && !down)
    {
      var fail := Begin();
      if fail { return Err(Unavailable); }
      r := if id in zones then Ok(zones[id]) else Err(ServerNotFound);
    }

    method CreateZone(name: string, kind: Kind, masters: seq<string>, dnssec: bool, account: string,
                      nameservers: seq<string>, extra: seq<RRset>) returns (r: Result<string>)
      modifies this`faults, this`zones
      ensures old(Clean()) ==> Clean()
      ensures match r
              case Ok(id) =>
                && id == name && HasSuffix(name, ".") && name !in old(zones) && !down
                && InitialOK(name, nameservers, extra)
                && zones == old(zones)[name := NewZone(name, kind, masters, dnssec, account, nameservers, extra)]
              case Err(e) =>
                && zones == old(zones)
                && ((e.Unavailable? && !old(Clean()))
                    || (e.ServerConflict? && name in zones)
                    || (e.Unprocessable? && (!HasSuffix(name, ".") || !InitialOK(name, nameservers, extra))))
    {
      var fail := Begin();
      if fail { return Err(Unavailable); }
      if !HasSuffix(name, ".") { return Err(Unprocessable); }
      if name in zones { return Err(ServerConflict); }
      var sets := BaseSets(name, nameservers);
      var i := 0;
      while i < |extra|
        invariant 0 <= i <= |extra|
        invariant zones == old(zones) && (old(Clean()) ==> Clean())
        invariant forall k :: 0 <= k < i ==> InitialSetOK(name, nameservers, extra[k])
        invariant AddSets(sets, extra[i..]) == AddSets(BaseSets(name, nameservers), extra)
      {
        if !InitialSetOK(name, nameservers, extra[i]) {
          assert extra[i] in extra;
          return Err(Unprocessable);
        }
        assert extra[i..][1..] == extra[i + 1..];
        sets := ReplaceInPlace(sets, extra[i]);
        i := i + 1;
      }
      zones := zones[name := ServerZone(name, kind, masters, dnssec, account, 1, sets)];
      r := Ok(name);
    }

    method UpdateZoneMetadata(id: string, kind: Kind, masters: seq<string>, dnssec: bool, account: string)
      returns (err: Option<Error>)
      modifies this`faults, this`zones
      ensures old(Clean()) ==> Clean()
      ensures err.None? ==>
                && id in old(zones)
                && var z := old(zones)[id];
                   zones == old(zones)[id := z.(kind := kind, masters := masters, dnssec := dnssec,
                                                account := if account == "" then z.account else account)]
      ensures err.Some? ==>
                && zones == old(zones)
                && ((err.value.Unavailable? && !old(Clean())) || (err.value.ServerNotFound? && id !in zones))
    {
      var fail := Begin();
      if fail { return Some(Unavailable); }
      if id !in zones { return Some(ServerNotFound); }
      var z := zones[id];
      zones := zones[id := z.(kind := kind, masters := masters, dnssec := dnssec,
                              account := if account == "" then z.account else account)];
      err := None;
    }

    method DeleteZone(id: string) returns (err: Option<Error>)
      modifies this`faults, this`zones
      ensures old(Clean()) ==> Clean()
      ensures err.None? ==> id in old(zones) && zones == old(zones) - {id}
      ensures err.Some? ==>
                && zones == old(zones)
                && ((err.value.Unavailable? && !old(Clean())) || (err.value.ServerNotFound? && id !in zones))
    {
      var fail := Begin();
      if fail { return Some(Unavailable); }
      if id !in zones { return Some(ServerNotFound); }
      zones := zones - {id};
      err := None;
    }

    method PatchRRsets(id: string, cs: seq<Change>) returns (err: Option<Error>)
      modifies this`faults, this`zones
      ensures old(Clean()) ==> Clean()
      ensures err.None? ==>
                && !down && id in old(zones)
                && var z := old(zones)[id];
                   && ChangesOK(cs, z.name)
                   && zones == old(zones)[id := z.(rrsets := PatchAll(z.rrsets, cs), serial := z.serial + 1)]
      ensures err.Some? ==>
                && zones == old(zones)
                && ((err.value.Unavailable? && !old(Clean()))
                    || (err.value.ServerNotFound? && id !in zones)
                    || (err.value.Unprocessable? && id in zones && !ChangesOK(cs, zones[id].name)))
    {
      var fail := Begin();
      if fail { return Some(Unavailable); }
      if id !in zones { return Some(ServerNotFound); }
      var z := zones[id];
      var i := 0;
      while i < |cs|
        invariant 0 <= i <= |cs|
        invariant forall k :: 0 <= k < i ==> ChangeOK(cs[k], z.name)
      {
        if !ChangeOK(cs[i], z.name) {
          assert cs[i] in cs;
          return Some(Unprocessable);
        }
        i := i + 1;
      }
      var sets := z.rrsets;
      i := 0;
      while i < |cs|
        invariant 0 <= i <= |cs|
        invariant PatchAll(sets, cs[i..]) == PatchAll(z.rrsets, cs)
      {
        assert cs[i..][1..] == cs[i + 1..];
        sets := Patch(sets, cs[i]);
        i := i + 1;
      }
      zones := zones[id := z.(rrsets := sets, serial := z.serial + 1)];
      err := None;
    }

    method ListZoneNames() returns (r: Result<set<string>>)
      modifies this`faults
      ensures old(Clean()) ==> Clean()
      ensures match r
              case Ok(names) => names == set id | id in zones :: zones[id].name
              case Err(e) => e.Unavailable? && !old(Clean())
    {
      var fail := Begin();
      if fail { return Err(Unavailable); }
      r := Ok(set id | id in zones :: zones[id].name);
    }

    method ListSupermasters() returns (r: Result<seq<Supermaster>>)
      modifies this`faults
      ensures old(Clean()) ==> Clean()
      ensures match r
              case Ok(all) => all == supermasters
              case Err(e) => e.Unavailable? && !old(Clean())
    {
      var fail := Begin();
      if fail { return Err(Unavailable); }
      r := Ok(supermasters);
    }

    method CreateSupermaster(s: Supermaster) returns (err: Option<Error>)
      modifies this`faults, this`supermasters
      ensures old(Clean()) ==> Clean()
      ensures err.None? ==> !Listed(old(supermasters), s.ip, s.nameserver) && supermasters == old(supermasters) + [s]
      ensures err.Some? ==>
                && supermasters == old(supermasters)
                && ((err.value.Unavailable? && !old(Clean())) ||
                    (err.value.ServerConflict? && Listed(supermasters, s.ip, s.nameserver)))
    {
      var fail := Begin();
      if fail { return Some(Unavailable); }
      if exists x :: x in supermasters && x.ip == s.ip && x.nameserver == s.nameserver { return Some(ServerConflict); }
      supermasters := supermasters + [s];
      err := None;
    }

    method DeleteSupermaster(ip: string, nameserver: string) returns (err: Option<Error>)
      modifies this`faults, this`supermasters
      ensures old(Clean()) ==> Clean()
      ensures err.None? ==>
                Listed(old(supermasters), ip, nameserver) && supermasters == Unlisted(old(supermasters), ip, nameserver)
      ensures err.Some? ==>
                && supermasters == old(supermasters)
                && ((err.value.Unavailable? && !old(Clean())) ||
                    (err.value.ServerNotFound? && !Listed(supermasters, ip, nameserver)))
    {
      var fail := Begin();
      if fail { return Some(Unavailable); }
      var found, rest := TakeFirst(supermasters, ip, nameserver);
      if !found { return Some(ServerNotFound); }
      supermasters := rest;
      err := None;
    }
  }
}
