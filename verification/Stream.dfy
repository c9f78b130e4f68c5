/** The event hub (internal/stream/hub.go, client.go): one stream of entries per tenant, fanned
out to the open connections of its users, with replay from the last id a client saw.

Every method is one critical section of the source, or a sequence of them: whatever order
replay and live dispatch interleave in, it is some order of these calls. */
module Stream {
  import opened Strings
  import opened Wrappers

  const CONN_BUFFER := 32
  const MAX_TARGETS := 1000

  // ----- ids and entries

  /** A stream id: milliseconds and sequence. */
  datatype Id = Id(ms: int, n: int)

  predicate Less(a: Id, b: Id) { a.ms < b.ms || (a.ms == b.ms && a.n < b.n) }

  datatype Entry = Entry(id: Id, to: string, typ: string, data: string)

  /** A delivered event; only the hub's own reset has no id. */
  datatype Event = Event(id: Option<Id>, typ: string, data: string)

  function EventOf(e: Entry): Event { Event(Some(e.id), e.typ, e.data) }

  const RESET := Event(None, "reset", "")

  // ----- recipients

  predicate TargetOK(u: string) { u != "" && ',' !in u && ' ' !in u && '\n' !in u }

  /** The recipients of an entry as its field holds them, or None when they are refused. */
  function TargetField(to: seq<string>, all: bool): Option<string> {
    if all == (|to| > 0) || |to| > MAX_TARGETS then None
    else if all then Some("*")
    else if exists u :: u in to && !TargetOK(u) then None
    else Some(Join(to, ","))
  }

  /** The loop over the recipients. */
  method Targets(to: string, user: string) returns (r: bool)
    ensures r == Addressed(to, user)
  {
    if to == "*" { return true; }
    var parts := Split(to, ',');
    var i := 0;
    while i < |parts|
      invariant 0 <= i <= |parts| && user !in parts[..i]
    {
      if parts[i] == user { return true; }
      i := i + 1;
    }
    assert parts[..i] == parts;
    r := false;
  }

  predicate Addressed(to: string, user: string) { to == "*" || user in Split(to, ',') }

  /** Joined and split recipients agree: an entry is for exactly the users it was published to,
  unless its only recipient is "*", which is for everyone. */
  lemma TargetsAgree(to: seq<string>, all: bool, user: string)
    requires TargetField(to, all).Some?
    ensures Addressed(TargetField(to, all).value, user) <==> all || to == ["*"] || user in to
  {
    if !all {
      assert forall u :: u in to ==> TargetOK(u);
      SplitJoin(to, ',');
      if Join(to, ",") == "*" {
        assert Split("*", ',') == ["*"] by { SplitOne("*", ','); }
      }
    }
  }

  // ----- one subscription

  datatype Sub = Sub(tenant: string, user: string, last: Option<Id>, closed: bool, queue: seq<Event>)

  /** Pushing an event: dropped when closed or already delivered; the last id moves before the
  send; a full buffer refuses. */
  function Pushed(s: Sub, ev: Event): (r: (Sub, bool, bool))
  {
    if s.closed || (ev.id.Some? && s.last.Some? && !Less(s.last.value, ev.id.value)) then (s, true, false)
    else
      var moved := if ev.id.Some? then s.(last := ev.id) else s;
      if |s.queue| < CONN_BUFFER then (moved.(queue := moved.queue + [ev]), true, true) else (moved, false, false)
  }

  ghost predicate Increasing(sent: seq<Event>) {
    forall i, j :: 0 <= i < j < |sent| && sent[i].id.Some? && sent[j].id.Some? ==>
      Less(sent[i].id.value, sent[j].id.value)
  }

  ghost predicate UpTo(sent: seq<Event>, last: Option<Id>) {
    forall i :: 0 <= i < |sent| && sent[i].id.Some? ==>
      last.Some? && (sent[i].id == last || Less(sent[i].id.value, last.value))
  }

  /** What was sent to a subscription: strictly increasing ids up to the last, the queue its end. */
  ghost predicate SentOK(s: Sub, sent: seq<Event>) {
    && Increasing(sent) && UpTo(sent, s.last) && |s.queue| <= CONN_BUFFER
    && |s.queue| <= |sent| && sent[|sent| - |s.queue|..] == s.queue
  }

  lemma PushKeepsSent(s: Sub, sent: seq<Event>, ev: Event)
    requires SentOK(s, sent)
    ensures var r := Pushed(s, ev);
            SentOK(r.0, if r.2 then sent + [ev] else sent) && r.0.tenant == s.tenant && r.0.user == s.user &&
            r.0.closed == s.closed
  {
    var r := Pushed(s, ev);
    if r.2 {
      var more := sent + [ev];
      assert more[|more| - |s.queue| - 1..] == sent[|sent| - |s.queue|..] + [ev];
    }
  }

  /** A subscription and what was sent to it, after any pushes in any order. */
  ghost function PushedAll(s: Sub, sent: seq<Event>, evs: seq<Event>): (Sub, seq<Event>)
    decreases |evs|
  {
    if evs == [] then (s, sent)
    else
      var r := Pushed(s, evs[0]);
      PushedAll(r.0, if r.2 then sent + [evs[0]] else sent, evs[1..])
  }

  /** Whatever order replay and dispatch push in: strictly increasing ids, each event at most
  once, and nothing but what was pushed. */
  lemma {:induction false} AnyOrder(s: Sub, sent: seq<Event>, evs: seq<Event>)
    requires SentOK(s, sent)
    ensures var out := PushedAll(s, sent, evs).1;
            sent <= out && Increasing(out) && forall e :: e in out ==> e in sent || e in evs
    decreases |evs|
  {
    hide Pushed, UpTo, Increasing;
    if evs != [] {
      var r := Pushed(s, evs[0]);
      var more := if r.2 then sent + [evs[0]] else sent;
      PushKeepsSent(s, sent, evs[0]);
      AnyOrder(r.0, more, evs[1..]);
      assert evs == [evs[0]] + evs[1..];
    }
  }

  lemma {:induction false} PushedThen(s: Sub, sent: seq<Event>, evs: seq<Event>, ev: Event)
    ensures var p := PushedAll(s, sent, evs);
            var r := Pushed(p.0, ev);
            PushedAll(s, sent, evs + [ev]) == (r.0, if r.2 then p.1 + [ev] else p.1)
    decreases |evs|
  {
    hide Pushed;
    if evs == [] {
      assert (evs + [ev])[1..] == [];
    } else {
      var r := Pushed(s, evs[0]);
      PushedThen(r.0, if r.2 then sent + [evs[0]] else sent, evs[1..], ev);
      assert (evs + [ev])[1..] == evs[1..] + [ev];
    }
  }

  lemma AtMostOnce(sent: seq<Event>, i: nat, j: nat)
    requires Increasing(sent) && i < j < |sent| && sent[i].id.Some?
    ensures sent[i] != sent[j]
  {
  }

  // ----- when everything pushed arrives

  /** Ids that increase from the last one on. */
  ghost predicate Ascending(last: Option<Id>, evs: seq<Event>) {
    && (forall i :: 0 <= i < |evs| ==> evs[i].id.Some?)
    && (last.Some? ==> forall i :: 0 <= i < |evs| ==> Less(last.value, evs[i].id.value))
    && (forall i, j :: 0 <= i < j < |evs| ==> Less(evs[i].id.value, evs[j].id.value))
  }

  lemma {:induction false} SentAtMost(s: Sub, sent: seq<Event>, evs: seq<Event>)
    ensures |PushedAll(s, sent, evs).1| <= |sent| + |evs|
    decreases |evs|
  {
    hide Pushed;
    if evs != [] {
      var r := Pushed(s, evs[0]);
      SentAtMost(r.0, if r.2 then sent + [evs[0]] else sent, evs[1..]);
    }
  }

  lemma AscendingCons(last: Option<Id>, evs: seq<Event>)
    requires evs != [] && evs[0].id.Some?
    ensures Ascending(last, evs) <==>
              (last.Some? ==> Less(last.value, evs[0].id.value)) && Ascending(evs[0].id, evs[1..])
  {
    if (last.Some? ==> Less(last.value, evs[0].id.value)) && Ascending(evs[0].id, evs[1..]) {
      forall i | 0 < i < |evs| ensures evs[i].id.Some? && Less(evs[0].id.value, evs[i].id.value) {
        assert evs[i] == evs[1..][i - 1];
      }
      forall i, j | 0 <= i < j < |evs| ensures Less(evs[i].id.value, evs[j].id.value) {
        if i > 0 { assert evs[i] == evs[1..][i - 1] && evs[j] == evs[1..][j - 1]; }
      }
    }
  }

  /** Of events with ids pushed in one go all arrive exactly when the subscription is open, their
  ids increase from its last one on, and they fit in the room its queue has. */
  lemma {:induction false} AllArrive(s: Sub, sent: seq<Event>, evs: seq<Event>)
    requires forall i :: 0 <= i < |evs| ==> evs[i].id.Some?
    ensures PushedAll(s, sent, evs).1 == sent + evs <==>
            evs == [] || (!s.closed && Ascending(s.last, evs) && |s.queue| + |evs| <= CONN_BUFFER)
    decreases |evs|
  {
    hide Ascending, Less;
    if evs == [] {
      assert sent + evs == sent;
    } else {
      var r := Pushed(s, evs[0]);
      var more := if r.2 then sent + [evs[0]] else sent;
      assert evs[0].id.Some?;
      AscendingCons(s.last, evs);
      SentAtMost(r.0, more, evs[1..]);
      AllArrive(r.0, more, evs[1..]);
      NothingAscends(evs[0].id);
      if r.2 { assert more + evs[1..] == sent + evs; }
    }
  }

  lemma NothingAscends(last: Option<Id>)
    ensures Ascending(last, [])
  {
  }

  /** How many of the events the queue has room for. */
  function Fit(s: Sub, evs: seq<Event>): (n: nat)
    requires |s.queue| <= CONN_BUFFER
    ensures n <= |evs|
  {
    if |s.queue| + |evs| <= CONN_BUFFER then |evs| else CONN_BUFFER - |s.queue|
  }

  /** Of ascending events exactly the first ones that fit arrive, and the last id moves past the
  others all the same. */
  lemma {:induction false} FirstArrive(s: Sub, sent: seq<Event>, evs: seq<Event>)
    requires !s.closed && |s.queue| <= CONN_BUFFER && Ascending(s.last, evs)
    ensures var r := PushedAll(s, sent, evs);
            r.1 == sent + evs[..Fit(s, evs)] && r.0.last == if evs == [] then s.last else evs[|evs| - 1].id
    decreases |evs|
  {
    hide Ascending, Less;
    if evs == [] {
      assert sent + evs[..0] == sent;
    } else {
      var r := Pushed(s, evs[0]);
      AscendingFirst(s.last, evs);
      AscendingCons(s.last, evs);
      FirstArrive(r.0, if r.2 then sent + [evs[0]] else sent, evs[1..]);
      var n := Fit(s, evs);
      if r.2 {
        assert sent + [evs[0]] + evs[1..][..n - 1] == sent + evs[..n];
      }
    }
  }

  lemma AscendingFirst(last: Option<Id>, evs: seq<Event>)
    requires Ascending(last, evs) && evs != []
    ensures evs[0].id.Some? && (last.Some? ==> Less(last.value, evs[0].id.value))
  {
  }

  lemma NotAbove(evs: seq<Event>, last: Option<Id>, i: nat)
    requires Ascending(last, evs) && i < |evs|
    ensures evs[i].id.Some? && evs[|evs| - 1].id.Some? && !Less(evs[|evs| - 1].id.value, evs[i].id.value)
  {
  }

  /** Ascending entries replayed into a queue without room for all: exactly the first ones that fit
  arrive, and being behind the last id the others stay lost, even pushed again after the reader
  caught up. */
  lemma ReplaySkips(s: Sub, sent: seq<Event>, evs: seq<Event>)
    requires !s.closed && |s.queue| <= CONN_BUFFER < |s.queue| + |evs| && Ascending(s.last, evs)
    ensures var r := PushedAll(s, sent, evs);
            && r.1 == sent + evs[..CONN_BUFFER - |s.queue|]
            && forall i :: 0 <= i < |evs| ==> !Pushed(r.0.(queue := []), evs[i]).2
  {
    hide Ascending, Less, PushedAll;
    FirstArrive(s, sent, evs);
    var r := PushedAll(s, sent, evs);
    forall i | 0 <= i < |evs| ensures !Pushed(r.0.(queue := []), evs[i]).2 { NotAbove(evs, s.last, i); }
  }

  /** Such a burst: one entry a millisecond, one more than the buffer holds. */
  lemma BurstSkips()
    ensures var evs := seq(CONN_BUFFER + 1, i => Event(Some(Id(i, 0)), "", ""));
            PushedAll(Sub("t", "u", None, false, []), [], evs).1 == evs[..CONN_BUFFER]
  {
    hide PushedAll;
    var evs := seq(CONN_BUFFER + 1, i => Event(Some(Id(i, 0)), "", ""));
    ReplaySkips(Sub("t", "u", None, false, []), [], evs);
  }

  // ----- the hub's books

  datatype Tenant = Tenant(conns: set<nat>, byUser: map<string, nat>)

  ghost function OpenOf(subs: map<nat, Sub>, tenant: string): set<nat> {
    set s | s in subs && !subs[s].closed && subs[s].tenant == tenant
  }

  ghost function UserConns(subs: map<nat, Sub>, conns: set<nat>, user: string): set<nat> {
    set s | s in conns && s in subs && subs[s].user == user
  }

  /** The counts match the open connections, within the limits, and no entry is empty. */
  ghost predicate TenantOK(subs: map<nat, Sub>, tenant: string, t: Tenant, perUser: nat, perTenant: nat) {
    && t.conns == OpenOf(subs, tenant) && t.conns != {} && |t.conns| <= perTenant
    && (forall u :: u in t.byUser ==> t.byUser[u] == |UserConns(subs, t.conns, u)| && 1 <= t.byUser[u] <= perUser)
    && (forall s :: s in t.conns ==> subs[s].user in t.byUser)
  }

  ghost predicate BooksOK(subs: map<nat, Sub>, tenants: map<string, Tenant>, perUser: nat, perTenant: nat) {
    && (forall t :: t in tenants ==> TenantOK(subs, t, tenants[t], perUser, perTenant))
    && (forall s :: s in subs && !subs[s].closed ==> subs[s].tenant in tenants)
  }

  // what each change does to the sets counted

  lemma OpenAdded(subs: map<nat, Sub>, k: nat, s: Sub)
    requires k !in subs && !s.closed
    ensures OpenOf(subs[k := s], s.tenant) == OpenOf(subs, s.tenant) + {k} && k !in OpenOf(subs, s.tenant)
  {
  }

  lemma UserAdded(subs: map<nat, Sub>, k: nat, s: Sub, conns: set<nat>, user: string)
    requires k !in subs && k !in conns
    ensures |UserConns(subs[k := s], conns + {k}, user)| ==
            |UserConns(subs, conns, user)| + if user == s.user then 1 else 0
  {
    assert UserConns(subs[k := s], conns + {k}, user) ==
           UserConns(subs, conns, user) + if user == s.user then {k} else {};
  }

  lemma OpenDropped(subs: map<nat, Sub>, k: nat, s: Sub)
    requires k in subs && !subs[k].closed && s.tenant == subs[k].tenant && s.closed
    ensures OpenOf(subs[k := s], s.tenant) == OpenOf(subs, s.tenant) - {k} && k in OpenOf(subs, s.tenant)
  {
  }

  lemma UserDropped(subs: map<nat, Sub>, k: nat, s: Sub, conns: set<nat>, user: string)
    requires k in subs && k in conns && s.user == subs[k].user
    ensures |UserConns(subs[k := s], conns - {k}, user)| ==
            |UserConns(subs, conns, user)| - if user == s.user then 1 else 0
    ensures user == s.user ==> |UserConns(subs, conns, user)| >= 1
  {
    var a, b := UserConns(subs, conns, user), UserConns(subs[k := s], conns - {k}, user);
    if user == s.user {
      assert k in a && b == a - {k};
    } else {
      assert b == a;
    }
  }

  lemma OpenElsewhere(subs: map<nat, Sub>, k: nat, s: Sub, tenant: string)
    requires s.tenant != tenant && (k in subs ==> subs[k].tenant != tenant)
    ensures OpenOf(subs[k := s], tenant) == OpenOf(subs, tenant) && k !in OpenOf(subs, tenant)
  {
  }

  lemma UserElsewhere(subs: map<nat, Sub>, k: nat, s: Sub, conns: set<nat>, user: string)
    requires k !in conns || (k in subs && s.user == subs[k].user)
    ensures UserConns(subs[k := s], conns, user) == UserConns(subs, conns, user)
  {
  }

  lemma OpenSame(subs: map<nat, Sub>, k: nat, s: Sub, tenant: string)
    requires k in subs && s.tenant == subs[k].tenant && s.closed == subs[k].closed
    ensures OpenOf(subs[k := s], tenant) == OpenOf(subs, tenant)
  {
  }

  lemma OpenIn(subs: map<nat, Sub>, tenant: string, s: nat)
    ensures s in OpenOf(subs, tenant) <==> s in subs && !subs[s].closed && subs[s].tenant == tenant
  {
  }

  lemma UserIn(subs: map<nat, Sub>, conns: set<nat>, user: string, s: nat)
    requires s in conns && s in subs && subs[s].user == user
    ensures |UserConns(subs, conns, user)| >= 1
  {
    assert s in UserConns(subs, conns, user);
  }

  // ----- what keeps the books

  lemma TenantSame(subs: map<nat, Sub>, k: nat, s: Sub, tenant: string, t: Tenant, perUser: nat, perTenant: nat)
    requires TenantOK(subs, tenant, t, perUser, perTenant) && k in subs
    requires s.tenant == subs[k].tenant && s.user == subs[k].user && s.closed == subs[k].closed
    ensures TenantOK(subs[k := s], tenant, t, perUser, perTenant)
  {
    hide OpenOf, UserConns;
    OpenSame(subs, k, s, tenant);
    forall u ensures UserConns(subs[k := s], t.conns, u) == UserConns(subs, t.conns, u) {
      UserElsewhere(subs, k, s, t.conns, u);
    }
    forall x | x in t.conns ensures x in subs { OpenIn(subs, tenant, x); }
  }

  /** A change that keeps who a subscription belongs to and whether it is open keeps the books. */
  lemma BooksSame(subs: map<nat, Sub>, k: nat, s: Sub, tenants: map<string, Tenant>, perUser: nat, perTenant: nat)
    requires BooksOK(subs, tenants, perUser, perTenant) && k in subs
    requires s.tenant == subs[k].tenant && s.user == subs[k].user && s.closed == subs[k].closed
    ensures BooksOK(subs[k := s], tenants, perUser, perTenant)
  {
    hide TenantOK;
    forall t | t in tenants ensures TenantOK(subs[k := s], t, tenants[t], perUser, perTenant) {
      TenantSame(subs, k, s, t, tenants[t], perUser, perTenant);
    }
  }

  lemma TenantElsewhere(subs: map<nat, Sub>, k: nat, s: Sub, tenant: string, t: Tenant, perUser: nat, perTenant: nat)
    requires TenantOK(subs, tenant, t, perUser, perTenant) && s.tenant != tenant &&
             (k in subs ==> subs[k].tenant != tenant)
    ensures TenantOK(subs[k := s], tenant, t, perUser, perTenant)
  {
    hide OpenOf, UserConns;
    OpenElsewhere(subs, k, s, tenant);
    forall u ensures UserConns(subs[k := s], t.conns, u) == UserConns(subs, t.conns, u) {
      UserElsewhere(subs, k, s, t.conns, u);
    }
    forall x | x in t.conns ensures x in subs && x != k { OpenIn(subs, tenant, x); }
  }

  function Count(t: Tenant, user: string): nat { if user in t.byUser then t.byUser[user] else 0 }

  /** What the books say before a connection opens, also when the tenant has none. */
  ghost predicate CountsOK(subs: map<nat, Sub>, tenant: string, t: Tenant) {
    t.conns == OpenOf(subs, tenant) && forall u :: Count(t, u) == |UserConns(subs, t.conns, u)|
  }

  lemma CountsOf(subs: map<nat, Sub>, tenant: string, t: Tenant, perUser: nat, perTenant: nat)
    requires TenantOK(subs, tenant, t, perUser, perTenant)
    ensures CountsOK(subs, tenant, t) && forall u :: Count(t, u) <= perUser
  {
    forall u ensures Count(t, u) == |UserConns(subs, t.conns, u)| {
      if u !in t.byUser { assert UserConns(subs, t.conns, u) == {}; }
    }
  }

  lemma CountsNone(subs: map<nat, Sub>, tenants: map<string, Tenant>, tenant: string, perUser: nat, perTenant: nat)
    requires BooksOK(subs, tenants, perUser, perTenant) && tenant !in tenants
    ensures CountsOK(subs, tenant, Tenant({}, map[]))
  {
    hide TenantOK;
    assert OpenOf(subs, tenant) == {};
    forall u ensures UserConns(subs, {}, u) == {} {}
  }

  lemma TenantOpened(subs: map<nat, Sub>, k: nat, s: Sub, t: Tenant, perUser: nat, perTenant: nat)
    requires CountsOK(subs, s.tenant, t) && k !in subs && !s.closed
    requires |t.conns| < perTenant && Count(t, s.user) < perUser && (forall u :: Count(t, u) <= perUser)
    requires forall u :: u in t.byUser ==> t.byUser[u] >= 1
    ensures TenantOK(subs[k := s], s.tenant, Tenant(t.conns + {k}, t.byUser[s.user := Count(t, s.user) + 1]), perUser,
                     perTenant)
  {
    hide OpenOf, UserConns;
    var now, t2 := subs[k := s], Tenant(t.conns + {k}, t.byUser[s.user := Count(t, s.user) + 1]);
    OpenAdded(subs, k, s);
    forall u | u in t2.byUser ensures t2.byUser[u] == |UserConns(now, t2.conns, u)| && 1 <= t2.byUser[u] <= perUser {
      UserAdded(subs, k, s, t.conns, u);
      assert Count(t, u) <= perUser;
    }
    forall x | x in t2.conns ensures x in now && now[x].user in t2.byUser {
      OpenIn(now, s.tenant, x);
      if x != k {
        UserIn(subs, t.conns, subs[x].user, x);
        assert Count(t, subs[x].user) >= 1;
      }
    }
  }

  /** A new connection, counted. */
  lemma BooksOpened(subs: map<nat, Sub>, k: nat, s: Sub, tenants: map<string, Tenant>, t: Tenant, perUser: nat,
                    perTenant: nat)
    requires BooksOK(subs, tenants, perUser, perTenant) && k !in subs && !s.closed
    requires t == if s.tenant in tenants then tenants[s.tenant] else Tenant({}, map[])
    requires |t.conns| < perTenant && Count(t, s.user) < perUser
    ensures BooksOK(subs[k := s], tenants[s.tenant := Tenant(t.conns + {k}, t.byUser[s.user := Count(t, s.user) + 1])],
                    perUser, perTenant)
  {
    hide TenantOK, CountsOK;
    if s.tenant in tenants {
      CountsOf(subs, s.tenant, t, perUser, perTenant);
      Positive(subs, s.tenant, t, perUser, perTenant);
    } else {
      CountsNone(subs, tenants, s.tenant, perUser, perTenant);
    }
    TenantOpened(subs, k, s, t, perUser, perTenant);
    forall x | x in tenants && x != s.tenant ensures TenantOK(subs[k := s], x, tenants[x], perUser, perTenant) {
      TenantElsewhere(subs, k, s, x, tenants[x], perUser, perTenant);
    }
  }

  lemma Positive(subs: map<nat, Sub>, tenant: string, t: Tenant, perUser: nat, perTenant: nat)
    requires TenantOK(subs, tenant, t, perUser, perTenant)
    ensures forall u :: u in t.byUser ==> t.byUser[u] >= 1
  {
    hide OpenOf, UserConns;
  }

  /** A tenant's entry without a connection: the last one of a user takes the count away. */
  function Left(t: Tenant, k: nat, user: string): Tenant {
    var n := Count(t, user);
    Tenant(t.conns - {k}, if n <= 1 then t.byUser - {user} else t.byUser[user := n - 1])
  }

  /** The books without a connection: the last one of a tenant takes the entry away. */
  function Without(tenants: map<string, Tenant>, k: nat, s: Sub): map<string, Tenant> {
    if s.tenant !in tenants then tenants
    else
      var left := Left(tenants[s.tenant], k, s.user);
      if left.conns == {} then tenants - {s.tenant} else tenants[s.tenant := left]
  }

  lemma TenantClosed(subs: map<nat, Sub>, k: nat, s: Sub, t: Tenant, perUser: nat, perTenant: nat)
    requires k in subs && !subs[k].closed && s == subs[k].(closed := true) &&
             TenantOK(subs, s.tenant, t, perUser, perTenant)
    ensures Left(t, k, s.user).conns == OpenOf(subs[k := s], s.tenant)
    ensures Left(t, k, s.user).conns != {} ==> TenantOK(subs[k := s], s.tenant, Left(t, k, s.user), perUser, perTenant)
  {
    hide OpenOf, UserConns;
    var now, left := subs[k := s], Left(t, k, s.user);
    OpenDropped(subs, k, s);
    CountsOf(subs, s.tenant, t, perUser, perTenant);
    Smaller(t.conns, k);
    forall u | u in left.byUser
      ensures left.byUser[u] == |UserConns(now, left.conns, u)| && 1 <= left.byUser[u] <= perUser
    {
      UserDropped(subs, k, s, t.conns, u);
      assert Count(t, u) <= perUser;
    }
    forall x | x in left.conns ensures x in now && now[x].user in left.byUser {
      OpenIn(now, s.tenant, x);
      UserDropped(subs, k, s, t.conns, s.user);
      if now[x].user == s.user { UserIn(now, left.conns, s.user, x); }
    }
  }

  lemma Smaller(a: set<nat>, k: nat)
    requires k in a
    ensures |a - {k}| == |a| - 1
  {
  }

  lemma BooksClosed(subs: map<nat, Sub>, k: nat, tenants: map<string, Tenant>, perUser: nat, perTenant: nat)
    requires BooksOK(subs, tenants, perUser, perTenant) && k in subs && !subs[k].closed
    ensures BooksOK(subs[k := subs[k].(closed := true)], Without(tenants, k, subs[k]), perUser, perTenant)
  {
    hide TenantOK, OpenOf, Left;
    var s := subs[k].(closed := true);
    var now := subs[k := s];
    TenantClosed(subs, k, s, tenants[s.tenant], perUser, perTenant);
    forall x | x in tenants && x != s.tenant ensures TenantOK(now, x, tenants[x], perUser, perTenant) {
      TenantElsewhere(subs, k, s, x, tenants[x], perUser, perTenant);
    }
    forall x | x in now && !now[x].closed && now[x].tenant == s.tenant ensures x in OpenOf(now, s.tenant) {
      OpenIn(now, s.tenant, x);
    }
  }

  // ----- reading a stream

  /** The entries after an id, in stream order. */
  function Later(entries: seq<Entry>, id: Id): seq<Entry> {
    if entries == [] then []
    else
      Later(entries[..|entries| - 1], id) + if Less(id, entries[|entries| - 1].id) then [entries[|entries| - 1]] else []
  }

  function FirstOf(entries: seq<Entry>, count: nat): seq<Entry> {
    if count > 0 && |entries| > count then entries[..count] else entries
  }

  lemma {:induction false} LaterGrows(entries: seq<Entry>, id: Id, i: nat)
    requires i <= |entries|
    ensures Later(entries[..i], id) <= Later(entries, id)
  {
    if i == |entries| {
      assert entries[..i] == entries;
    } else {
      var n := |entries| - 1;
      LaterGrows(entries[..n], id, i);
      assert entries[..n][..i] == entries[..i];
    }
  }

  lemma {:induction false} LaterMembers(entries: seq<Entry>, id: Id)
    ensures forall e :: e in Later(entries, id) <==> e in entries && Less(id, e.id)
  {
    if entries != [] {
      var n := |entries| - 1;
      LaterMembers(entries[..n], id);
      assert entries == entries[..n] + [entries[n]];
    }
  }

  /** The entries after an id, at most `count` of them (all when it is 0). */
  method After(entries: seq<Entry>, id: Id, count: nat) returns (out: seq<Entry>)
    ensures out == FirstOf(Later(entries, id), count)
  {
    out := [];
    var i := 0;
    while i < |entries|
      invariant 0 <= i <= |entries| && (count > 0 ==> |out| < count)
      invariant out == Later(entries[..i], id)
    {
      assert entries[..i + 1][..i] == entries[..i];
      if Less(id, entries[i].id) {
        out := out + [entries[i]];
        if count > 0 && |out| == count {
          LaterGrows(entries, id, i + 1);
          return;
        }
      }
      i := i + 1;
    }
    assert entries[..i] == entries;
  }

  /** The events of the entries addressed to a user. */
  function EventsFor(entries: seq<Entry>, user: string): seq<Event> {
    if entries == [] then []
    else EventsFor(entries[..|entries| - 1], user) +
         if Addressed(entries[|entries| - 1].to, user) then [EventOf(entries[|entries| - 1])] else []
  }

  /** What a client that last saw `lastId` is sent on reconnecting. */
  function Replayed(stream: seq<Entry>, user: string, lastId: Option<Id>, oldest: int, readable: bool,
                    maxLen: nat): seq<Event> {
    if lastId.None? || lastId.value.ms < oldest || !readable then [RESET]
    else EventsFor(FirstOf(Later(stream, lastId.value), maxLen), user)
  }

  // ----- the hub

  /** Every event sent to a subscription is an entry of its tenant addressed to its user, or a reset. */
  ghost predicate ForUser(s: Sub, sent: seq<Event>, published: map<string, set<Entry>>) {
    forall ev :: ev in sent ==>
      ev == RESET || exists e :: PublishedTo(published, s.tenant, s.user, e) && ev == EventOf(e)
  }

  ghost predicate PublishedTo(published: map<string, set<Entry>>, tenant: string, user: string, e: Entry) {
    tenant in published && e in published[tenant] && Addressed(e.to, user)
  }

  ghost predicate DeliveriesOK(subs: map<nat, Sub>, sent: map<nat, seq<Event>>, published: map<string, set<Entry>>) {
    && sent.Keys == subs.Keys
    && forall k :: k in subs ==> SentOK(subs[k], sent[k]) && ForUser(subs[k], sent[k], published)
  }

  class Hub {
    const perUser: nat
    const perTenant: nat
    var stopped: bool
    var subs: map<nat, Sub>
    var tenants: map<string, Tenant>
    /** Everything ever queued for each subscription, and every entry ever published. */
    ghost var sent: map<nat, seq<Event>>
    ghost var published: map<string, set<Entry>>

    constructor (perUser: nat, perTenant: nat)
      requires perUser >= 1 && perTenant >= 1
      ensures Valid() && subs == map[] && tenants == map[] && !stopped
    {
      this.perUser, this.perTenant, stopped := perUser, perTenant, false;
      subs, tenants, sent, published := map[], map[], map[], map[];
    }

    ghost predicate Valid() reads this {
      && perUser >= 1 && perTenant >= 1
      && BooksOK(subs, tenants, perUser, perTenant) && DeliveriesOK(subs, sent, published)
    }

    /** An entry is appended to the tenant's stream. */
    ghost method Publish(tenant: string, e: Entry)
      requires Valid()
      modifies this`published
      ensures Valid()
      ensures published ==
              old(published)[tenant := (if tenant in old(published) then old(published)[tenant] else {}) + {e}]
    {
      hide BooksOK, SentOK;
      published := published[tenant := (if tenant in published then published[tenant] else {}) + {e}];
      forall k | k in subs ensures ForUser(subs[k], sent[k], published) {
        forall ev | ev in sent[k] && ev != RESET
          ensures exists x :: PublishedTo(published, subs[k].tenant, subs[k].user, x) && ev == EventOf(x)
        {
          var x :| PublishedTo(old(published), subs[k].tenant, subs[k].user, x) && ev == EventOf(x);
          assert PublishedTo(published, subs[k].tenant, subs[k].user, x);
        }
      }
    }

    /** Opens a connection, within the limits of its user and tenant. The first one of a tenant
    reads the tail of the tenant's stream, which fails unless `tail`. */
    method Open(k: nat, tenant: string, user: string, tail: bool) returns (r: Option<nat>)
      requires Valid() && k !in subs
      modifies this`subs, this`tenants, this`sent
      ensures Valid()
      ensures r.Some? ==>
                r.value == k && subs == old(subs)[k := Sub(tenant, user, None, false, [])] && sent == old(sent)[k := []]
      ensures r.None? ==> subs == old(subs) && tenants == old(tenants) && sent == old(sent)
      // refused exactly by a stopped hub, an unreadable stream, or at a limit
      ensures r.None? <==>
                || stopped || (OpenOf(old(subs), tenant) == {} && !tail)
                || |OpenOf(old(subs), tenant)| >= perTenant
                || |UserConns(old(subs), OpenOf(old(subs), tenant), user)| >= perUser
    {
      hide BooksOK, DeliveriesOK, OpenOf, UserConns, Count;
      var t := if tenant in tenants then tenants[tenant] else Tenant({}, map[]);
      CountsNow(subs, tenants, tenant, t, user, perUser, perTenant);
      EmptyTenant(subs, tenants, tenant, perUser, perTenant);
      if stopped || (tenant !in tenants && !tail) { return None; }
      if Count(t, user) >= perUser || |t.conns| >= perTenant { return None; }
      var s := Sub(tenant, user, None, false, []);
      BooksOpened(subs, k, s, tenants, t, perUser, perTenant);
      DeliveriesOpened(subs, sent, published, k, s);
      tenants := tenants[tenant := Tenant(t.conns + {k}, t.byUser[user := Count(t, user) + 1])];
      subs, sent := subs[k := s], sent[k := []];
      r := Some(k);
    }

    /** Queues an event for one subscription: false when its buffer is full. */
    method Push(k: nat, ev: Event) returns (ok: bool)
      requires Valid() && k in subs
      requires ev == RESET || exists e :: PublishedTo(published, subs[k].tenant, subs[k].user, e) && ev == EventOf(e)
      modifies this`subs, this`sent
      ensures Valid()
      ensures ok == Pushed(old(subs)[k], ev).1 && subs == old(subs)[k := Pushed(old(subs)[k], ev).0]
      ensures sent == old(sent)[k := if Pushed(old(subs)[k], ev).2 then old(sent)[k] + [ev] else old(sent)[k]]
    {
      hide BooksOK, SentOK, Pushed;
      var s := subs[k];
      var r := Pushed(s, ev);
      PushKeepsSent(s, sent[k], ev);
      BooksSame(subs, k, r.0, tenants, perUser, perTenant);
      ghost var more := if r.2 then sent[k] + [ev] else sent[k];
      assert ForUser(r.0, more, published);
      subs := subs[k := r.0];
      sent := sent[k := more];
      ok := r.1;
    }

    /** The reader takes the next event. */
    method Receive(k: nat) returns (ev: Option<Event>)
      requires Valid() && k in subs
      modifies this`subs
      ensures Valid()
      ensures ev.None? <==> old(subs)[k].queue == []
      ensures ev.None? ==> subs == old(subs)
      ensures ev.Some? ==>
                && ev.value == old(subs)[k].queue[0] && ev.value in sent[k]
                && subs == old(subs)[k := old(subs)[k].(queue := old(subs)[k].queue[1..])]
    {
      hide BooksOK, ForUser, SentOK;
      var s := subs[k];
      if s.queue == [] { return None; }
      BooksSame(subs, k, s.(queue := s.queue[1..]), tenants, perUser, perTenant);
      ReceivedSent(s, sent[k], published);
      subs := subs[k := s.(queue := s.queue[1..])];
      ev := Some(s.queue[0]);
    }

    /** Ends a subscription; idempotent. */
    method Close(k: nat)
      requires Valid() && k in subs
      modifies this`subs, this`tenants
      ensures Valid() && subs == old(subs)[k := old(subs)[k].(closed := true)]
    {
      hide BooksOK, TenantOK, SentOK, ForUser, Without;
      var s := subs[k];
      if s.closed { return; }
      BooksClosed(subs, k, tenants, perUser, perTenant);
      ClosedSent(s, sent[k], published);
      subs, tenants := subs[k := s.(closed := true)], Without(tenants, k, s);
    }

    /** Pushes the entries after the client's last id, or a reset when the id is unusable, older
    than the window, or the stream cannot be read. A full buffer is ignored here. */
    method Replay(k: nat, stream: seq<Entry>, lastId: Option<Id>, oldest: int, readable: bool, maxLen: nat)
      requires Valid() && k in subs && subs[k].tenant in published &&
               forall e :: e in stream ==> e in published[subs[k].tenant]
      modifies this`subs, this`sent
      ensures Valid()
      ensures var r := PushedAll(old(subs)[k], old(sent)[k],
                                 Replayed(stream, old(subs)[k].user, lastId, oldest, readable, maxLen));
              subs == old(subs)[k := r.0] && sent == old(sent)[k := r.1]
    {
      hide BooksOK, SentOK, ForUser, Pushed, Later, FirstOf, PushedAll, EventsFor, Addressed;
      var s0 := subs[k];
      ghost var sent0 := sent[k];
      NonePushed(s0, sent0, s0.user);
      if lastId.None? || lastId.value.ms < oldest || !readable {
        PushedThen(s0, sent0, [], RESET);
        assert [] + [RESET] == [RESET];
        var ok := Push(k, RESET);
        return;
      }
      var entries := After(stream, lastId.value, maxLen);
      FirstMembers(stream, lastId.value, maxLen);
      var i := 0;
      ghost var cur := (s0, sent0);
      while i < |entries|
        invariant 0 <= i <= |entries| && Valid()
        invariant cur == PushedAll(s0, sent0, EventsFor(entries[..i], s0.user))
        invariant subs == old(subs)[k := cur.0] && sent == old(sent)[k := cur.1]
      {
        var e := entries[i];
        ghost var evs := EventsFor(entries[..i], s0.user);
        assert e in entries;
        EventsNext(entries, i, s0.user);
        assert evs + [] == evs;
        PushedAllWho(s0, sent0, evs);
        var mine := Targets(e.to, s0.user);
        if mine {
          assert PublishedTo(published, subs[k].tenant, subs[k].user, e);
          PushedThen(s0, sent0, evs, EventOf(e));
          var ok := Push(k, EventOf(e));
          cur := PushedAll(s0, sent0, evs + [EventOf(e)]);
        }
        i := i + 1;
      }
      assert entries[..i] == entries;
    }

    /** One connection's share of a dispatch. */
    method Deliver(k: nat, e: Entry)
      requires Valid() && k in subs && subs[k].tenant in published && e in published[subs[k].tenant]
      modifies this`subs, this`sent, this`tenants
      ensures Valid()
      ensures subs == old(subs)[k := Dispatched(old(subs)[k], e)] && k in old(sent)
      ensures sent == old(sent)[k := DispatchedTo(old(subs)[k], old(sent)[k], e)]
    {
      hide BooksOK, DeliveriesOK, Pushed, Addressed;
      SameKeys(subs, sent, published);
      var mine := Targets(e.to, subs[k].user);
      if mine {
        assert PublishedTo(published, subs[k].tenant, subs[k].user, e);
        var ok := Push(k, EventOf(e));
        if !ok { Close(k); }
      }
    }

    /** Fans one entry out to the tenant's open connections it is addressed to; a stalled reader
    is closed. */
    method Dispatch(tenant: string, e: Entry)
      requires Valid() && tenant in published && e in published[tenant]
      modifies this`subs, this`sent, this`tenants
      ensures Valid() && Fanned(old(subs), old(sent), subs, sent, OpenOf(old(subs), tenant), e)
    {
      hide BooksOK, DeliveriesOK, Dispatched, DispatchedTo, OpenOf, Fanned;
      var todo := if tenant in tenants then tenants[tenant].conns else {};
      CountsNow(subs, tenants, tenant, if tenant in tenants then tenants[tenant] else Tenant({}, map[]), "", perUser,
                perTenant);
      ghost var all := todo;
      SameKeys(subs, sent, published);
      FannedNone(subs, sent, e);
      forall k | k in all ensures k in subs && subs[k].tenant == tenant { OpenIn(subs, tenant, k); }
      while todo != {}
        invariant Valid() && todo <= all && Fanned(old(subs), old(sent), subs, sent, all - todo, e)
      {
        var k :| k in todo;
        ghost var done := all - todo;
        ghost var subs1, sent1 := subs, sent;
        FannedAt(old(subs), old(sent), subs, sent, done, e, k);
        todo := todo - {k};
        Deliver(k, e);
        assert all - todo == done + {k};
        FannedNext(old(subs), old(sent), subs1, sent1, subs, sent, done, e, k);
      }
      assert all - todo == all;
    }

    /** Ends every connection; none is opened afterwards. */
    method Stop()
      requires Valid()
      modifies this`stopped, this`subs, this`tenants
      ensures Valid() && stopped && subs.Keys == old(subs).Keys && tenants == map[]
      ensures forall k :: k in subs ==> subs[k] == old(subs)[k].(closed := true)
    {
      hide BooksOK, DeliveriesOK;
      stopped := true;
      var todo := set k | k in subs && !subs[k].closed;
      ghost var all := todo;
      while todo != {}
        invariant Valid() && stopped && subs.Keys == old(subs).Keys && todo <= all <= subs.Keys
        invariant forall k :: k in subs ==>
                    subs[k] == if k in all - todo then old(subs)[k].(closed := true) else old(subs)[k]
      {
        var k :| k in todo;
        todo := todo - {k};
        Close(k);
      }
      NoTenants(subs, tenants, perUser, perTenant);
    }
  }

  lemma NothingSent(s: Sub, published: map<string, set<Entry>>)
    requires s.queue == []
    ensures SentOK(s, []) && ForUser(s, [], published)
  {
  }

  lemma DeliveriesOpened(subs: map<nat, Sub>, sent: map<nat, seq<Event>>, published: map<string, set<Entry>>, k: nat,
                         s: Sub)
    requires DeliveriesOK(subs, sent, published) && s.queue == [] && k !in subs
    ensures DeliveriesOK(subs[k := s], sent[k := []], published)
  {
    hide SentOK, ForUser;
    NothingSent(s, published);
  }

  lemma ReceivedSent(s: Sub, sent: seq<Event>, published: map<string, set<Entry>>)
    requires SentOK(s, sent) && ForUser(s, sent, published) && s.queue != []
    ensures SentOK(s.(queue := s.queue[1..]), sent) && ForUser(s.(queue := s.queue[1..]), sent, published) &&
            s.queue[0] in sent
  {
    assert s.queue[0] == sent[|sent| - |s.queue|];
    assert sent[|sent| - |s.queue| + 1..] == s.queue[1..];
  }

  lemma CountsNow(subs: map<nat, Sub>, tenants: map<string, Tenant>, tenant: string, t: Tenant, user: string,
                  perUser: nat, perTenant: nat)
    requires BooksOK(subs, tenants, perUser, perTenant) &&
             t == if tenant in tenants then tenants[tenant] else Tenant({}, map[])
    ensures t.conns == OpenOf(subs, tenant) && Count(t, user) == |UserConns(subs, t.conns, user)|
  {
    hide OpenOf, UserConns, TenantOK;
    if tenant in tenants {
      CountsOf(subs, tenant, t, perUser, perTenant);
    } else {
      CountsNone(subs, tenants, tenant, perUser, perTenant);
    }
  }

  lemma ClosedSent(s: Sub, sent: seq<Event>, published: map<string, set<Entry>>)
    requires SentOK(s, sent) && ForUser(s, sent, published)
    ensures SentOK(s.(closed := true), sent) && ForUser(s.(closed := true), sent, published)
  {
  }

  lemma SameKeys(subs: map<nat, Sub>, sent: map<nat, seq<Event>>, published: map<string, set<Entry>>)
    requires DeliveriesOK(subs, sent, published)
    ensures sent.Keys == subs.Keys
  {
  }

  lemma NoTenants(subs: map<nat, Sub>, tenants: map<string, Tenant>, perUser: nat, perTenant: nat)
    requires BooksOK(subs, tenants, perUser, perTenant) && forall k :: k in subs ==> subs[k].closed
    ensures tenants == map[]
  {
    forall t | t in tenants ensures false { EmptyTenant(subs, tenants, t, perUser, perTenant); }
  }

  lemma EmptyTenant(subs: map<nat, Sub>, tenants: map<string, Tenant>, tenant: string, perUser: nat, perTenant: nat)
    requires BooksOK(subs, tenants, perUser, perTenant)
    ensures tenant !in tenants <==> OpenOf(subs, tenant) == {}
  {
    if tenant !in tenants { CountsNone(subs, tenants, tenant, perUser, perTenant); }
  }

  /** An entry was fanned out to these connections, each of which has it after all that was sent to
  it before, if it was pushed; the others are as they were. */
  ghost predicate Fanned(subs0: map<nat, Sub>, sent0: map<nat, seq<Event>>, subs: map<nat, Sub>,
                         sent: map<nat, seq<Event>>, done: set<nat>, e: Entry) {
    && subs.Keys == subs0.Keys == sent.Keys == sent0.Keys
    && (forall k :: k in subs ==> subs[k] == if k in done then Dispatched(subs0[k], e) else subs0[k])
    && (forall k :: k in subs ==> sent[k] == if k in done then DispatchedTo(subs0[k], sent0[k], e) else sent0[k])
  }

  lemma FannedNone(subs: map<nat, Sub>, sent: map<nat, seq<Event>>, e: Entry)
    requires sent.Keys == subs.Keys
    ensures forall all: set<nat> :: Fanned(subs, sent, subs, sent, all - all, e)
  {
    hide Dispatched, DispatchedTo;
  }

  lemma FannedAt(subs0: map<nat, Sub>, sent0: map<nat, seq<Event>>, subs: map<nat, Sub>, sent: map<nat, seq<Event>>,
                 done: set<nat>, e: Entry, k: nat)
    requires Fanned(subs0, sent0, subs, sent, done, e) && k in subs0 && k !in done
    ensures k in subs && k in sent && k in sent0 && subs[k] == subs0[k] && sent[k] == sent0[k]
  {
    hide Dispatched, DispatchedTo;
  }

  lemma FannedNext(subs0: map<nat, Sub>, sent0: map<nat, seq<Event>>, subs1: map<nat, Sub>, sent1: map<nat, seq<Event>>,
                   subs2: map<nat, Sub>, sent2: map<nat, seq<Event>>, done: set<nat>, e: Entry, k: nat)
    requires Fanned(subs0, sent0, subs1, sent1, done, e) && k in subs1 && k in sent1 && k !in done
    requires subs2 == subs1[k := Dispatched(subs1[k], e)] && sent2 == sent1[k := DispatchedTo(subs1[k], sent1[k], e)]
    ensures Fanned(subs0, sent0, subs2, sent2, done + {k}, e)
  {
    hide Dispatched, DispatchedTo;
  }

  /** What was sent to a connection once an entry was dispatched. */
  function DispatchedTo(s: Sub, sent: seq<Event>, e: Entry): seq<Event> {
    if Addressed(e.to, s.user) && Pushed(s, EventOf(e)).2 then sent + [EventOf(e)] else sent
  }

  /** A connection after an entry was dispatched: pushed if addressed, closed if it was full. */
  function Dispatched(s: Sub, e: Entry): Sub {
    if !Addressed(e.to, s.user) then s
    else
      var r := Pushed(s, EventOf(e));
      if r.1 then r.0 else r.0.(closed := true)
  }

  /** The subscription is at the id or past it. */
  predicate Reached(s: Sub, id: Id) { s.last.Some? && !Less(s.last.value, id) }

  /** Whoever an entry is addressed to has it, had a later one already, or is closed. */
  lemma DispatchReaches(s: Sub, e: Entry)
    requires Addressed(e.to, s.user)
    ensures Dispatched(s, e).closed || Reached(Dispatched(s, e), e.id)
  {
  }

  lemma EventsNext(entries: seq<Entry>, i: nat, user: string)
    requires i < |entries|
    ensures EventsFor(entries[..i + 1], user) ==
            EventsFor(entries[..i], user) + if Addressed(entries[i].to, user) then [EventOf(entries[i])] else []
    ensures EventsFor(entries[..0], user) == []
  {
    assert entries[..i + 1][..i] == entries[..i];
  }

  lemma NonePushed(s: Sub, sent: seq<Event>, user: string)
    ensures PushedAll(s, sent, []) == (s, sent) && EventsFor([], user) == []
  {
  }

  lemma PushedWho(s: Sub, ev: Event)
    ensures var r := Pushed(s, ev).0; r.tenant == s.tenant && r.user == s.user && r.closed == s.closed
  {
  }

  lemma {:induction false} PushedAllWho(s: Sub, sent: seq<Event>, evs: seq<Event>)
    ensures var r := PushedAll(s, sent, evs).0; r.tenant == s.tenant && r.user == s.user
    decreases |evs|
  {
    hide Pushed;
    if evs != [] {
      var r := Pushed(s, evs[0]);
      PushedWho(s, evs[0]);
      PushedAllWho(r.0, if r.2 then sent + [evs[0]] else sent, evs[1..]);
    }
  }

  lemma FirstMembers(stream: seq<Entry>, id: Id, count: nat)
    ensures forall e :: e in FirstOf(Later(stream, id), count) ==> e in stream
  {
    LaterMembers(stream, id);
  }
}
