/** The configuration of the two DNS servers (internal/dnsconf): validation, the renderers of the
managed include files, and writing and restarting only what changed. */
module Config {
  import opened Strings
  import opened Names
  import opened Wrappers
  import opened ReverseNames

  const MAX_LIST := 32
  /** The first line of a managed file; the source has an em dash in it. */
  const HEADER := "# Managed by Freya DNS " + DASH + " do not edit by hand."
  const DASH := [0x2014 as char]

  datatype RecursorConf = RecursorConf(listen: seq<string>, port: int, allowed: seq<string>, upstream: seq<string>,
                                       mode: string, open: bool)
  datatype AuthConf = AuthConf(listen: seq<string>, port: int, peers: seq<string>)
  datatype Model = Model(rec: RecursorConf, auth: AuthConf)

  /** The address parsers: the canonical text of an address, network or resolver, or None. */
  datatype Parsers = Parsers(address: string -> Option<string>, network: string -> Option<string>,
                             resolver: string -> Option<string>)

  // ----- what may reach a file

  predicate AddrChar(c: char) {
    '0' <= c <= '9' || 'A' <= c <= 'F' || 'a' <= c <= 'f' || c == '.' || c == ':' || c == '/' || c == '[' || c == ']'
  }

  predicate SafeAddr(v: string) { 1 <= |v| <= 64 && forall i :: 0 <= i < |v| ==> AddrChar(v[i]) }

  predicate SafeMode(v: string) { v == "off" || v == "process" || v == "validate" }

  /** What the parsers are trusted for: canonical texts are made of address characters. */
  ghost predicate ParserLaws(p: Parsers) {
    && (forall s :: p.address(s).Some? ==> SafeAddr(p.address(s).value))
    && (forall s :: p.network(s).Some? ==> SafeAddr(p.network(s).value))
    && (forall s :: p.resolver(s).Some? ==> SafeAddr(p.resolver(s).value))
  }

  ghost predicate AllSafe(vs: seq<string>) { forall i :: 0 <= i < |vs| ==> SafeAddr(vs[i]) }

  ghost predicate SafeRecursor(r: RecursorConf) {
    r.listen != [] && AllSafe(r.listen) && AllSafe(r.allowed) && AllSafe(r.upstream) && SafeMode(r.mode) &&
    1 <= r.port <= 65535
  }

  ghost predicate SafeAuth(a: AuthConf) {
    a.listen != [] && AllSafe(a.listen) && AllSafe(a.peers) && 1 <= a.port <= 65535
  }

  // ----- validation

  /** The list that `out` is the canonical form of: every entry parses, none twice, not too many. */
  ghost predicate CanonicalOf(raw: seq<string>, required: bool, parse: string -> Option<string>, out: seq<string>) {
    && |out| == |raw| <= MAX_LIST && (required ==> raw != []) && Distinct(out)
    && forall i :: 0 <= i < |raw| ==> parse(Trim(raw[i])) == Some(out[i])
  }

  /** Every entry in canonical form; duplicates and long lists are refused. */
  method CanonicalList(raw: seq<string>, required: bool, parse: string -> Option<string>)
    returns (r: Result<seq<string>>)
    ensures r.Ok? ==> CanonicalOf(raw, required, parse, r.value)
    ensures r.Err? ==> forall out :: !CanonicalOf(raw, required, parse, out)
  {
    hide Trim;
    if |raw| > MAX_LIST || (required && raw == []) { return Err(InvalidInput); }
    var out: seq<string> := [];
    var i := 0;
    while i < |raw|
      invariant 0 <= i <= |raw| && |out| == i && Distinct(out)
      invariant forall j :: 0 <= j < i ==> parse(Trim(raw[j])) == Some(out[j])
    {
      var v := parse(Trim(raw[i]));
      if v.None? { return Err(InvalidInput); }
      if v.value in out {
        ghost var j :| 0 <= j < i && out[j] == v.value;
        TwiceListed(raw, required, parse, j, i);
        return Err(InvalidInput);
      }
      out := out + [v.value];
      i := i + 1;
    }
    r := Ok(out);
  }

  lemma TwiceListed(raw: seq<string>, required: bool, parse: string -> Option<string>, j: nat, i: nat)
    requires j < i < |raw| && parse(Trim(raw[j])) == parse(Trim(raw[i]))
    ensures forall out :: !CanonicalOf(raw, required, parse, out)
  {
    hide Trim;
    forall out ensures !CanonicalOf(raw, required, parse, out) {
      if |out| == |raw| && out[j] != out[i] {
        assert parse(Trim(raw[j])) != Some(out[j]) || parse(Trim(raw[i])) != Some(out[i]);
      }
    }
  }

  predicate OpenNetwork(n: string) { n == "0.0.0.0/0" || n == "::/0" }

  predicate Port(p: int) { 1 <= p <= 65535 }

  /** `v` is the canonical form of a valid model. An open resolver must be confirmed. */
  ghost predicate Canonicalised(p: Parsers, m: Model, v: Model) {
    && CanonicalOf(m.rec.listen, true, p.address, v.rec.listen) && Port(m.rec.port) && v.rec.port == m.rec.port
    && CanonicalOf(m.rec.allowed, false, p.network, v.rec.allowed)
    && CanonicalOf(m.rec.upstream, false, p.resolver, v.rec.upstream)
    && v.rec.mode == Lower(Trim(m.rec.mode)) && SafeMode(v.rec.mode) && v.rec.open == m.rec.open
    && ((exists n :: n in v.rec.allowed && OpenNetwork(n)) ==> m.rec.open)
    && CanonicalOf(m.auth.listen, true, p.address, v.auth.listen) && Port(m.auth.port) && v.auth.port == m.auth.port
    && CanonicalOf(m.auth.peers, false, p.network, v.auth.peers)
  }

  lemma CanonicalUnique(raw: seq<string>, required: bool, parse: string -> Option<string>, a: seq<string>,
                        b: seq<string>)
    requires CanonicalOf(raw, required, parse, a)
    ensures CanonicalOf(raw, required, parse, b) ==> a == b
  {
    hide Trim;
  }

  /** A canonical model's values may reach a file. */
  lemma CanonicalisedSafe(p: Parsers, m: Model, v: Model)
    requires ParserLaws(p) && Canonicalised(p, m, v)
    ensures SafeRecursor(v.rec) && SafeAuth(v.auth)
  {
    hide Trim, Lower, SafeAddr;
  }

  /** The canonical model, or an error when there is none. */
  method Validate(p: Parsers, m: Model) returns (r: Result<Model>)
    requires ParserLaws(p)
    ensures r.Ok? ==> Canonicalised(p, m, r.value) && SafeRecursor(r.value.rec) && SafeAuth(r.value.auth)
    ensures r.Err? ==> forall v :: !Canonicalised(p, m, v)
  {
    hide Trim, Lower, SafeAddr, CanonicalOf, SafeMode, ParserLaws;
    var listen := CanonicalList(m.rec.listen, true, p.address);
    if listen.Err? || !Port(m.rec.port) { return Err(InvalidInput); }
    var allowed := CanonicalList(m.rec.allowed, false, p.network);
    if allowed.Err? { return Err(InvalidInput); }
    if !m.rec.open && exists n :: n in allowed.value && OpenNetwork(n) {
      forall v ensures !Canonicalised(p, m, v) {
        CanonicalUnique(m.rec.allowed, false, p.network, allowed.value, v.rec.allowed);
      }
      return Err(InvalidInput);
    }
    var upstream := CanonicalList(m.rec.upstream, false, p.resolver);
    if upstream.Err? { return Err(InvalidInput); }
    var mode := Lower(Trim(m.rec.mode));
    if !SafeMode(mode) { return Err(InvalidInput); }
    var local := CanonicalList(m.auth.listen, true, p.address);
    if local.Err? || !Port(m.auth.port) { return Err(InvalidInput); }
    var peers := CanonicalList(m.auth.peers, false, p.network);
    if peers.Err? { return Err(InvalidInput); }
    r := Ok(Model(RecursorConf(listen.value, m.rec.port, allowed.value, upstream.value, mode, m.rec.open),
                  AuthConf(local.value, m.auth.port, peers.value)));
    CanonicalisedSafe(p, m, r.value);
  }

  // ----- the text of a file

  function Text(lines: seq<string>): string {
    if lines == [] then "" else lines[0] + "\n" + Text(lines[1..])
  }

  lemma {:induction false} TextAppend(a: seq<string>, b: seq<string>)
    ensures Text(a + b) == Text(a) + Text(b)
  {
    if a == [] {
      assert a + b == b;
    } else {
      TextAppend(a[1..], b);
      assert (a + b)[1..] == a[1..] + b;
    }
  }

  ghost predicate OneLine(l: string) { forall i :: 0 <= i < |l| ==> l[i] != '\n' }

  ghost predicate Lines(ls: seq<string>) { forall i :: 0 <= i < |ls| ==> OneLine(ls[i]) }

  lemma FirstLine(a: string, u: string, b: string, v: string)
    requires OneLine(a) && OneLine(b) && a + "\n" + u == b + "\n" + v
    ensures a == b && u == v
  {
    var s, t := a + "\n" + u, b + "\n" + v;
    assert s[|a|] == '\n' && t[|b|] == '\n';
    assert (forall i :: 0 <= i < |a| ==> s[i] == a[i]) && (forall i :: 0 <= i < |b| ==> t[i] == b[i]);
    assert s[..|a|] == a && t[..|b|] == b && s[|a| + 1..] == u && t[|b| + 1..] == v;
  }

  lemma {:induction false} TextInjective(a: seq<string>, b: seq<string>)
    requires Lines(a) && Lines(b) && Text(a) == Text(b)
    ensures a == b
  {
    if a != [] && b != [] {
      FirstLine(a[0], Text(a[1..]), b[0], Text(b[1..]));
      TextInjective(a[1..], b[1..]);
      assert a == [a[0]] + a[1..] && b == [b[0]] + b[1..];
    }
  }

  // ----- rendering

  function Quoted(v: string): string { "\"" + v + "\"" }

  function Items(indent: string, vs: seq<string>): (ls: seq<string>)
    ensures |ls| == |vs| && forall i :: 0 <= i < |vs| ==> ls[i] == indent + Quoted(vs[i])
  {
    seq(|vs|, i requires 0 <= i < |vs| => indent + Quoted(vs[i]))
  }

  const ITEM := "    - "
  const DEEP_ITEM := "        - "

  function AllowLines(allowed: seq<string>): seq<string> {
    if allowed == [] then [] else ["  allow_from:"] + Items(ITEM, allowed)
  }

  function UpstreamLines(upstream: seq<string>): seq<string> {
    if upstream == [] then []
    else
      ["recursor:", "  forward_zones_recurse:", "    - zone: \".\"", "      forwarders:"] + Items(DEEP_ITEM, upstream)
  }

  /** The lines of the recursor's file: the managed settings in full. */
  function RecursorLines(r: RecursorConf): seq<string>
    requires r.port >= 0
  {
    [HEADER] + IncomingLines(r) + ResolverLines(r)
  }

  /** The lines of the authoritative server's file. */
  function AuthLines(a: AuthConf): seq<string>
    requires a.port >= 0
  {
    [HEADER, "local-address=" + Join(a.listen, ", "), "local-port=" + Itoa(a.port)] +
    if a.peers == [] then [] else ["allow-axfr-ips=" + Join(a.peers, ", ")]
  }

  /** Accumulates lines and remembers an unsafe value. */
  class Writer {
    var text: string
    var unsafe: bool
    ghost var lines: seq<string>

    ghost predicate Valid() reads this { text == Text(lines) }

    constructor ()
      ensures Valid() && lines == [HEADER] && !unsafe
    {
      text, unsafe, lines := HEADER + "\n", false, [HEADER];
      TextOne(HEADER);
    }

    method Line(s: string)
      requires Valid()
      modifies this`text, this`lines
      ensures Valid() && lines == old(lines) + [s]
    {
      hide Text;
      TextAppend(lines, [s]);
      TextOne(s);
      text := text + s + "\n";
      lines := lines + [s];
    }

    /** The value in quotes, if it may reach a file. */
    method Quote(v: string, safe: bool) returns (q: string)
      modifies this`unsafe
      ensures unsafe == (old(unsafe) || !safe)
      ensures safe ==> q == Quoted(v)
    {
      if !safe { unsafe := true; return "\"\""; }
      q := Quoted(v);
    }

    /** One item line per value. */
    method WriteItems(indent: string, vs: seq<string>)
      requires Valid()
      modifies this
      ensures Valid() && unsafe == (old(unsafe) || !AllSafe(vs))
      ensures AllSafe(vs) ==> lines == old(lines) + Items(indent, vs)
    {
      hide SafeAddr, Text;
      var i := 0;
      while i < |vs|
        invariant 0 <= i <= |vs| && Valid() && unsafe == (old(unsafe) || !AllSafe(vs[..i]))
        invariant AllSafe(vs[..i]) ==> lines == old(lines) + Items(indent, vs)[..i]
      {
        var q := Quote(vs[i], SafeAddr(vs[i]));
        Line(indent + q);
        i := i + 1;
      }
      assert vs[..i] == vs && Items(indent, vs)[..i] == Items(indent, vs);
    }

    /** The values in one line, comma separated. */
    method Bare(vs: seq<string>) returns (s: string)
      modifies this`unsafe
      ensures unsafe == (old(unsafe) || !AllSafe(vs))
      ensures s == Join(vs, ", ")
    {
      var i := 0;
      while i < |vs|
        invariant 0 <= i <= |vs| && unsafe == (old(unsafe) || !AllSafe(vs[..i]))
      {
        if !SafeAddr(vs[i]) { unsafe := true; }
        i := i + 1;
      }
      s := Join(vs, ", ");
    }
  }

  function IncomingLines(r: RecursorConf): seq<string>
    requires r.port >= 0
  {
    ["incoming:", "  listen:"] + (Items(ITEM, r.listen) + (["  port: " + Itoa(r.port)] + AllowLines(r.allowed)))
  }

  function ResolverLines(r: RecursorConf): seq<string> {
    ["dnssec:", "  validation: " + Quoted(r.mode)] + UpstreamLines(r.upstream)
  }

  method WriteIncoming(w: Writer, r: RecursorConf)
    requires r.port >= 0 && w.Valid()
    modifies w
    ensures w.Valid() && w.unsafe == (old(w.unsafe) || !(AllSafe(r.listen) && AllSafe(r.allowed)))
    ensures AllSafe(r.listen) && AllSafe(r.allowed) ==> w.lines == old(w.lines) + IncomingLines(r)
  {
    hide AllSafe, Text, Items, Itoa;
    w.Line("incoming:");
    w.Line("  listen:");
    w.WriteItems(ITEM, r.listen);
    w.Line("  port: " + Itoa(r.port));
    if r.allowed != [] {
      w.Line("  allow_from:");
      w.WriteItems(ITEM, r.allowed);
    } else { NoneUnsafe(); }
  }

  method WriteResolver(w: Writer, r: RecursorConf)
    requires w.Valid()
    modifies w
    ensures w.Valid() && w.unsafe == (old(w.unsafe) || !(AllSafe(r.upstream) && SafeMode(r.mode)))
    ensures AllSafe(r.upstream) && SafeMode(r.mode) ==> w.lines == old(w.lines) + ResolverLines(r)
  {
    hide AllSafe, SafeMode, Text, Items;
    w.Line("dnssec:");
    var mode := w.Quote(r.mode, SafeMode(r.mode));
    w.Line("  validation: " + mode);
    if r.upstream != [] {
      w.Line("recursor:");
      w.Line("  forward_zones_recurse:");
      w.Line("    - zone: \".\"");
      w.Line("      forwarders:");
      w.WriteItems(DEEP_ITEM, r.upstream);
    } else { NoneUnsafe(); }
  }

  /** The recursor's file; refused exactly when a value is unsafe. */
  method RenderRecursor(r: RecursorConf) returns (out: Result<string>)
    requires r.port >= 0
    ensures out ==
            if AllSafe(r.listen) && AllSafe(r.allowed) && AllSafe(r.upstream) && SafeMode(r.mode) then
              Ok(Text(RecursorLines(r)))
            else Err(Rejected)
  {
    hide AllSafe, SafeMode, Text, IncomingLines, ResolverLines;
    var w := new Writer();
    WriteIncoming(w, r);
    WriteResolver(w, r);
    if w.unsafe { return Err(Rejected); }
    assert w.lines == RecursorLines(r);
    out := Ok(w.text);
  }

  lemma NoneUnsafe()
    ensures AllSafe([])
  {
  }

  /** The authoritative server's file; refused exactly when a value is unsafe. */
  method RenderAuth(a: AuthConf) returns (out: Result<string>)
    requires a.port >= 0
    ensures out == if AllSafe(a.listen) && AllSafe(a.peers) then Ok(Text(AuthLines(a))) else Err(Rejected)
  {
    hide AllSafe, Text;
    var w := new Writer();
    var listen := w.Bare(a.listen);
    w.Line("local-address=" + listen);
    w.Line("local-port=" + Itoa(a.port));
    if a.peers != [] {
      var peers := w.Bare(a.peers);
      w.Line("allow-axfr-ips=" + peers);
    } else { NoneUnsafe(); }
    if w.unsafe { return Err(Rejected); }
    assert w.lines == AuthLines(a);
    out := Ok(w.text);
  }

  lemma TextOne(l: string)
    ensures Text([l]) == l + "\n"
  {
    assert [l][1..] == [];
    assert Text([]) == "";
  }

  // ----- different settings give different files

  predicate NotItem(indent: string, ls: seq<string>) { ls == [] || !(indent <= ls[0]) }

  lemma QuotedInjective(indent: string, a: string, b: string)
    requires indent + Quoted(a) == indent + Quoted(b)
    ensures a == b
  {
    var x, y := indent + Quoted(a), indent + Quoted(b);
    assert x[|indent| + 1..|x| - 1] == a && y[|indent| + 1..|y| - 1] == b;
  }

  /** Whether a text starts with an item tells whether the list is empty. */
  lemma StartsItem(indent: string, vs: seq<string>, x: seq<string>)
    requires NotItem(indent, x)
    ensures vs == [] ==> Items(indent, vs) + x == x
    ensures vs != [] ==> var s := Items(indent, vs) + x;
                         s[0] == indent + Quoted(vs[0]) && s[1..] == Items(indent, vs[1..]) + x
    ensures NotItem(indent, Items(indent, vs) + x) <==> vs == []
  {
    if vs != [] {
      var s := Items(indent, vs) + x;
      assert s[0] == indent + Quoted(vs[0]);
      assert indent <= s[0];
      assert s[1..] == Items(indent, vs[1..]) + x;
    }
  }

  /** A list of items ends where another kind of line follows. */
  lemma {:induction false} ItemsThen(indent: string, a: seq<string>, x: seq<string>, b: seq<string>, y: seq<string>)
    requires Items(indent, a) + x == Items(indent, b) + y && NotItem(indent, x) && NotItem(indent, y)
    ensures a == b && x == y
    decreases |a|
  {
    hide Items, Quoted, NotItem;
    StartsItem(indent, a, x);
    StartsItem(indent, b, y);
    assert (a == []) == (b == []);
    if a != [] {
      QuotedInjective(indent, a[0], b[0]);
      ItemsThen(indent, a[1..], x, b[1..], y);
      assert a == [a[0]] + a[1..] && b == [b[0]] + b[1..];
    }
  }

  lemma PrefixedInjective(p: string, a: string, b: string)
    requires p + a == p + b
    ensures a == b
  {
    assert (p + a)[|p|..] == a && (p + b)[|p|..] == b;
  }

  lemma PortInjective(p: string, a: nat, b: nat)
    requires p + Itoa(a) == p + Itoa(b)
    ensures a == b
  {
    PrefixedInjective(p, Itoa(a), Itoa(b));
    ItoaValue(a);
    ItoaValue(b);
  }

  lemma AllowHead(a: seq<string>, x: seq<string>)
    requires x != [] && x[0] == "dnssec:"
    ensures a == [] ==> AllowLines(a) + x == x
    ensures a != [] ==> var s := AllowLines(a) + x; s[0] == "  allow_from:" && s[1..] == Items(ITEM, a) + x
    ensures ((AllowLines(a) + x)[0] == "dnssec:") <==> a == []
  {
    hide Items;
    if a != [] {
      var s := AllowLines(a) + x;
      assert s[0] == "  allow_from:" && s[0][0] == ' ';
      assert s[1..] == Items(ITEM, a) + x;
    } else {
      assert AllowLines(a) + x == x;
    }
  }

  lemma AllowInjective(a: seq<string>, x: seq<string>, b: seq<string>, y: seq<string>)
    requires x != [] && y != [] && x[0] == "dnssec:" == y[0] && AllowLines(a) + x == AllowLines(b) + y
    ensures a == b && x == y
  {
    hide Items, AllowLines;
    AllowHead(a, x);
    AllowHead(b, y);
    if a != [] {
      assert "dnssec:"[0] == 'd' && ITEM[0] == ' ';
      ItemsThen(ITEM, a, x, b, y);
    }
  }

  lemma UpstreamInjective(a: seq<string>, b: seq<string>)
    requires UpstreamLines(a) == UpstreamLines(b)
    ensures a == b
  {
    hide Items;
    if a != [] && b != [] {
      assert UpstreamLines(a)[4..] == Items(DEEP_ITEM, a) + [] && UpstreamLines(b)[4..] == Items(DEEP_ITEM, b) + [];
      ItemsThen(DEEP_ITEM, a, [], b, []);
    }
  }

  /** The lines determine every rendered setting of the recursor section. */
  lemma RecursorLinesInjective(a: RecursorConf, b: RecursorConf)
    requires a.port >= 0 && b.port >= 0 && RecursorLines(a) == RecursorLines(b)
    ensures a.listen == b.listen && a.port == b.port && a.allowed == b.allowed && a.mode == b.mode &&
            a.upstream == b.upstream
  {
    hide Items, Itoa, AllowLines, UpstreamLines;
    var xa := ["  port: " + Itoa(a.port)] + (AllowLines(a.allowed) + ResolverLines(a));
    var xb := ["  port: " + Itoa(b.port)] + (AllowLines(b.allowed) + ResolverLines(b));
    assert RecursorLines(a)[3..] == Items(ITEM, a.listen) + xa && RecursorLines(b)[3..] == Items(ITEM, b.listen) + xb;
    PortLine(Itoa(a.port));
    PortLine(Itoa(b.port));
    ItemsThen(ITEM, a.listen, xa, b.listen, xb);
    assert xa[0] == "  port: " + Itoa(a.port) && xb[0] == "  port: " + Itoa(b.port);
    PortInjective("  port: ", a.port, b.port);
    assert xa[1..] == AllowLines(a.allowed) + ResolverLines(a) && xb[1..] == AllowLines(b.allowed) + ResolverLines(b);
    AllowInjective(a.allowed, ResolverLines(a), b.allowed, ResolverLines(b));
    assert ResolverLines(a)[1] == "  validation: " + Quoted(a.mode) &&
           ResolverLines(b)[1] == "  validation: " + Quoted(b.mode);
    QuotedInjective("  validation: ", a.mode, b.mode);
    assert ResolverLines(a)[2..] == UpstreamLines(a.upstream) && ResolverLines(b)[2..] == UpstreamLines(b.upstream);
    UpstreamInjective(a.upstream, b.upstream);
  }

  lemma PortLine(n: string)
    ensures !(ITEM <= "  port: " + n)
  {
    assert ("  port: " + n)[2] == 'p' && ITEM[2] == ' ';
  }

  // ----- lines are lines

  lemma SafeOneLine(v: string, indent: string)
    requires SafeAddr(v) && OneLine(indent)
    ensures OneLine(indent + Quoted(v))
  {
  }

  lemma ItemsAreLines(indent: string, vs: seq<string>)
    requires AllSafe(vs) && OneLine(indent)
    ensures Lines(Items(indent, vs))
  {
    hide SafeAddr;
    forall i | 0 <= i < |vs| ensures OneLine(Items(indent, vs)[i]) { SafeOneLine(vs[i], indent); }
  }

  lemma LinesAppend(a: seq<string>, b: seq<string>)
    requires Lines(a) && Lines(b)
    ensures Lines(a + b)
  {
    hide OneLine;
  }

  lemma ItoaOneLine(p: string, n: nat)
    requires OneLine(p)
    ensures OneLine(p + Itoa(n))
  {
    var t := Itoa(n);
    forall i | 0 <= i < |t| ensures t[i] != '\n' { assert t[i] in t; }
  }

  lemma RecursorIsLines(r: RecursorConf)
    requires SafeRecursor(r)
    ensures Lines(RecursorLines(r))
  {
    hide Items, OneLine, Itoa;
    FixedLines();
    ItemsAreLines(ITEM, r.listen);
    ItemsAreLines(ITEM, r.allowed);
    ItemsAreLines(DEEP_ITEM, r.upstream);
    ItoaOneLine("  port: ", r.port);
    ModeOneLine(r.mode);
    LinesAppend(["  port: " + Itoa(r.port)], AllowLines(r.allowed));
    LinesAppend(Items(ITEM, r.listen), ["  port: " + Itoa(r.port)] + AllowLines(r.allowed));
    LinesAppend([HEADER], IncomingLines(r));
    LinesAppend(["dnssec:", "  validation: " + Quoted(r.mode)], UpstreamLines(r.upstream));
    LinesAppend([HEADER] + IncomingLines(r), ResolverLines(r));
  }

  lemma ModeOneLine(mode: string)
    requires SafeMode(mode)
    ensures OneLine("  validation: " + Quoted(mode))
  {
    OneLineAppend("  validation: \"", mode);
    OneLineAppend("  validation: \"" + mode, "\"");
    assert "  validation: \"" + mode + "\"" == "  validation: " + Quoted(mode);
  }

  lemma OneLineAppend(a: string, b: string)
    ensures OneLine(a + b) <==> OneLine(a) && OneLine(b)
  {
    if OneLine(a + b) {
      assert forall i :: 0 <= i < |a| ==> (a + b)[i] == a[i];
      assert forall i :: 0 <= i < |b| ==> (a + b)[|a| + i] == b[i];
    }
  }

  lemma FixedLines()
    ensures OneLine(HEADER) && OneLine("incoming:") && OneLine("  listen:") && OneLine("  allow_from:") &&
            OneLine("dnssec:")
    ensures OneLine("recursor:") && OneLine("  forward_zones_recurse:") && OneLine("    - zone: \".\"")
    ensures OneLine("      forwarders:")
    ensures OneLine(ITEM) && OneLine(DEEP_ITEM) && OneLine("  port: ") && OneLine("local-address=") &&
            OneLine("local-port=")
    ensures OneLine("allow-axfr-ips=")
  {
    OneLineAppend("# Managed by Freya DNS ", DASH);
    OneLineAppend("# Managed by Freya DNS " + DASH, " do not edit by hand.");
  }

  /** Two recursor sections with the same file have the same rendered settings. */
  lemma RecursorInjective(a: RecursorConf, b: RecursorConf)
    requires SafeRecursor(a) && SafeRecursor(b) && Text(RecursorLines(a)) == Text(RecursorLines(b))
    ensures a.(open := false) == b.(open := false)
  {
    hide RecursorLines, Text, Lines;
    RecursorIsLines(a);
    RecursorIsLines(b);
    TextInjective(RecursorLines(a), RecursorLines(b));
    RecursorLinesInjective(a, b);
  }

  // ----- the authoritative server's file

  ghost predicate NoComma(s: string) { forall i :: 0 <= i < |s| ==> s[i] != ',' }

  ghost predicate AtComma(s: string) { s == "" || s[0] == ',' }

  lemma FirstField(a: string, u: string, b: string, v: string)
    requires NoComma(a) && NoComma(b) && AtComma(u) && AtComma(v) && a + u == b + v
    ensures a == b && u == v
  {
    var s, t := a + u, b + v;
    assert (forall i :: 0 <= i < |a| ==> s[i] == a[i]) && (forall i :: 0 <= i < |b| ==> t[i] == b[i]);
    assert (u != "" ==> s[|a|] == ',') && (v != "" ==> t[|b|] == ',');
    assert s[..|a|] == a && t[..|b|] == b && s[|a|..] == u && t[|b|..] == v;
  }

  function Fields(vs: seq<string>): string { if |vs| <= 1 then "" else ", " + Join(vs[1..], ", ") }

  lemma JoinFields(vs: seq<string>)
    requires vs != []
    ensures Join(vs, ", ") == vs[0] + Fields(vs) && AtComma(Fields(vs))
  {
    if |vs| > 1 { assert vs[0] + ", " + Join(vs[1..], ", ") == vs[0] + (", " + Join(vs[1..], ", ")); }
  }

  lemma SafeNoComma(v: string)
    requires SafeAddr(v)
    ensures NoComma(v) && OneLine(v)
  {
  }

  lemma {:induction false} JoinInjective(a: seq<string>, b: seq<string>)
    requires a != [] && b != [] && AllSafe(a) && AllSafe(b) && Join(a, ", ") == Join(b, ", ")
    ensures a == b
    decreases |a|
  {
    hide SafeAddr, Join;
    JoinFields(a);
    JoinFields(b);
    SafeNoComma(a[0]);
    SafeNoComma(b[0]);
    FirstField(a[0], Fields(a), b[0], Fields(b));
    if |a| > 1 {
      assert |Fields(a)| >= 2;
      assert |b| > 1;
      PrefixedInjective(", ", Join(a[1..], ", "), Join(b[1..], ", "));
      JoinInjective(a[1..], b[1..]);
    } else {
      assert |b| == 1;
    }
    assert a == [a[0]] + a[1..] && b == [b[0]] + b[1..];
  }

  lemma {:induction false} JoinOneLine(vs: seq<string>)
    requires AllSafe(vs)
    ensures OneLine(Join(vs, ", "))
    decreases |vs|
  {
    hide SafeAddr, OneLine;
    if vs == [] {
      assert OneLine("") by { NoLine(); }
    } else {
      SafeNoComma(vs[0]);
      if |vs| > 1 {
        NoLine();
        JoinOneLine(vs[1..]);
        OneLineAppend(vs[0], ", ");
        OneLineAppend(vs[0] + ", ", Join(vs[1..], ", "));
      }
    }
  }

  lemma NoLine()
    ensures OneLine("") && OneLine(", ")
  {
  }

  lemma AuthIsLines(a: AuthConf)
    requires SafeAuth(a)
    ensures Lines(AuthLines(a))
  {
    hide OneLine, Join, Itoa;
    FixedLines();
    JoinOneLine(a.listen);
    JoinOneLine(a.peers);
    OneLineAppend("local-address=", Join(a.listen, ", "));
    OneLineAppend("allow-axfr-ips=", Join(a.peers, ", "));
    ItoaOneLine("local-port=", a.port);
  }

  /** Two authoritative sections with the same file are the same. */
  lemma AuthInjective(a: AuthConf, b: AuthConf)
    requires SafeAuth(a) && SafeAuth(b) && Text(AuthLines(a)) == Text(AuthLines(b))
    ensures a == b
  {
    hide Text, Lines, Join, Itoa;
    AuthIsLines(a);
    AuthIsLines(b);
    var x, y := AuthLines(a), AuthLines(b);
    TextInjective(x, y);
    assert x[1] == "local-address=" + Join(a.listen, ", ") && y[1] == "local-address=" + Join(b.listen, ", ");
    PrefixedInjective("local-address=", Join(a.listen, ", "), Join(b.listen, ", "));
    JoinInjective(a.listen, b.listen);
    assert x[2] == "local-port=" + Itoa(a.port) && y[2] == "local-port=" + Itoa(b.port);
    PortInjective("local-port=", a.port, b.port);
    if a.peers != [] {
      assert x[3] == "allow-axfr-ips=" + Join(a.peers, ", ") && y[3] == "allow-axfr-ips=" + Join(b.peers, ", ");
      PrefixedInjective("allow-axfr-ips=", Join(a.peers, ", "), Join(b.peers, ", "));
      JoinInjective(a.peers, b.peers);
    }
  }

  /** The two servers never render the same file. */
  lemma FilesDiffer(r: RecursorConf, a: AuthConf)
    requires SafeRecursor(r) && SafeAuth(a)
    ensures Text(RecursorLines(r)) != Text(AuthLines(a))
  {
    hide Text, Lines, Join, Itoa, Items;
    RecursorIsLines(r);
    AuthIsLines(a);
    assert RecursorLines(r)[1] == "incoming:" && AuthLines(a)[1] == "local-address=" + Join(a.listen, ", ");
    assert "incoming:"[0] == 'i' && ("local-address=" + Join(a.listen, ", "))[0] == 'l';
    if Text(RecursorLines(r)) == Text(AuthLines(a)) {
      TextInjective(RecursorLines(r), AuthLines(a));
      assert false;
    }
  }

  // ----- applying

  datatype ServerName = RecursorServer | AuthServer
  datatype Reason = NotManaged | WriteFailed | RestartFailed
  datatype Outcome = Outcome(changed: seq<ServerName>, restarted: seq<ServerName>, required: seq<ServerName>,
                             errors: seq<(ServerName, Reason)>)

  /** The disk and the containers. */
  class Host {
    var files: map<string, string>
    const canRestart: bool
    var restarts: seq<ServerName>
    var faults: seq<bool>

    constructor (canRestart: bool)
      ensures files == map[] && restarts == [] && faults == [] && this.canRestart == canRestart
    {
      this.canRestart := canRestart;
      files, restarts, faults := map[], [], [];
    }

    ghost predicate Clean() reads this`faults { faults == [] }

    method Begin() returns (fail: bool)
      modifies this`faults
      ensures old(Clean()) ==> !fail && Clean()
    {
      if faults == [] { return false; }
      fail := faults[0];
      faults := faults[1..];
    }

    /** Replaces the file unless it already holds the content; a failure leaves it as it was. */
    method WriteIfChanged(path: string, content: string) returns (r: Result<bool>)
      modifies this`faults, this`files
      ensures old(Clean()) ==> Clean() && r.Ok?
      ensures r.Ok? ==> r.value == !Holds(old(files), path, content) && files == old(files)[path := content]
      ensures r.Err? ==> files == old(files)
    {
      var fail := Begin();
      if fail { return Err(Unavailable); }
      if path in files && files[path] == content {
        assert files == files[path := content];
        return Ok(false);
      }
      fail := Begin();
      if fail { return Err(Unavailable); }
      files := files[path := content];
      r := Ok(true);
    }

    method Restart(name: ServerName) returns (err: Option<Error>)
      modifies this`faults, this`restarts
      ensures old(Clean()) ==> Clean() && err.None?
      ensures restarts == if err.None? then old(restarts) + [name] else old(restarts)
    {
      var fail := Begin();
      if fail { return Some(Unavailable); }
      restarts := restarts + [name];
      err := None;
    }
  }

  predicate Holds(files: map<string, string>, path: string, content: string) {
    path in files && files[path] == content
  }

  /** The outcome with one server more, when nothing fails. */
  function WithServer(out: Outcome, name: ServerName, path: string, same: bool, canRestart: bool,
                      report: bool): Outcome {
    if path == "" then (if report then out.(errors := out.errors + [(name, NotManaged)]) else out)
    else if same then out
    else if canRestart then out.(changed := out.changed + [name], restarted := out.restarted + [name])
    else out.(changed := out.changed + [name], required := out.required + [name])
  }

  /** What applying one server did and reports: not managed; the write failed and nothing changed;
  the file was right; or it changed, and the server was restarted, could not be, or must be by hand. */
  ghost predicate Applied(name: ServerName, path: string, content: string, report: bool, canRestart: bool,
                          before: Outcome, out: Outcome, files0: map<string, string>, files: map<string, string>,
                          restarts0: seq<ServerName>, restarts: seq<ServerName>, clean: bool) {
    if path == "" then
      && files == files0 && restarts == restarts0
      && out == if report then before.(errors := before.errors + [(name, NotManaged)]) else before
    else
      var changed := before.(changed := before.changed + [name]);
      || (!clean && files == files0 && restarts == restarts0 &&
          out == before.(errors := before.errors + [(name, WriteFailed)]))
      || (Holds(files0, path, content) && files == files0 && restarts == restarts0 && out == before)
      || (&& !Holds(files0, path, content) && files == files0[path := content]
          && (|| (canRestart && restarts == restarts0 + [name] &&
                  out == changed.(restarted := before.restarted + [name]))
              || (!canRestart && restarts == restarts0 && out == changed.(required := before.required + [name]))
              || (&& !clean && canRestart && restarts == restarts0
                  && out == changed.(errors := before.errors + [(name, RestartFailed)],
                                     required := before.required + [name]))))
  }

  /** Writes one managed file and restarts its server if the file changed. */
  method ApplyOne(host: Host, name: ServerName, path: string, content: string, report: bool, before: Outcome)
    returns (out: Outcome)
    modifies host`faults, host`files, host`restarts
    ensures old(host.Clean()) ==> host.Clean()
    ensures Applied(name, path, content, report, host.canRestart, before, out, old(host.files), host.files,
                    old(host.restarts), host.restarts, old(host.Clean()))
    ensures host.files == old(host.files) || (path != "" && host.files == old(host.files)[path := content])
    ensures old(host.Clean()) && path != "" ==> host.files == old(host.files)[path := content]
    ensures old(host.Clean()) ==>
              out == WithServer(before, name, path, Holds(old(host.files), path, content), host.canRestart, report)
    // a restart follows a change and nothing else
    ensures host.restarts == old(host.restarts) ||
            (host.restarts == old(host.restarts) + [name] && path != "" && !Holds(old(host.files), path, content) &&
             host.canRestart)
    ensures old(host.Clean()) && path != "" && !Holds(old(host.files), path, content) && host.canRestart ==>
              host.restarts == old(host.restarts) + [name]
  {
    out := before;
    if path == "" {
      if report { out := out.(errors := out.errors + [(name, NotManaged)]); }
      return;
    }
    var changed := host.WriteIfChanged(path, content);
    if changed.Err? { return out.(errors := out.errors + [(name, WriteFailed)]); }
    if !changed.value { return; }
    out := out.(changed := out.changed + [name]);
    if !host.canRestart { return out.(required := out.required + [name]); }
    var err := host.Restart(name);
    if err.Some? { return out.(errors := out.errors + [(name, RestartFailed)], required := out.required + [name]); }
    out := out.(restarted := out.restarted + [name]);
  }

  const NOTHING := Outcome([], [], [], [])

  /** Each managed file holds its render. */
  ghost predicate Settled(files: map<string, string>, m: Model, recPath: string, authPath: string)
    requires SafeRecursor(m.rec) && SafeAuth(m.auth)
  {
    && (recPath != "" ==> Holds(files, recPath, Text(RecursorLines(m.rec))))
    && (authPath != "" ==> Holds(files, authPath, Text(AuthLines(m.auth))))
  }

  /** Renders and writes both files and restarts the servers whose file changed. */
  method Apply(host: Host, m: Model, recPath: string, authPath: string, report: bool) returns (out: Outcome)
    requires SafeRecursor(m.rec) && SafeAuth(m.auth)
    modifies host`faults, host`files, host`restarts
    ensures old(host.Clean()) ==> host.Clean()
    // without faults: the files hold their renders, and exactly the changed servers restart
    ensures old(host.Clean()) && (recPath == "" || recPath != authPath) ==>
              && Settled(host.files, m, recPath, authPath)
              && out == (var recSame := Holds(old(host.files), recPath, Text(RecursorLines(m.rec)));
                         var authSame := Holds(old(host.files), authPath, Text(AuthLines(m.auth)));
                         WithServer(WithServer(NOTHING, RecursorServer, recPath, recSame, host.canRestart, report),
                                    AuthServer, authPath, authSame, host.canRestart, report))
              && host.restarts == old(host.restarts) + out.restarted
    // a re-apply changes and restarts nothing
    ensures old(host.Clean() && Settled(host.files, m, recPath, authPath)) ==>
              && host.files == old(host.files) && host.restarts == old(host.restarts) && out.changed == []
              && out.restarted == []
    // unless both servers share one file, which never settles
    ensures old(host.Clean()) && recPath == authPath && recPath != "" ==>
              && !Settled(host.files, m, recPath, authPath) && Holds(host.files, recPath, Text(AuthLines(m.auth)))
              && (old(Holds(host.files, recPath, Text(AuthLines(m.auth)))) ==>
                    out.changed == [RecursorServer, AuthServer])
  {
    hide RecursorLines, AuthLines, Text, AllSafe, SafeMode;
    FilesDiffer(m.rec, m.auth);
    var rec := RenderRecursor(m.rec);
    out := ApplyOne(host, RecursorServer, recPath, rec.value, report, NOTHING);
    var auth := RenderAuth(m.auth);
    out := ApplyOne(host, AuthServer, authPath, auth.value, report, out);
  }

  /** A fault-free apply, then the same again: the second changes and restarts nothing exactly when
  the two managed files are not one and the same. */
  method ApplyTwice(host: Host, m: Model, recPath: string, authPath: string) returns (first: Outcome, second: Outcome)
    requires SafeRecursor(m.rec) && SafeAuth(m.auth) && host.Clean()
    modifies host`faults, host`files, host`restarts
    ensures second.changed == [] <==> recPath == "" || recPath != authPath
    ensures second.changed == [] ==> second.restarted == []
  {
    hide RecursorLines, AuthLines, Text, SafeRecursor, SafeAuth, Holds, WithServer;
    first := Apply(host, m, recPath, authPath, true);
    second := Apply(host, m, recPath, authPath, false);
  }
}
