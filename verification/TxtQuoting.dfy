/** Quoting and scanning record values (internal/validate/content.go): a TXT value that is not
quoted yet becomes one quoted character-string, and the scanner refuses what could leave the
single record line a value is parsed in. */
module TxtQuoting {
  import opened RecordSets

  /** Where the scanner is: outside quoted strings, inside one, after a backslash inside one, or
  past a character that is refused. */
  datatype Mode = Outside | Inside | Escaped | Refused

  predicate Special(c: char) {
    c == '"' || c == ';' || c == '(' || c == ')' || c == '\\' || c == '@' || c == '$'
  }

  function Next(m: Mode, c: char, quoted: bool): Mode {
    match m
    case Refused => Refused
    case Escaped => Inside
    case Inside => if c == '\\' then Escaped else if c == '"' then Outside else Inside
    case Outside =>
      if c == '"' && quoted then Inside
      else if Special(c) || c as int >= 0x80 then Refused
      else Outside
  }

  /** The mode after a text. */
  function After(m: Mode, v: string, quoted: bool): Mode {
    if v == "" then m else Next(After(m, v[..|v| - 1], quoted), v[|v| - 1], quoted)
  }

  lemma {:induction false} RefusedStays(m: Mode, v: string, quoted: bool, i: nat)
    requires i <= |v| && After(m, v[..i], quoted) == Refused
    ensures After(m, v, quoted) == Refused
    decreases |v| - i
  {
    if i == |v| {
      assert v[..i] == v;
    } else {
      assert v[..i + 1][..i] == v[..i];
      RefusedStays(m, v, quoted, i + 1);
    }
  }

  method ScanControl(s: string) returns (found: bool)
    ensures found == HasControl(s)
  {
    var i := 0;
    while i < |s|
      invariant 0 <= i <= |s| && forall j :: 0 <= j < i ==> !Control(s[j])
    {
      if Control(s[i]) { assert s[i] in s; return true; }
      i := i + 1;
    }
    found := false;
  }

  /** The scanner: no control character, nothing refused outside quotes, no open quote. */
  method Scan(v: string, quoted: bool) returns (ok: bool)
    ensures ok <==> !HasControl(v) && After(Outside, v, quoted) == Outside
  {
    var control := ScanControl(v);
    if control { return false; }
    var inQ, esc := false, false;
    var i := 0;
    while i < |v|
      invariant 0 <= i <= |v|
      invariant After(Outside, v[..i], quoted) == if !inQ then Outside else if esc then Escaped else Inside
      invariant !inQ ==> !esc
    {
      var c := v[i];
      assert v[..i + 1][..i] == v[..i];
      if inQ {
        if esc { esc := false; }
        else if c == '\\' { esc := true; }
        else if c == '"' { inQ := false; }
      } else if c == '"' && quoted {
        inQ := true;
      } else if Special(c) || c as int >= 0x80 {
        RefusedStays(Outside, v, quoted, i + 1);
        return false;
      }
      i := i + 1;
    }
    assert v[..i] == v;
    ok := !inQ;
  }

  // ----- quoting

  /** Every backslash and quote escaped. */
  function Escape(s: string): string {
    if s == "" then ""
    else Escape(s[..|s| - 1]) + (if s[|s| - 1] == '\\' || s[|s| - 1] == '"' then ['\\', s[|s| - 1]] else [s[|s| - 1]])
  }

  /** One character-string: what the TXT and SPF branch makes of a value without a leading quote. */
  function Quote(s: string): string { "\"" + Escape(s) + "\"" }

  /** The text of a quoted string's inside: escapes taken away. */
  function Unescape(s: string): string {
    if s == "" then ""
    else if s[0] == '\\' && |s| >= 2 then [s[1]] + Unescape(s[2..])
    else [s[0]] + Unescape(s[1..])
  }

  /** Within one quoted string: the quote is open before and after every character in between. */
  lemma {:induction false} AfterAppend(m: Mode, a: string, b: string, quoted: bool)
    ensures After(m, a + b, quoted) == After(After(m, a, quoted), b, quoted)
  {
    if b == "" {
      assert a + b == a;
    } else {
      var n := |b| - 1;
      assert (a + b)[..|a + b| - 1] == a + b[..n];
      AfterAppend(m, a, b[..n], quoted);
    }
  }

  lemma {:induction false} EscapedInside(s: string)
    ensures After(Inside, Escape(s), true) == Inside
  {
    if s != "" {
      var n := |s| - 1;
      EscapedInside(s[..n]);
      var last := Escape(s)[|Escape(s[..n])|..];
      assert Escape(s) == Escape(s[..n]) + last;
      AfterAppend(Inside, Escape(s[..n]), last, true);
      LastInside(s[n], last);
    }
  }

  lemma LastInside(c: char, last: string)
    requires last == if c == '\\' || c == '"' then ['\\', c] else [c]
    ensures After(Inside, last, true) == Inside
    ensures |last| == 2 ==> After(Inside, last[..1], true) == Escaped
  {
    assert last[..|last| - 1] == if |last| == 2 then ['\\'] else [];
    assert ['\\'][..0] == [];
    assert After(Inside, ['\\'], true) == Escaped;
  }

  /** Before any prefix of the escaped text the quote is open. */
  lemma {:induction false} PrefixOpen(s: string, k: nat)
    requires k <= |Escape(s)|
    ensures After(Inside, Escape(s)[..k], true) == Inside || After(Inside, Escape(s)[..k], true) == Escaped
  {
    var e := Escape(s);
    if s != "" {
      var n := |s| - 1;
      var head := Escape(s[..n]);
      var last := e[|head|..];
      assert e == head + last;
      if k <= |head| {
        assert e[..k] == head[..k];
        PrefixOpen(s[..n], k);
      } else {
        assert e[..k] == head + last[..k - |head|];
        AfterAppend(Inside, head, last[..k - |head|], true);
        EscapedInside(s[..n]);
        LastInside(s[n], last);
        assert last[..|last|] == last;
      }
    }
  }

  /** The scanner leaves the quoted state only at the final character. */
  lemma QuoteOpenUntilEnd(s: string, k: nat)
    requires 1 <= k < |Quote(s)|
    ensures var m := After(Outside, Quote(s)[..k], true); m == Inside || m == Escaped
  {
    var q := Quote(s);
    assert q[..k] == "\"" + Escape(s)[..k - 1];
    AfterAppend(Outside, "\"", Escape(s)[..k - 1], true);
    assert "\""[..0] == "";
    assert After(Outside, "\"", true) == Inside;
    PrefixOpen(s, k - 1);
  }

  lemma QuoteCloses(s: string)
    ensures After(Outside, Quote(s), true) == Outside
  {
    var q := Quote(s);
    var n := |q| - 1;
    assert q[..n] == "\"" + Escape(s);
    AfterAppend(Outside, "\"", Escape(s), true);
    assert "\""[..0] == "";
    assert After(Outside, "\"", true) == Inside;
    EscapedInside(s);
  }

  lemma {:induction false} EscapeControl(s: string)
    ensures HasControl(Escape(s)) <==> HasControl(s)
  {
    if s != "" {
      var n := |s| - 1;
      EscapeControl(s[..n]);
      assert s == s[..n] + [s[n]];
      ControlAppend(s[..n], [s[n]]);
      ControlAppend(Escape(s[..n]), if s[n] == '\\' || s[n] == '"' then ['\\', s[n]] else [s[n]]);
      LastControl(s[n]);
    }
  }

  lemma ControlAppend(a: string, b: string)
    ensures HasControl(a + b) <==> HasControl(a) || HasControl(b)
  {
    if c :| c in a && Control(c) { assert c in a + b; }
    if c :| c in b && Control(c) { assert c in a + b; }
  }

  lemma LastControl(c: char)
    ensures HasControl([c]) <==> Control(c)
    ensures c == '\\' || c == '"' ==> !HasControl(['\\', c]) && !Control(c)
  {
    assert c in [c];
  }

  /** A quoted text is accepted exactly when it has no control character. */
  lemma QuotedAccepted(s: string)
    ensures (!HasControl(Quote(s)) && After(Outside, Quote(s), true) == Outside) <==> !HasControl(s)
  {
    QuoteCloses(s);
    EscapeControl(s);
    ControlAppend("\"", Escape(s));
    ControlAppend("\"" + Escape(s), "\"");
    LastControl('"');
    assert ['"'] == "\"";
  }

  // ----- and back

  lemma UnescapeLast(c: char, rest: string)
    ensures Unescape((if c == '\\' || c == '"' then ['\\', c] else [c]) + rest) == [c] + Unescape(rest)
  {
    assert (['\\', c] + rest)[2..] == rest && ([c] + rest)[1..] == rest;
  }

  /** Unescaping passes over escaped text into what follows. */
  lemma {:induction false} UnescapeConcat(s: string, rest: string)
    ensures Unescape(Escape(s) + rest) == s + Unescape(rest)
    decreases |s|
  {
    hide Unescape;
    if s == "" {
      assert Escape(s) + rest == rest && s + Unescape(rest) == Unescape(rest);
    } else {
      var n := |s| - 1;
      var last := if s[n] == '\\' || s[n] == '"' then ['\\', s[n]] else [s[n]];
      assert Escape(s) + rest == Escape(s[..n]) + (last + rest);
      UnescapeConcat(s[..n], last + rest);
      UnescapeLast(s[n], rest);
      assert s[..n] + ([s[n]] + Unescape(rest)) == s + Unescape(rest);
    }
  }

  /** Unescaping the inside of a quoted text returns the text: quoting loses nothing. */
  lemma QuoteRoundTrip(s: string)
    ensures Unescape(Quote(s)[1..|Quote(s)| - 1]) == s
  {
    var q := Quote(s);
    assert q[1..|q| - 1] == Escape(s);
    UnescapeConcat(s, "");
    assert Escape(s) + "" == Escape(s);
  }
}
