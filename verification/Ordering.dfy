/** The order of record sets in lists (internal/records/records.go): the DNS canonical name order
of section 6.1 of RFC 4034 as a comparison of plain strings. */
module Ordering {
  import opened Strings
  import opened Names

  const LABEL_SEP: char := 1 as char
  const NAME_END: char := 0 as char

  function Reversed(s: seq<string>): seq<string> {
    if s == [] then [] else Reversed(s[1..]) + [s[0]]
  }

  /** The labels of a name from the root down. */
  function RootLabels(name: string): seq<string> {
    Reversed(Split(TrimSuffix(Lower(name), "."), '.'))
  }

  /** The labels from the root down, joined below every character of a label. */
  function Canonical(name: string): string {
    Join(RootLabels(name), [LABEL_SEP])
  }

  function TypeRank(t: string): string { if t == "SOA" then "" else t }

  /** The unique sort key of a record set. */
  function SetTie(name: string, t: string): string {
    Canonical(name) + [NAME_END] + TypeRank(t)
  }

  // ----- the order of label lists

  /** Label by label; a list sorts before its extensions. */
  predicate LabelsLess(a: seq<string>, b: seq<string>) {
    if b == [] then false
    else if a == [] then true
    else if a[0] != b[0] then LexLess(a[0], b[0])
    else LabelsLess(a[1..], b[1..])
  }

  ghost predicate Above(s: string, c: char) {
    forall i :: 0 <= i < |s| ==> s[i] > c
  }

  ghost predicate LabelsAbove(ls: seq<string>) {
    forall l :: l in ls ==> Above(l, LABEL_SEP)
  }

  lemma {:induction false} LexPrefix(p: string, x: string, y: string)
    ensures LexLess(p + x, p + y) == LexLess(x, y)
  {
    if p == "" {
      assert p + x == x && p + y == y;
    } else {
      LexPrefix(p[1..], x, y);
      assert (p + x)[1..] == p[1..] + x && (p + y)[1..] == p[1..] + y;
    }
  }

  /** Ends at a separator or at the end. */
  predicate Ending(s: string, sep: char) { s == "" || s[0] <= sep }

  /** Texts that differ compare alike whatever follows, below their characters. */
  lemma {:induction false} LexEndings(x: string, u: string, y: string, v: string, sep: char)
    requires x != y && Above(x, sep) && Above(y, sep) && Ending(u, sep) && Ending(v, sep)
    ensures LexLess(x + u, y + v) == LexLess(x, y)
  {
    if x == "" {
      assert x + u == u;
    } else if y == "" {
      assert y + v == v;
    } else if x[0] == y[0] {
      assert x == [x[0]] + x[1..] && y == [y[0]] + y[1..];
      LexEndings(x[1..], u, y[1..], v, sep);
      assert (x + u)[1..] == x[1..] + u && (y + v)[1..] == y[1..] + v;
    }
  }

  function Tail(ls: seq<string>): string {
    if |ls| <= 1 then "" else [LABEL_SEP] + Join(ls[1..], [LABEL_SEP])
  }

  lemma JoinTail(ls: seq<string>)
    requires ls != []
    ensures Join(ls, [LABEL_SEP]) == ls[0] + Tail(ls) && Ending(Tail(ls), LABEL_SEP)
  {
    if |ls| > 1 { Regroup(ls[0], [LABEL_SEP], Join(ls[1..], [LABEL_SEP])); }
  }

  lemma Regroup(a: string, b: string, c: string)
    ensures a + b + c == a + (b + c)
  {
  }

  /** Joined label lists compare as the lists. */
  lemma {:induction false} JoinedOrder(a: seq<string>, b: seq<string>)
    requires a != [] && b != [] && LabelsAbove(a) && LabelsAbove(b)
    ensures LexLess(Join(a, [LABEL_SEP]), Join(b, [LABEL_SEP])) == LabelsLess(a, b)
    decreases |a|, 1
  {
    hide Join, LexLess;
    JoinTail(a);
    JoinTail(b);
    if a[0] != b[0] {
      LexEndings(a[0], Tail(a), b[0], Tail(b), LABEL_SEP);
    } else {
      LexPrefix(a[0], Tail(a), Tail(b));
      TailOrder(a, b);
    }
  }

  lemma TailOrder(a: seq<string>, b: seq<string>)
    requires a != [] && b != [] && LabelsAbove(a) && LabelsAbove(b)
    ensures LexLess(Tail(a), Tail(b)) == LabelsLess(a[1..], b[1..])
    decreases |a|, 0
  {
    hide Join;
    if |a| > 1 && |b| > 1 {
      JoinedOrder(a[1..], b[1..]);
      LexPrefix([LABEL_SEP], Join(a[1..], [LABEL_SEP]), Join(b[1..], [LABEL_SEP]));
    }
  }

  // ----- names

  /** The characters a name may have: above the separators. */
  ghost predicate NameAbove(name: string) { Above(name, LABEL_SEP) }

  lemma {:induction false} SplitParts(s: string, sep: char)
    ensures forall p, c :: p in Split(s, sep) && c in p ==> c in s
  {
    var i := IndexOf(s, sep);
    if i < |s| { SplitParts(s[i + 1..], sep); }
  }

  lemma {:induction false} ReversedMembers(s: seq<string>)
    ensures |Reversed(s)| == |s| && forall x :: x in Reversed(s) <==> x in s
  {
    if s != [] {
      ReversedMembers(s[1..]);
      assert s == [s[0]] + s[1..];
    }
  }

  lemma LowerAbove(name: string)
    requires NameAbove(name)
    ensures NameAbove(TrimSuffix(Lower(name), "."))
  {
    var l := Lower(name);
    forall i | 0 <= i < |l| ensures l[i] > LABEL_SEP { LowerCharAbove(name[i]); }
  }

  lemma LowerCharAbove(c: char)
    ensures c > LABEL_SEP ==> LowerChar(c) > LABEL_SEP
  {
  }

  lemma LabelsOfName(name: string)
    requires NameAbove(name)
    ensures LabelsAbove(RootLabels(name)) && RootLabels(name) != []
  {
    hide Lower, TrimSuffix, Reversed, Split;
    var s := TrimSuffix(Lower(name), ".");
    LowerAbove(name);
    SplitParts(s, '.');
    ReversedMembers(Split(s, '.'));
    forall l | l in Split(s, '.') ensures Above(l, LABEL_SEP) {
      forall i | 0 <= i < |l| ensures l[i] > LABEL_SEP { assert l[i] in l && l[i] in s; }
    }
  }

  /** Comparing canonical strings is comparing labels from the root. */
  lemma CanonicalOrder(a: string, b: string)
    requires NameAbove(a) && NameAbove(b)
    ensures LexLess(Canonical(a), Canonical(b)) == LabelsLess(RootLabels(a), RootLabels(b))
  {
    hide RootLabels, LexLess, LabelsLess, Join;
    LabelsOfName(a);
    LabelsOfName(b);
    JoinedOrder(RootLabels(a), RootLabels(b));
  }

  // ----- the tie-breaker

  lemma {:induction false} JoinAbove(ls: seq<string>)
    requires LabelsAbove(ls)
    ensures Above(Join(ls, [LABEL_SEP]), NAME_END)
  {
    if |ls| > 1 {
      JoinAbove(ls[1..]);
      assert ls[0] in ls;
    } else if |ls| == 1 {
      assert ls[0] in ls;
    }
  }

  /** Names first; at one name SOA first, then by type. */
  lemma TieOrder(a: string, t: string, b: string, u: string)
    requires NameAbove(a) && NameAbove(b)
    ensures LexLess(SetTie(a, t), SetTie(b, u)) ==
            if Canonical(a) != Canonical(b) then LexLess(Canonical(a), Canonical(b))
            else LexLess(TypeRank(t), TypeRank(u))
  {
    hide RootLabels, LexLess, Join;
    LabelsOfName(a);
    LabelsOfName(b);
    JoinAbove(RootLabels(a));
    JoinAbove(RootLabels(b));
    var x, y := Canonical(a), Canonical(b);
    assert SetTie(a, t) == x + ([NAME_END] + TypeRank(t)) && SetTie(b, u) == y + ([NAME_END] + TypeRank(u));
    if x != y {
      LexEndings(x, [NAME_END] + TypeRank(t), y, [NAME_END] + TypeRank(u), NAME_END);
    } else {
      LexPrefix(x + [NAME_END], TypeRank(t), TypeRank(u));
    }
  }

  lemma SoaFirst(t: string)
    requires t != "" && t != "SOA"
    ensures LexLess(TypeRank("SOA"), TypeRank(t))
  {
  }

  lemma {:induction false} LabelsTotal(a: seq<string>, b: seq<string>)
    ensures a == b || LabelsLess(a, b) || LabelsLess(b, a)
    ensures !(LabelsLess(a, b) && LabelsLess(b, a))
  {
    hide LexLess;
    if a != [] && b != [] {
      LexTotal(a[0], b[0]);
      if a[0] == b[0] {
        LabelsTotal(a[1..], b[1..]);
        assert a == [a[0]] + a[1..] && b == [b[0]] + b[1..];
      }
    }
  }

  lemma {:induction false} ReversedTwice(s: seq<string>)
    ensures Reversed(Reversed(s)) == s
  {
    if s != [] {
      ReversedTwice(s[1..]);
      ReversedAppend(Reversed(s[1..]), s[0]);
    }
  }

  lemma {:induction false} ReversedAppend(s: seq<string>, x: string)
    ensures Reversed(s + [x]) == [x] + Reversed(s)
  {
    if s == [] {
      assert Reversed([x]) == Reversed([x][1..]) + [x];
    } else {
      ReversedAppend(s[1..], x);
      assert (s + [x])[1..] == s[1..] + [x];
    }
  }

  /** Equal canonical strings are equal names, up to case and the trailing dot. */
  lemma CanonicalInjective(a: string, b: string)
    requires NameAbove(a) && NameAbove(b) && Canonical(a) == Canonical(b)
    ensures TrimSuffix(Lower(a), ".") == TrimSuffix(Lower(b), ".")
  {
    hide LexLess, LabelsLess, Join, Lower, TrimSuffix, Reversed, Split;
    CanonicalOrder(a, b);
    CanonicalOrder(b, a);
    LexTotal(Canonical(a), Canonical(b));
    LabelsTotal(RootLabels(a), RootLabels(b));
    var x, y := TrimSuffix(Lower(a), "."), TrimSuffix(Lower(b), ".");
    ReversedTwice(Split(x, '.'));
    ReversedTwice(Split(y, '.'));
    JoinSplit(x, '.');
    JoinSplit(y, '.');
  }

  /** The tie-breaker is injective on (name, type). */
  lemma TieInjective(a: string, t: string, b: string, u: string)
    requires NameAbove(a) && NameAbove(b) && t != "" && u != "" && SetTie(a, t) == SetTie(b, u)
    ensures TrimSuffix(Lower(a), ".") == TrimSuffix(Lower(b), ".") && t == u
  {
    hide RootLabels, LexLess, Join, Lower, TrimSuffix;
    var x, y := Canonical(a), Canonical(b);
    TieOrder(a, t, b, u);
    TieOrder(b, u, a, t);
    LexTotal(SetTie(a, t), SetTie(b, u));
    LexTotal(x, y);
    LexTotal(TypeRank(t), TypeRank(u));
    CanonicalInjective(a, b);
  }

  // ----- subtrees

  lemma {:induction false} LabelsLeast(p: seq<string>, n: seq<string>)
    requires p <= n && p != n
    ensures LabelsLess(p, n)
  {
    if p != [] {
      assert p[0] == n[0] && p[1..] <= n[1..];
      assert n == [n[0]] + n[1..] && p == [p[0]] + p[1..];
      LabelsLeast(p[1..], n[1..]);
    }
  }

  lemma {:induction false} LabelsBlock(p: seq<string>, a: seq<string>, b: seq<string>, c: seq<string>)
    requires p <= a && p <= c && LabelsLess(a, b) && LabelsLess(b, c)
    ensures p <= b
  {
    hide LexLess;
    if p != [] {
      assert a[0] == p[0] == c[0];
      LexTotal(a[0], b[0]);
      assert b[0] == p[0];
      assert p[1..] <= a[1..] && p[1..] <= c[1..];
      LabelsBlock(p[1..], a[1..], b[1..], c[1..]);
      assert b == [b[0]] + b[1..] && p == [p[0]] + p[1..];
    }
  }

  lemma {:induction false} SplitAppend(a: string, b: string, sep: char)
    ensures Split(a + [sep] + b, sep) == Split(a, sep) + Split(b, sep)
  {
    var i := IndexOf(a, sep);
    if i == |a| {
      assert sep !in a by { assert forall k :: 0 <= k < |a| ==> a[k] != sep; }
      SplitCons(a, sep, b);
    } else {
      assert sep !in a[..i] by { assert forall k :: 0 <= k < i ==> a[k] != sep; }
      assert a == a[..i] + [sep] + a[i + 1..];
      assert a + [sep] + b == a[..i] + [sep] + (a[i + 1..] + [sep] + b);
      SplitCons(a[..i], sep, a[i + 1..] + [sep] + b);
      SplitAppend(a[i + 1..], b, sep);
    }
  }

  lemma {:induction false} ReversedConcat(a: seq<string>, b: seq<string>)
    ensures Reversed(a + b) == Reversed(b) + Reversed(a)
  {
    if a == [] {
      assert a + b == b;
    } else {
      ReversedConcat(a[1..], b);
      assert (a + b)[1..] == a[1..] + b;
    }
  }

  /** An absolute lower-case name other than the root. */
  predicate Absolute(name: string) { |name| >= 2 && HasSuffix(name, ".") && Lower(name) == name }

  lemma Trimmed(name: string)
    requires Absolute(name)
    ensures TrimSuffix(Lower(name), ".") + "." == name
  {
  }

  /** A name inside a zone has the zone's labels first. */
  lemma InsideIsUnder(name: string, zone: string)
    requires Absolute(name) && Absolute(zone) && InZone(name, zone)
    ensures RootLabels(zone) <= RootLabels(name)
  {
    hide Split, Reversed, Lower;
    Trimmed(name);
    Trimmed(zone);
    var n, z := TrimSuffix(Lower(name), "."), TrimSuffix(Lower(zone), ".");
    if name != zone {
      var a := name[..|name| - |zone| - 1];
      assert name == a + ("." + zone);
      assert n == a + ['.'] + z;
      SplitAppend(a, z, '.');
      ReversedConcat(Split(a, '.'), Split(z, '.'));
    }
  }

  /** A parent sorts before everything below it. */
  lemma ParentFirst(name: string, zone: string)
    requires Absolute(name) && Absolute(zone) && NameAbove(name) && NameAbove(zone) && InZone(name, zone) &&
             name != zone
    ensures LexLess(Canonical(zone), Canonical(name))
  {
    hide RootLabels, LexLess, LabelsLess, InZone, Lower, Join;
    InsideIsUnder(name, zone);
    CanonicalOrder(zone, name);
    if RootLabels(zone) == RootLabels(name) {
      CanonicalInjective(zone, name);
      Trimmed(name);
      Trimmed(zone);
      assert false;
    }
    LabelsLeast(RootLabels(zone), RootLabels(name));
  }

  lemma {:induction false} JoinConcat(xs: seq<string>, ys: seq<string>, sep: string)
    requires xs != [] && ys != []
    ensures Join(xs + ys, sep) == Join(xs, sep) + sep + Join(ys, sep)
  {
    assert (xs + ys)[1..] == xs[1..] + ys;
    if |xs| > 1 {
      JoinConcat(xs[1..], ys, sep);
      assert xs[0] + sep + (Join(xs[1..], sep) + sep + Join(ys, sep)) ==
             (xs[0] + sep + Join(xs[1..], sep)) + sep + Join(ys, sep);
    } else {
      assert xs[1..] + ys == ys;
    }
  }

  /** A name with the zone's labels first is inside the zone. */
  lemma UnderIsInside(name: string, zone: string)
    requires Absolute(name) && Absolute(zone) && RootLabels(zone) <= RootLabels(name)
    ensures InZone(name, zone)
  {
    hide Split, Reversed, Lower, Join;
    Trimmed(name);
    Trimmed(zone);
    var n, z := TrimSuffix(Lower(name), "."), TrimSuffix(Lower(zone), ".");
    var rest := RootLabels(name)[|RootLabels(zone)|..];
    assert RootLabels(name) == RootLabels(zone) + rest;
    ReversedTwice(Split(n, '.'));
    ReversedTwice(Split(z, '.'));
    ReversedConcat(RootLabels(zone), rest);
    assert Split(n, '.') == Reversed(rest) + Split(z, '.');
    JoinSplit(n, '.');
    JoinSplit(z, '.');
    if Reversed(rest) == [] {
      assert Split(n, '.') == Split(z, '.');
    } else {
      JoinConcat(Reversed(rest), Split(z, '.'), ".");
      var a := Join(Reversed(rest), ".");
      assert name == a + ("." + zone);
    }
  }

  /** The names of a zone are one block of the order, right after the zone's own name: whatever
  sorts between two of them is one of them. */
  lemma SubtreeBlock(zone: string, a: string, b: string, c: string)
    requires Absolute(zone) && Absolute(a) && Absolute(b) && Absolute(c) && NameAbove(a) && NameAbove(b) && NameAbove(c)
    requires InZone(a, zone) && InZone(c, zone) && LexLess(Canonical(a), Canonical(b)) &&
             LexLess(Canonical(b), Canonical(c))
    ensures InZone(b, zone)
  {
    hide RootLabels, LexLess, LabelsLess, InZone, Join, Absolute;
    InsideIsUnder(a, zone);
    InsideIsUnder(c, zone);
    CanonicalOrder(a, b);
    CanonicalOrder(b, c);
    LabelsBlock(RootLabels(zone), RootLabels(a), RootLabels(b), RootLabels(c));
    UnderIsInside(b, zone);
  }
}
