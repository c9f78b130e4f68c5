/** Reverse-tree names of addresses (internal/ipamsync/plan.go): the PTR owner of an address
and the reverse zone sized from its subnet prefix (section 3.5 of RFC 1035, section 2.5 of
RFC 3596). */
module ReverseNames {
  import opened Strings
  import opened Names
  import opened Wrappers

  type Byte = x: int | 0 <= x < 256

  datatype Addr = V4(octets: seq<Byte>) | V6(octets: seq<Byte>)

  predicate ValidAddr(a: Addr) {
    |a.octets| == if a.V4? then 4 else 16
  }

  /** An IPv4-mapped IPv6 address is its IPv4 address. */
  function Unmap(a: Addr): (r: Addr)
    requires ValidAddr(a)
    ensures ValidAddr(r)
  {
    if a.V6? && (forall i :: 0 <= i < 10 ==> a.octets[i] == 0) && a.octets[10] == 255 && a.octets[11] == 255
    then V4(a.octets[12..])
    else a
  }

  function Nibble(n: int): (s: string)
    requires 0 <= n < 16
    ensures HexNibble(s)
  {
    if n < 10 then [('0' as int + n) as char] else [('a' as int + n - 10) as char]
  }

  function NibbleAt(octets: seq<Byte>, i: nat): (n: int)
    requires i < 2 * |octets|
    ensures 0 <= n < 16
  {
    if i % 2 == 0 then octets[i / 2] / 16 else octets[i / 2] % 16
  }

  /** The labels of an address from the most significant part: four octets or 32 nibbles. */
  function PartCount(a: Addr): nat { if a.V4? then 4 else 32 }

  function Part(a: Addr, i: nat): string
    requires ValidAddr(a) && i < PartCount(a)
  {
    if a.V4? then Itoa(a.octets[i]) else Nibble(NibbleAt(a.octets, i))
  }

  function Parts(a: Addr): (ps: seq<string>)
    requires ValidAddr(a)
    ensures |ps| == PartCount(a)
  {
    seq(PartCount(a), i requires 0 <= i < PartCount(a) => Part(a, i))
  }

  function Suffix(a: Addr): string { if a.V4? then V4_SUFFIX else V6_SUFFIX }

  /** The parts from the last to the first, each followed by a dot, then the suffix. */
  function ReverseOf(parts: seq<string>, suffix: string): string {
    if parts == [] then suffix
    else parts[|parts| - 1] + "." + ReverseOf(parts[..|parts| - 1], suffix)
  }

  method ReverseName(parts: seq<string>, suffix: string) returns (name: string)
    ensures name == ReverseOf(parts, suffix)
  {
    name := "";
    var i := |parts|;
    assert parts[..i] == parts;
    while i > 0
      invariant 0 <= i <= |parts|
      invariant name + ReverseOf(parts[..i], suffix) == ReverseOf(parts, suffix)
    {
      i := i - 1;
      assert parts[..i + 1][..i] == parts[..i];
      assert name + (parts[i] + "." + ReverseOf(parts[..i], suffix)) ==
             name + parts[i] + "." + ReverseOf(parts[..i], suffix);
      name := name + parts[i] + ".";
    }
    name := name + suffix;
  }

  function PTROwner(addr: Addr): string
    requires ValidAddr(addr)
  {
    var a := Unmap(addr);
    ReverseOf(Parts(a), Suffix(a))
  }

  function Unit(a: Addr): nat { if a.V4? then 8 else 4 }
  function LowClamp(a: Addr): nat { if a.V4? then 8 else 4 }
  function HighClamp(a: Addr): nat { if a.V4? then 24 else 64 }
  function FullLength(a: Addr): nat { if a.V4? then 32 else 128 }

  /** The number of leading parts of the zone: the prefix rounded down and clamped. */
  function ZoneParts(a: Addr, prefix: int): (k: nat)
    ensures 1 <= k < PartCount(a)
    ensures LowClamp(a) <= prefix <= FullLength(a) ==> k * Unit(a) <= prefix
  {
    var p := if prefix < 0 || prefix > FullLength(a) then HighClamp(a) else prefix;
    var down := p / Unit(a) * Unit(a);
    var bits := if down < LowClamp(a) then LowClamp(a) else if down > HighClamp(a) then HighClamp(a) else down;
    bits / Unit(a)
  }

  function ReverseZone(addr: Addr, prefix: int): string
    requires ValidAddr(addr)
  {
    var a := Unmap(addr);
    ReverseOf(Parts(a)[..ZoneParts(a, prefix)], Suffix(a))
  }

  // ----- shape

  /** Lower-case labels and single dots only, ending in a dot. */
  predicate Tidy(s: string) {
    && |s| >= 2 && HasSuffix(s, ".") && s[0] != '.' && !DoubleDot(s)
    && forall i :: 0 <= i < |s| ==> s[i] == '.' || LabelChar(s[i], false)
  }

  predicate PlainLabel(l: string) {
    1 <= |l| <= 3 && forall i :: 0 <= i < |l| ==> HexDigit(l[i])
  }

  lemma PlainLabelFacts(l: string)
    requires PlainLabel(l)
    ensures LabelOK(l, true) && LabelOK(l, false) && '.' !in l
  {
  }

  lemma TidyCanonical(s: string)
    requires Tidy(s) && |s| <= MAX_NAME + 1
    ensures CanonicalText(s)
  {
    forall i | 0 <= i < |s| ensures LowerChar(s[i]) == s[i] && Printable(s[i]) && s[i] != '\\' {}
    assert Lower(s) == s;
  }

  lemma TidyPrepend(l: string, rest: string)
    requires PlainLabel(l) && Tidy(rest)
    ensures Tidy(l + "." + rest)
  {
    var s := l + "." + rest;
    assert forall i :: 0 <= i < |l| ==> s[i] == l[i];
    assert forall i :: |l| < i < |s| ==> s[i] == rest[i - |l| - 1];
    assert s[|s| - 1..] == rest[|rest| - 1..];
    forall i | 0 <= i < |s| - 1 ensures !(s[i] == '.' && s[i + 1] == '.') {
      if i > |l| { assert rest[i - |l| - 1] == s[i] && rest[i - |l|] == s[i + 1]; }
    }
  }

  lemma LabelsCons(l: string, rest: string)
    requires '.' !in l && rest != ""
    ensures Labels(l + "." + rest) == [l] + Labels(rest)
  {
    var s := l + "." + rest;
    assert s[..|s| - 1] == l + "." + rest[..|rest| - 1];
    SplitCons(l, '.', rest[..|rest| - 1]);
  }

  lemma SuffixLabels()
    ensures Tidy(V4_SUFFIX) && Labels(V4_SUFFIX) == ["in-addr", "arpa"]
    ensures Tidy(V6_SUFFIX) && Labels(V6_SUFFIX) == ["ip6", "arpa"]
  {
    SuffixTidy();
    hide Tidy;
    SplitOne("arpa", '.');
    SplitCons("in-addr", '.', "arpa");
    SplitCons("ip6", '.', "arpa");
    assert V4_SUFFIX[..|V4_SUFFIX| - 1] == "in-addr" + "." + "arpa";
    assert V6_SUFFIX[..|V6_SUFFIX| - 1] == "ip6" + "." + "arpa";
  }

  lemma SuffixTidy()
    ensures Tidy(V4_SUFFIX) && Tidy(V6_SUFFIX)
  {
    assert V4_SUFFIX[12..] == "." && V6_SUFFIX[8..] == ".";
  }

  function Reversed(parts: seq<string>): (r: seq<string>)
    ensures |r| == |parts|
    ensures forall i :: 0 <= i < |r| ==> r[i] == parts[|parts| - 1 - i]
  {
    if parts == [] then [] else [parts[|parts| - 1]] + Reversed(parts[..|parts| - 1])
  }

  predicate PlainLabels(parts: seq<string>) {
    forall i :: 0 <= i < |parts| ==> PlainLabel(parts[i])
  }

  /** The name of plain parts is tidy and its labels are the parts reversed, then the suffix's. */
  lemma {:induction false} ReverseOfShape(parts: seq<string>, suffix: string)
    requires PlainLabels(parts) && Tidy(suffix)
    ensures Tidy(ReverseOf(parts, suffix))
    ensures Labels(ReverseOf(parts, suffix)) == Reversed(parts) + Labels(suffix)
    ensures |ReverseOf(parts, suffix)| <= 4 * |parts| + |suffix|
    decreases |parts|
  {
    if parts != [] {
      var n := |parts| - 1;
      ReverseOfShape(parts[..n], suffix);
      PlainLabelFacts(parts[n]);
      TidyPrepend(parts[n], ReverseOf(parts[..n], suffix));
      LabelsCons(parts[n], ReverseOf(parts[..n], suffix));
      assert [parts[n]] + (Reversed(parts[..n]) + Labels(suffix)) == Reversed(parts) + Labels(suffix);
    } else {
      assert Reversed(parts) + Labels(suffix) == Labels(suffix);
    }
  }

  lemma {:induction false} ReverseOfNested(parts: seq<string>, k: nat, suffix: string)
    requires k <= |parts|
    ensures InZone(ReverseOf(parts, suffix), ReverseOf(parts[..k], suffix))
    decreases |parts|
  {
    if k == |parts| {
      assert parts[..k] == parts;
    } else {
      var n := |parts| - 1;
      ReverseOfNested(parts[..n], k, suffix);
      assert parts[..n][..k] == parts[..k];
      var rest := ReverseOf(parts[..n], suffix);
      var s := parts[n] + "." + rest;
      assert s[|s| - (|rest| + 1)..] == "." + rest;
      InZoneTransitive(s, rest, ReverseOf(parts[..k], suffix));
    }
  }

  lemma {:induction false} ReverseOfJoined(parts: seq<string>, suffix: string)
    requires parts != []
    ensures ReverseOf(parts, suffix) == Join(Reversed(parts), ".") + "." + suffix
    decreases |parts|
  {
    var n := |parts| - 1;
    var init, last := parts[..n], parts[n];
    if n == 0 {
      assert ReverseOf([], suffix) == suffix && Reversed(parts) == [last];
    } else {
      ReverseOfJoined(init, suffix);
      JoinCons(last, Reversed(init));
      assert Reversed(parts) == [last] + Reversed(init);
      assert last + "." + (Join(Reversed(init), ".") + "." + suffix) ==
             (last + "." + Join(Reversed(init), ".")) + "." + suffix;
    }
  }

  lemma JoinCons(l: string, rest: seq<string>)
    requires rest != []
    ensures Join([l] + rest, ".") == l + "." + Join(rest, ".")
  {
    assert ([l] + rest)[1..] == rest;
  }

  // ----- octet and nibble texts

  lemma OctetText(n: Byte)
    ensures PlainLabel(Itoa(n)) && DecimalOctet(Itoa(n)) && DecimalValue(Itoa(n)) == n
  {
    if n >= 10 {
      var m := n / 10;
      if m >= 10 { assert Itoa(m / 10) == [('0' as int + m / 10) as char]; }
      ItoaValue(m);
    }
    ItoaValue(n);
  }

  lemma {:induction false} ItoaValue(n: nat)
    ensures DecimalValue(Itoa(n)) == n
  {
    if n < 10 {
      assert DecimalValue(Itoa(n)[..0]) == 0;
    } else {
      ItoaValue(n / 10);
      assert Itoa(n)[..|Itoa(n)| - 1] == Itoa(n / 10);
    }
  }

  lemma NibbleInjective(a: int, b: int)
    requires 0 <= a < 16 && 0 <= b < 16 && Nibble(a) == Nibble(b)
    ensures a == b
  {
    assert Nibble(a)[0] == Nibble(b)[0];
  }

  lemma PartsPlain(a: Addr)
    requires ValidAddr(a)
    ensures PlainLabels(Parts(a))
    ensures forall i :: 0 <= i < PartCount(a) ==> if a.V4? then DecimalOctet(Parts(a)[i]) else HexNibble(Parts(a)[i])
  {
    if a.V4? {
      forall i | 0 <= i < 4 ensures PlainLabel(Parts(a)[i]) && DecimalOctet(Parts(a)[i]) { OctetText(a.octets[i]); }
    }
  }

  // ----- the theorems

  /** The PTR owner of every address is a canonical owner name inside its reverse zone, for
  every integer prefix, and the reverse zone is a zone name a tenant may claim. */
  lemma ReverseZoneHoldsOwner(isSuffix: string -> bool, addr: Addr, prefix: int)
    requires ValidAddr(addr)
    ensures InZone(PTROwner(addr), ReverseZone(addr, prefix))
    ensures CanonicalText(PTROwner(addr)) && OwnerLabels(Labels(PTROwner(addr)))
    ensures ZoneName(isSuffix, ReverseZone(addr, prefix)) == Some(ReverseZone(addr, prefix))
    ensures IsReverse(ReverseZone(addr, prefix)) && IsReverse(PTROwner(addr))
  {
    hide ReverseOK;
    var a := Unmap(addr);
    var k := ZoneParts(a, prefix);
    ReverseOfNested(Parts(a), k, Suffix(a));
    OwnerShape(a);
    ZoneShape(a, k);
    TreeName(Parts(a), Suffix(a));
    CanonicalTextKept(ReverseZone(addr, prefix));
  }

  lemma OwnerShape(a: Addr)
    requires ValidAddr(a)
    ensures CanonicalText(ReverseOf(Parts(a), Suffix(a))) && OwnerLabels(Labels(ReverseOf(Parts(a), Suffix(a))))
  {
    PartsPlain(a);
    SuffixLabels();
    ReverseOfShape(Parts(a), Suffix(a));
    TidyCanonical(ReverseOf(Parts(a), Suffix(a)));
    LabelsOfReverse(Parts(a), Suffix(a));
  }

  lemma LabelsOfReverse(parts: seq<string>, suffix: string)
    requires PlainLabels(parts) && (suffix == V4_SUFFIX || suffix == V6_SUFFIX)
    requires Labels(ReverseOf(parts, suffix)) == Reversed(parts) + Labels(suffix)
    ensures ZoneLabels(Labels(ReverseOf(parts, suffix))) && OwnerLabels(Labels(ReverseOf(parts, suffix)))
  {
    hide LabelOK;
    SuffixLabels();
    SuffixLabelsOK();
    var ls := Labels(ReverseOf(parts, suffix));
    forall i | 0 <= i < |ls| ensures LabelOK(ls[i], true) && LabelOK(ls[i], false) {
      if i < |parts| {
        PlainLabelFacts(parts[|parts| - 1 - i]);
      } else {
        assert ls[i] == Labels(suffix)[i - |parts|];
      }
    }
    forall i | 0 <= i < |ls| ensures LabelOK(ls[i], i > 0) { assert LabelOK(ls[i], true) && LabelOK(ls[i], false); }
  }

  lemma SuffixLabelsOK()
    ensures forall u :: LabelOK("in-addr", u) && LabelOK("ip6", u) && LabelOK("arpa", u)
  {
  }

  lemma ZoneShape(a: Addr, k: nat)
    requires ValidAddr(a) && 1 <= k <= PartCount(a)
    ensures var z := ReverseOf(Parts(a)[..k], Suffix(a));
            CanonicalText(z) && ZoneLabels(Labels(z)) && IsReverse(z) && ReverseOK(z)
  {
    var parts := Parts(a)[..k];
    PartsPlain(a);
    assert PlainLabels(parts);
    SuffixLabels();
    ReverseOfShape(parts, Suffix(a));
    TidyCanonical(ReverseOf(parts, Suffix(a)));
    LabelsOfReverse(parts, Suffix(a));
    TreeName(parts, Suffix(a));
    ReverseLabelsOK(a, parts);
  }

  lemma TreeName(parts: seq<string>, suffix: string)
    requires parts != [] && (suffix == V4_SUFFIX || suffix == V6_SUFFIX)
    ensures HasSuffix(ReverseOf(parts, suffix), "." + suffix) && IsReverse(ReverseOf(parts, suffix))
  {
    var n := |parts| - 1;
    ReverseOfJoined(parts, suffix);
    var s := Join(Reversed(parts), ".") + "." + suffix;
    assert s[|s| - |"." + suffix|..] == "." + suffix;
  }

  lemma V6NotV4(s: string)
    ensures HasSuffix(s, "." + V6_SUFFIX) ==> !HasSuffix(s, "." + V4_SUFFIX)
  {
    if HasSuffix(s, "." + V6_SUFFIX) {
      var six, four := s[|s| - 10..], "." + V4_SUFFIX;
      assert six[0] == '.';
      assert |s| >= 14 ==> s[|s| - 14..][4] == six[0] && four[4] == 'a';
    }
  }

  /** The labels of a reverse name before its tree are the parts, last first. */
  lemma ReverseLabels(a: Addr, parts: seq<string>)
    requires parts != [] && PlainLabels(parts)
    ensures var z := ReverseOf(parts, Suffix(a));
            HasSuffix(z, "." + Suffix(a)) && Split(TrimSuffix(z, "." + Suffix(a)), '.') == Reversed(parts)
  {
    hide Join, Split, ReverseOf, PlainLabels;
    var z := ReverseOf(parts, Suffix(a));
    ReverseOfJoined(parts, Suffix(a));
    TreeName(parts, Suffix(a));
    var text := Join(Reversed(parts), ".");
    assert z[..|z| - |"." + Suffix(a)|] == text;
    PlainReversed(parts);
    SplitJoin(Reversed(parts), '.');
  }

  lemma PlainReversed(parts: seq<string>)
    requires PlainLabels(parts)
    ensures forall p :: p in Reversed(parts) ==> '.' !in p
  {
    forall p | p in Reversed(parts) ensures '.' !in p {
      var i :| 0 <= i < |parts| && Reversed(parts)[i] == p;
      PlainLabelFacts(parts[|parts| - 1 - i]);
    }
  }

  lemma ReverseLabelsOK(a: Addr, parts: seq<string>)
    requires ValidAddr(a) && 1 <= |parts| <= PartCount(a) && PlainLabels(parts)
    requires forall i :: 0 <= i < |parts| ==> if a.V4? then DecimalOctet(parts[i]) else HexNibble(parts[i])
    ensures ReverseOK(ReverseOf(parts, Suffix(a)))
  {
    hide Split, DecimalOctet, HexNibble, ReverseOf, PlainLabels, HasSuffix, TrimSuffix;
    ReverseLabels(a, parts);
    V6NotV4(ReverseOf(parts, Suffix(a)));
    forall l | l in Reversed(parts) ensures l in parts {
      var i :| 0 <= i < |parts| && Reversed(parts)[i] == l;
    }
  }

  /** The first n bits of two addresses of one family are equal. */
  ghost predicate SameSubnet(a: Addr, b: Addr, n: nat)
    requires ValidAddr(a) && ValidAddr(b) && a.V4? == b.V4? && n <= FullLength(a)
  {
    && (forall i :: 0 <= i < n / 8 ==> a.octets[i] == b.octets[i])
    && (n % 8 != 0 ==> a.octets[n / 8] / Pow2(8 - n % 8) == b.octets[n / 8] / Pow2(8 - n % 8))
  }

  function Pow2(k: nat): (r: nat)
    ensures r >= 1
  {
    if k == 0 then 1 else 2 * Pow2(k - 1)
  }

  lemma HighNibble(x: Byte, y: Byte, m: nat)
    requires 4 <= m < 8 && x / Pow2(8 - m) == y / Pow2(8 - m)
    ensures x / 16 == y / 16
  {
    hide Pow2;
    SmallPowers();
    Coarser(x);
    Coarser(y);
    if m == 4 {} else if m == 5 {} else if m == 6 {} else {}
  }

  lemma SmallPowers()
    ensures Pow2(1) == 2 && Pow2(2) == 4 && Pow2(3) == 8 && Pow2(4) == 16
  {
    assert Pow2(0) == 1;
  }

  lemma Coarser(x: Byte)
    ensures x / 16 == x / 8 / 2 && x / 16 == x / 4 / 4 && x / 16 == x / 2 / 8
  {
  }

  lemma SameLeadingParts(a: Addr, b: Addr, n: nat, k: nat, i: nat)
    requires ValidAddr(a) && ValidAddr(b) && a.V4? == b.V4? && n <= FullLength(a) && SameSubnet(a, b, n)
    requires k * Unit(a) <= n && i < k && k <= PartCount(a)
    ensures Part(a, i) == Part(b, i)
  {
    if a.V6? && i / 2 == n / 8 {
      HighNibble(a.octets[i / 2], b.octets[i / 2], n % 8);
    }
  }

  /** For any prefix from the lower clamp to full length, all addresses of the subnet get the
  same reverse zone. */
  lemma SubnetSharesZone(x: Addr, y: Addr, prefix: nat)
    requires ValidAddr(x) && ValidAddr(y) && Unmap(x).V4? == Unmap(y).V4?
    requires LowClamp(Unmap(x)) <= prefix <= FullLength(Unmap(x)) && SameSubnet(Unmap(x), Unmap(y), prefix)
    ensures ReverseZone(x, prefix) == ReverseZone(y, prefix)
  {
    var a, b := Unmap(x), Unmap(y);
    var k := ZoneParts(a, prefix);
    forall i | 0 <= i < k ensures Parts(a)[i] == Parts(b)[i] {
      SameLeadingParts(a, b, prefix, k, i);
    }
    assert Parts(a)[..k] == Parts(b)[..k];
  }

  /** The value with bit `m` (a power of two) the other way. */
  function Flip(x: Byte, m: nat): (y: int)
    requires m == 1 || m == 16
  {
    if x / m % 2 == 0 then x + m else x - m
  }

  lemma FlipFacts(x: Byte, m: nat)
    requires m == 1 || m == 16
    ensures 0 <= Flip(x, m) < 256 && Flip(x, m) / m != x / m && Flip(x, m) / (2 * m) == x / (2 * m)
  {
  }

  lemma Halved(x: Byte)
    ensures x / 4 == x / 2 / 2 && x / 8 == x / 4 / 2 && x / 16 == x / 8 / 2 && x / 32 == x / 16 / 2
    ensures x / 64 == x / 32 / 2 && x / 128 == x / 64 / 2 && x / 256 == x / 128 / 2
  {
  }

  lemma LargerPowers()
    ensures Pow2(5) == 32 && Pow2(6) == 64 && Pow2(7) == 128 && Pow2(8) == 256
  {
    SmallPowers();
  }

  /** Equal quotients stay equal for larger powers. */
  lemma SameAbove(x: Byte, y: Byte, m: nat, k: nat)
    requires (m == 1 && x / 2 == y / 2) || (m == 5 && x / 32 == y / 32)
    requires m <= k <= 8
    ensures x / Pow2(k) == y / Pow2(k)
  {
    hide Pow2;
    SmallPowers();
    LargerPowers();
    Halved(x);
    Halved(y);
    assert k == 1 || k == 2 || k == 3 || k == 4 || k == 5 || k == 6 || k == 7 || k == 8;
  }

  /** An address of the same wide subnet that differs in its first part. */
  function Across(a: Addr): Addr
    requires ValidAddr(a)
  {
    FlipFacts(a.octets[0], 1);
    FlipFacts(a.octets[0], 16);
    if a.V4? then V4([Flip(a.octets[0], 1)] + a.octets[1..]) else V6([Flip(a.octets[0], 16), 1] + a.octets[2..])
  }

  lemma AcrossSubnet(a: Addr, prefix: nat)
    requires ValidAddr(a) && prefix < LowClamp(a)
    ensures ValidAddr(Across(a)) && Unmap(Across(a)) == Across(a) && Across(a).V4? == a.V4?
    ensures SameSubnet(a, Across(a), prefix) && Part(a, 0) != Part(Across(a), 0)
  {
    var b := Across(a);
    var x, y := a.octets[0], b.octets[0];
    SmallPowers();
    if a.V4? {
      FlipFacts(x, 1);
      SameAbove(x, y, 1, 8 - prefix);
      OctetText(x);
      OctetText(y);
    } else {
      FlipFacts(x, 16);
      assert b.octets[1] == 1;
      SameAbove(x, y, 5, 8 - prefix);
      if Part(a, 0) == Part(b, 0) { NibbleInjective(x / 16, y / 16); }
    }
  }

  lemma OnePart(p: string, q: string, suffix: string)
    requires ReverseOf([p], suffix) == ReverseOf([q], suffix)
    ensures p == q
  {
    assert [p][..0] == [] && [q][..0] == [];
    var s, t := p + "." + suffix, q + "." + suffix;
    assert s[..|p|] == p && t[..|q|] == q && |p| == |q|;
  }

  /** Below the clamp every subnet is wider than its zone: some address of it has another zone. */
  lemma WideSubnetSplits(x: Addr, prefix: nat)
    requires ValidAddr(x) && prefix < LowClamp(Unmap(x))
    ensures var y := Across(Unmap(x));
            && ValidAddr(y) && Unmap(y) == y && y.V4? == Unmap(x).V4? && SameSubnet(Unmap(x), y, prefix)
            && ReverseZone(x, prefix) != ReverseZone(y, prefix)
  {
    var a := Unmap(x);
    var y := Across(a);
    AcrossSubnet(a, prefix);
    assert ZoneParts(a, prefix) == 1 && ZoneParts(y, prefix) == 1;
    assert Parts(a)[..1] == [Part(a, 0)] && Parts(y)[..1] == [Part(y, 0)];
    if ReverseZone(x, prefix) == ReverseZone(y, prefix) { OnePart(Part(a, 0), Part(y, 0), Suffix(a)); }
  }

  /** A subnet has one reverse zone exactly from the lower clamp on. */
  lemma OneZoneFromClamp(x: Addr, prefix: nat)
    requires ValidAddr(x) && prefix <= FullLength(Unmap(x))
    ensures (forall y :: ValidAddr(y) && Unmap(y).V4? == Unmap(x).V4? && SameSubnet(Unmap(x), Unmap(y), prefix) ==>
               ReverseZone(x, prefix) == ReverseZone(y, prefix)) <==> LowClamp(Unmap(x)) <= prefix
  {
    hide ReverseZone, SameSubnet, Across;
    if LowClamp(Unmap(x)) <= prefix {
      forall y | ValidAddr(y) && Unmap(y).V4? == Unmap(x).V4? && SameSubnet(Unmap(x), Unmap(y), prefix)
        ensures ReverseZone(x, prefix) == ReverseZone(y, prefix)
      {
        SubnetSharesZone(x, y, prefix);
      }
    } else {
      WideSubnetSplits(x, prefix);
    }
  }

  /** Two addresses with one PTR owner are the same address, up to IPv4 mapping. */
  lemma PTROwnerInjective(x: Addr, y: Addr)
    requires ValidAddr(x) && ValidAddr(y) && PTROwner(x) == PTROwner(y)
    ensures Unmap(x) == Unmap(y)
  {
    var a, b := Unmap(x), Unmap(y);
    PartsPlain(a); PartsPlain(b);
    SuffixLabels();
    ReverseOfShape(Parts(a), Suffix(a));
    ReverseOfShape(Parts(b), Suffix(b));
    assert |Reversed(Parts(a)) + Labels(Suffix(a))| == |Reversed(Parts(b)) + Labels(Suffix(b))|;
    assert a.V4? == b.V4?;
    SameReversed(Parts(a), Labels(Suffix(a)), Parts(b), Labels(Suffix(b)));
    PartsInjective(a, b);
  }

  lemma SameReversed(a: seq<string>, x: seq<string>, b: seq<string>, y: seq<string>)
    requires |a| == |b| && Reversed(a) + x == Reversed(b) + y
    ensures a == b
  {
    assert Reversed(a) == (Reversed(a) + x)[..|a|] && Reversed(b) == (Reversed(b) + y)[..|b|];
    forall i | 0 <= i < |a| ensures a[i] == b[i] { ReversedAt(a, i); ReversedAt(b, i); }
  }

  lemma ReversedAt(a: seq<string>, i: nat)
    requires i < |a|
    ensures Reversed(a)[|a| - 1 - i] == a[i]
  {
  }

  lemma PartsInjective(a: Addr, b: Addr)
    requires ValidAddr(a) && ValidAddr(b) && a.V4? == b.V4? && Parts(a) == Parts(b)
    ensures a == b
  {
    assert forall i :: 0 <= i < PartCount(a) ==> Parts(a)[i] == Part(a, i) && Parts(b)[i] == Part(b, i);
    forall i | 0 <= i < |a.octets| ensures a.octets[i] == b.octets[i] {
      if a.V4? {
        assert Part(a, i) == Part(b, i);
        OctetText(a.octets[i]);
        OctetText(b.octets[i]);
      } else {
        assert Part(a, 2 * i) == Part(b, 2 * i) && Part(a, 2 * i + 1) == Part(b, 2 * i + 1);
        NibbleInjective(NibbleAt(a.octets, 2 * i), NibbleAt(b.octets, 2 * i));
        NibbleInjective(NibbleAt(a.octets, 2 * i + 1), NibbleAt(b.octets, 2 * i + 1));
        assert a.octets[i] == 16 * NibbleAt(a.octets, 2 * i) + NibbleAt(a.octets, 2 * i + 1);
        assert b.octets[i] == 16 * NibbleAt(b.octets, 2 * i) + NibbleAt(b.octets, 2 * i + 1);
      }
    }
    assert a.octets == b.octets;
  }
}
