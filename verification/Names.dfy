/** Domain names as the service validates them (internal/validate/names.go), and the
containment relation the whole ownership model rests on (internal/store/models.go,
internal/memstore/memstore.go).

A canonical name is lower-case printable ASCII with exactly one trailing dot. */
module Names {
  import opened Strings
  import opened Wrappers

  const MAX_NAME := 253
  const MAX_LABEL := 63
  const V4_SUFFIX := "in-addr.arpa."
  const V6_SUFFIX := "ip6.arpa."

  // ----- containment

  /** The name equals the zone or lies inside it. */
  predicate InZone(name: string, zone: string) {
    name == zone || HasSuffix(name, "." + zone)
  }

  /** Equal, or one contains the other: the conflict predicate between tenants. */
  predicate Overlaps(a: string, b: string) {
    a == b || HasSuffix(a, "." + b) || HasSuffix(b, "." + a)
  }

  lemma DottedSuffix(a: string, b: string)
    requires HasSuffix(a, b)
    ensures HasSuffix("." + a, b)
    ensures a == b ==> HasSuffix("." + a, "." + b)
  {
    var s := "." + a;
    assert s[|s| - |b|..] == a[|a| - |b|..];
  }

  lemma InZoneTransitive(a: string, b: string, c: string)
    requires InZone(a, b) && InZone(b, c)
    ensures InZone(a, c)
  {
    if a != b && b != c {
      DottedSuffix(b, "." + c);
      SuffixTransitive(a, "." + b, "." + c);
    }
  }

  /** Two zones that contain one name are nested, hence overlap; equally long ones are equal. */
  lemma ZonesOfNameNest(name: string, a: string, b: string)
    requires InZone(name, a) && InZone(name, b)
    ensures |a| <= |b| ==> InZone(b, a)
    ensures |a| == |b| ==> a == b
    ensures Overlaps(a, b)
  {
    if |a| <= |b| {
      NestShorter(name, a, b);
    } else {
      NestShorter(name, b, a);
    }
  }

  lemma NestShorter(name: string, a: string, b: string)
    requires InZone(name, a) && InZone(name, b) && |a| <= |b|
    ensures InZone(b, a)
    ensures |a| == |b| ==> a == b
  {
    if name == b {
    } else if name == a {
      assert false;
    } else {
      SuffixesNest(name, "." + a, "." + b);
      var db := "." + b;
      if |a| == |b| {
        assert db[1..] == b && ("." + a)[1..] == a;
      } else {
        assert b[|b| - (|a| + 1)..] == db[|db| - (|a| + 1)..];
      }
    }
  }

  /** Overlap is containment one way or the other. */
  lemma OverlapsIsNesting(a: string, b: string)
    ensures Overlaps(a, b) <==> InZone(a, b) || InZone(b, a)
    ensures Overlaps(a, b) <==> Overlaps(b, a)
  {
  }

  // ----- label syntax

  predicate Digit(c: char) { '0' <= c <= '9' }

  predicate LabelChar(c: char, underscore: bool) {
    'a' <= c <= 'z' || Digit(c) || c == '-' || (c == '_' && underscore)
  }

  /** 1 to 63 characters of [a-z0-9_-], no hyphen at either end. */
  predicate LabelOK(l: string, underscore: bool) {
    && 1 <= |l| <= MAX_LABEL
    && l[0] != '-' && l[|l| - 1] != '-'
    && forall i :: 0 <= i < |l| ==> LabelChar(l[i], underscore)
  }

  predicate Printable(c: char) { 0x21 <= c as int <= 0x7e }

  function Fqdn(s: string): string {
    if HasSuffix(s, ".") then s else s + "."
  }

  predicate DoubleDot(s: string) {
    exists i {:trigger s[i]} :: 0 <= i < |s| - 1 && s[i] == '.' && s[i + 1] == '.'
  }

  /** The labels of an absolute name. */
  function Labels(fq: string): (ls: seq<string>)
    requires fq != ""
    ensures |ls| >= 1
  {
    Split(fq[..|fq| - 1], '.')
  }

  /** Trims, lower-cases and qualifies; the root, empty labels, backslashes,
  non-printable characters and names over 253 characters are refused. */
  function SplitName(raw: string): (r: Option<string>)
    ensures r.Some? ==> |r.value| >= 2 && HasSuffix(r.value, ".")
  {
    var s := Lower(Trim(raw));
    if s == "" || s == "." || exists c :: c in s && !Printable(c) then None
    else
      var fq := Fqdn(s);
      if fq[0] == '.' || DoubleDot(fq) || '\\' in fq || |fq| - 1 > MAX_NAME then None
      else Some(fq)
  }

  predicate ZoneLabels(ls: seq<string>) {
    forall i :: 0 <= i < |ls| ==> LabelOK(ls[i], i > 0)
  }

  function CanonicalZone(raw: string): (r: Option<string>)
    ensures r.Some? ==> |r.value| >= 2
  {
    var fq := SplitName(raw);
    if fq.Some? && ZoneLabels(Labels(fq.value)) then fq else None
  }

  predicate OwnerLabels(ls: seq<string>) {
    forall i :: 0 <= i < |ls| ==> (i == 0 && ls[i] == "*") || LabelOK(ls[i], true)
  }

  /** Qualifies a record owner name against `zone`: "" and "@" are the apex, a name
  without a trailing dot is relative. */
  function RecordName(zone: string, name: string): (r: Option<string>)
  {
    var z := CanonicalZone(zone);
    var n := Trim(name);
    if z.None? then None
    else if n == "" || n == "@" then z
    else if !HasSuffix(n, ".") && n[0] == '.' then None
    else
      var fq := SplitName(if HasSuffix(n, ".") then n else n + "." + z.value);
      if fq.Some? && OwnerLabels(Labels(fq.value)) && InZone(fq.value, z.value) then fq else None
  }

  /** The value of a decimal text. */
  function DecimalValue(s: string): nat
    requires forall c :: c in s ==> Digit(c)
  {
    if s == "" then 0
    else
      assert Digit(s[|s| - 1]);
      DecimalValue(s[..|s| - 1]) * 10 + (s[|s| - 1] as int - '0' as int)
  }

  /** strconv.Atoi succeeds on a label: digits only, within 64 bits. */
  predicate Numeric(l: string) {
    l != "" && (forall c :: c in l ==> Digit(c)) && DecimalValue(l) < 0x8000_0000_0000_0000
  }

  predicate HostLabels(ls: seq<string>) {
    |ls| >= 2 && (forall i :: 0 <= i < |ls| ==> LabelOK(ls[i], false)) && !Numeric(ls[|ls| - 1])
  }

  function Hostname(raw: string): Option<string>
  {
    var fq := SplitName(raw);
    if fq.Some? && HostLabels(Labels(fq.value)) then fq else None
  }

  // ----- reverse trees

  predicate IsReverse(zone: string) {
    HasSuffix(zone, "." + V4_SUFFIX) || HasSuffix(zone, "." + V6_SUFFIX)
  }

  function Itoa(n: nat): (s: string)
    ensures |s| >= 1
    ensures forall c :: c in s ==> Digit(c)
  {
    var last := [('0' as int + n % 10) as char];
    if n < 10 then last else Itoa(n / 10) + last
  }

  predicate DecimalOctet(l: string) {
    l != "" && (forall c :: c in l ==> Digit(c)) && DecimalValue(l) <= 255 && Itoa(DecimalValue(l)) == l
  }

  predicate HexDigit(c: char) { Digit(c) || 'a' <= c <= 'f' }

  predicate HexNibble(l: string) {
    |l| == 1 && HexDigit(l[0])
  }

  /** Under in-addr.arpa. at most four decimal octets without leading zeros, under
  ip6.arpa. at most 32 hex nibbles. */
  predicate ReverseOK(zone: string) {
    if HasSuffix(zone, "." + V4_SUFFIX) then
      var ls := Split(TrimSuffix(zone, "." + V4_SUFFIX), '.');
      |ls| <= 4 && forall l :: l in ls ==> DecimalOctet(l)
    else
      var ls := Split(TrimSuffix(zone, "." + V6_SUFFIX), '.');
      |ls| <= 32 && forall l :: l in ls ==> HexNibble(l)
  }

  /** A zone name a tenant may claim. `isSuffix` is the Public Suffix List: whether a name
  without its trailing dot is itself a public suffix. */
  function ZoneName(isSuffix: string -> bool, raw: string): (r: Option<string>)
  {
    var z := CanonicalZone(raw);
    if z.None? then None
    else if IsReverse(z.value) then (if ReverseOK(z.value) then z else None)
    else if isSuffix(TrimSuffix(z.value, ".")) then None
    else z
  }

  // ----- canonical forms are fixed points

  predicate AllPrintable(s: string) { forall c :: c in s ==> Printable(c) }

  /** What SplitName accepts unchanged. */
  predicate CanonicalText(fq: string) {
    && 2 <= |fq| <= MAX_NAME + 1 && HasSuffix(fq, ".") && fq[0] != '.' && !DoubleDot(fq)
    && AllPrintable(fq) && '\\' !in fq && Lower(fq) == fq
  }

  lemma CanonicalTextKept(fq: string)
    requires CanonicalText(fq)
    ensures SplitName(fq) == Some(fq)
  {
    TrimKeeps(fq);
  }

  lemma SplitNameCanonical(raw: string)
    ensures SplitName(raw).Some? ==> CanonicalText(SplitName(raw).value)
  {
    var r := SplitName(raw);
    if r.Some? {
      var s := Lower(Trim(raw));
      LowerIdempotent(Trim(raw));
      assert Lower(".") == ".";
      assert Lower(r.value) == r.value;
      assert forall c :: c in r.value ==> c in s || c == '.';
    }
  }

  /** A name SplitName returned passes again unchanged; so do zone, host and owner names. */
  lemma SplitNameIdempotent(raw: string)
    ensures SplitName(raw).Some? ==> SplitName(SplitName(raw).value) == SplitName(raw)
  {
    SplitNameCanonical(raw);
    if SplitName(raw).Some? { CanonicalTextKept(SplitName(raw).value); }
  }

  lemma ZoneNameIdempotent(isSuffix: string -> bool, raw: string)
    ensures CanonicalZone(raw).Some? ==> CanonicalZone(CanonicalZone(raw).value) == CanonicalZone(raw)
    ensures ZoneName(isSuffix, raw).Some? ==>
              var z := ZoneName(isSuffix, raw).value;
              CanonicalZone(z) == Some(z) && ZoneName(isSuffix, z) == Some(z) && CanonicalText(z)
  {
    SplitNameIdempotent(raw);
    SplitNameCanonical(raw);
  }

  lemma HostnameIdempotent(raw: string)
    ensures Hostname(raw).Some? ==>
              var h := Hostname(raw).value;
              Hostname(h) == Some(h) && CanonicalText(h) && OwnerLabels(Labels(h))
  {
    SplitNameIdempotent(raw);
    SplitNameCanonical(raw);
    if Hostname(raw).Some? {
      var ls := Labels(Hostname(raw).value);
      assert forall i :: 0 <= i < |ls| ==> LabelOK(ls[i], false) ==> LabelOK(ls[i], true);
    }
  }

  /** An absolute canonical owner inside a canonical zone is its own record name. */
  lemma RecordNameAbsolute(zone: string, fq: string)
    requires CanonicalZone(zone) == Some(zone)
    requires CanonicalText(fq) && OwnerLabels(Labels(fq)) && InZone(fq, zone)
    ensures RecordName(zone, fq) == Some(fq)
  {
    TrimKeeps(fq);
    CanonicalTextKept(fq);
    assert fq != "@" by { assert fq[|fq| - 1..] == "."; }
  }

  /** Every accepted record name is canonical, inside the zone and its own record name. */
  lemma RecordNameSound(zone: string, name: string)
    requires CanonicalZone(zone) == Some(zone)
    ensures RecordName(zone, name).Some? ==>
              var fq := RecordName(zone, name).value;
              CanonicalText(fq) && OwnerLabels(Labels(fq)) && InZone(fq, zone) && RecordName(zone, fq) == Some(fq)
  {
    var r := RecordName(zone, name);
    if r.Some? {
      var n := Trim(name);
      if n == "" || n == "@" {
        SplitNameCanonical(zone);
        ZoneLabelsAreOwnerLabels(Labels(zone));
      } else {
        SplitNameCanonical(if HasSuffix(n, ".") then n else n + "." + zone);
      }
      RecordNameAbsolute(zone, r.value);
    }
  }

  lemma ZoneLabelsAreOwnerLabels(ls: seq<string>)
    requires ZoneLabels(ls)
    ensures OwnerLabels(ls)
  {
    forall i | 0 <= i < |ls|
      ensures LabelOK(ls[i], true)
    {
      assert LabelOK(ls[i], i > 0);
    }
  }
}
