/** Time-ordered row ids (internal/store/ids.go): UUIDv7 text, monotonic through the 12-bit
sequence of section 6.2 of RFC 9562 (method 1), in the layout of its section 5.7. */
module Ids {
  import opened Strings

  type Byte = b: int | 0 <= b < 256 witness 0

  const SEQ: int := 4096
  /** The random start leaves room to count up: eleven of the twelve bits. */
  const START: int := 2048
  const MS_LIMIT: int := 0x1_0000_0000_0000

  // ----- text

  function HexDigit(n: int): char
    requires 0 <= n < 16
  {
    if n < 10 then ('0' as int + n) as char else ('a' as int + n - 10) as char
  }

  /** The k-th hex digit of the bytes. */
  function Digit(b: seq<Byte>, k: nat): char
    requires k < 2 * |b|
  {
    if k % 2 == 0 then HexDigit(b[k / 2] / 16) else HexDigit(b[k / 2] % 16)
  }

  function Hex(b: seq<Byte>): (h: string)
    ensures |h| == 2 * |b| && forall k :: 0 <= k < |h| ==> h[k] == Digit(b, k)
  {
    seq(2 * |b|, k requires 0 <= k < 2 * |b| => Digit(b, k))
  }

  predicate Dash(j: int) { j == 8 || j == 13 || j == 18 || j == 23 }

  /** The hex digit at a place of the text, past the dashes before it. */
  function DigitAt(j: nat): int {
    j - (if j > 23 then 4 else if j > 18 then 3 else if j > 13 then 2 else if j > 8 then 1 else 0)
  }

  function Text(b: seq<Byte>): (t: string)
    requires |b| == 16
    ensures |t| == 36
  {
    var h := Hex(b);
    h[0..8] + "-" + h[8..12] + "-" + h[12..16] + "-" + h[16..20] + "-" + h[20..32]
  }

  lemma TextAt(b: seq<Byte>, j: nat)
    requires |b| == 16 && j < 36
    ensures 0 <= DigitAt(j) < 32 || Dash(j)
    ensures Text(b)[j] == if Dash(j) then '-' else Digit(b, DigitAt(j))
  {
    hide Digit;
  }

  // ----- order

  lemma {:induction false} LexFirst(a: string, b: string, i: nat)
    requires i < |a| && i < |b| && a[..i] == b[..i] && a[i] < b[i]
    ensures LexLess(a, b)
  {
    if i > 0 {
      assert a[0] == a[..i][0] && b[0] == b[..i][0];
      assert a[1..][..i - 1] == a[..i][1..] && b[1..][..i - 1] == b[..i][1..];
      LexFirst(a[1..], b[1..], i - 1);
    }
  }

  /** The first differing byte. */
  ghost predicate DiffersAt(a: seq<Byte>, b: seq<Byte>, i: nat) {
    i < |a| && i < |b| && a[..i] == b[..i] && a[i] < b[i]
  }

  function Value(b: seq<Byte>): nat {
    if b == [] then 0 else Value(b[..|b| - 1]) * 256 + b[|b| - 1]
  }

  /** Big-endian byte strings compare as their numbers. */
  lemma {:induction false} SmallerDiffers(a: seq<Byte>, b: seq<Byte>) returns (i: nat)
    requires |a| == |b| && Value(a) < Value(b)
    ensures DiffersAt(a, b, i)
  {
    var n := |a| - 1;
    if Value(a[..n]) < Value(b[..n]) {
      i := SmallerDiffers(a[..n], b[..n]);
      assert a[..n][..i] == a[..i] && b[..n][..i] == b[..i];
    } else {
      i := n;
      EqualValues(a[..n], b[..n]);
    }
  }

  lemma {:induction false} EqualValues(a: seq<Byte>, b: seq<Byte>)
    requires |a| == |b| && Value(a) == Value(b)
    ensures a == b
  {
    if a != [] {
      var n := |a| - 1;
      assert Value(a[..n]) == Value(b[..n]);
      EqualValues(a[..n], b[..n]);
      assert a == a[..n] + [a[n]] && b == b[..n] + [b[n]];
    }
  }

  /** The place of a hex digit in the text. */
  function PlaceOf(k: nat): (j: nat)
    ensures k < 32 ==> j < 36 && !Dash(j) && DigitAt(j) == k
  {
    k + (if k >= 20 then 4 else if k >= 16 then 3 else if k >= 12 then 2 else if k >= 8 then 1 else 0)
  }

  lemma HexOrder(a: int, b: int)
    requires 0 <= a < b < 16
    ensures HexDigit(a) < HexDigit(b)
  {
  }

  lemma DigitsDiffer(a: seq<Byte>, b: seq<Byte>, i: nat) returns (k: nat)
    requires |a| == |b| && DiffersAt(a, b, i)
    ensures k < 2 * |a| && Digit(a, k) < Digit(b, k)
    ensures forall m :: 0 <= m < k ==> Digit(a, m) == Digit(b, m)
  {
    hide HexDigit;
    var x, y := a[i], b[i];
    assert forall m: nat :: m < 2 * i ==> a[m / 2] == a[..i][m / 2] && b[m / 2] == b[..i][m / 2];
    if x / 16 < y / 16 {
      k := 2 * i;
      HexOrder(x / 16, y / 16);
    } else {
      k := 2 * i + 1;
      HexOrder(x % 16, y % 16);
      assert x / 16 == y / 16;
    }
  }

  /** The text of ids compares as their bytes. */
  lemma TextOrder(a: seq<Byte>, b: seq<Byte>, i: nat)
    requires |a| == |b| == 16 && DiffersAt(a, b, i)
    ensures LexLess(Text(a), Text(b))
  {
    hide Digit, Text, LexLess;
    var k := DigitsDiffer(a, b, i);
    var j := PlaceOf(k);
    TextAt(a, j);
    TextAt(b, j);
    forall m | 0 <= m < j ensures Text(a)[m] == Text(b)[m] {
      TextAt(a, m);
      TextAt(b, m);
    }
    assert Text(a)[..j] == Text(b)[..j];
    LexFirst(Text(a), Text(b), j);
  }

  // ----- the layout

  /** The byte of a number at a power of 256. */
  function ByteAt(n: int, unit: int): Byte
    requires unit > 0
  {
    n / unit % 256
  }

  /** 48 bits of milliseconds, version 7, 12 bits of sequence, variant 10, the rest random. */
  function Layout(ms: int, sequence: int, rnd: seq<Byte>): (b: seq<Byte>)
    requires 0 <= ms && 0 <= sequence < SEQ && |rnd| == 16
    ensures |b| == 16
  {
    [ByteAt(ms, 0x100_0000_0000), ByteAt(ms, 0x1_0000_0000), ByteAt(ms, 0x100_0000), ByteAt(ms, 0x1_0000),
     ByteAt(ms, 0x100), ByteAt(ms, 1),
     0x70 + sequence / 256, ByteAt(sequence, 1), rnd[8] % 64 + 128] + rnd[9..]
  }

  lemma Split48(ms: int)
    requires 0 <= ms < MS_LIMIT
    ensures ((((ms / 0x100_0000_0000 % 256 * 256 + ms / 0x1_0000_0000 % 256) * 256 + ms / 0x100_0000 % 256) * 256 +
              ms / 0x1_0000 % 256) * 256 + ms / 0x100 % 256) * 256 + ms % 256 == ms
  {
    var a := ms / 0x100;
    var b := ms / 0x1_0000;
    var c := ms / 0x100_0000;
    var d := ms / 0x1_0000_0000;
    var e := ms / 0x100_0000_0000;
    assert b == a / 256 && c == b / 256 && d == c / 256 && e == d / 256;
  }

  /** The first eight bytes are one number: milliseconds, then version and sequence. */
  lemma LeadingValue(ms: int, sequence: int, rnd: seq<Byte>)
    requires 0 <= ms < MS_LIMIT && 0 <= sequence < SEQ && |rnd| == 16
    ensures Value(Layout(ms, sequence, rnd)[..8]) == ms * 0x1_0000 + 0x7000 + sequence
  {
    var b := Layout(ms, sequence, rnd)[..8];
    Split48(ms);
    Value8(b);
  }

  function Up(v: int, b: int): int { v * 256 + b }

  lemma Value8(b: seq<Byte>)
    requires |b| == 8
    ensures Value(b) == Up(Up(Up(Up(Up(Up(Up(b[0], b[1]), b[2]), b[3]), b[4]), b[5]), b[6]), b[7])
  {
    assert b[..7][..6] == b[..6] && b[..6][..5] == b[..5] && b[..5][..4] == b[..4] && b[..4][..3] == b[..3];
    assert b[..3][..2] == b[..2] && b[..2][..1] == b[..1] && b[..1][..0] == [];
    assert Value(b[..1]) == b[0];
    assert Value(b[..2]) == Value(b[..1]) * 256 + b[1];
    assert Value(b[..3]) == Value(b[..2]) * 256 + b[2];
    assert Value(b[..4]) == Value(b[..3]) * 256 + b[3];
    assert Value(b[..5]) == Value(b[..4]) * 256 + b[4];
    assert Value(b[..6]) == Value(b[..5]) * 256 + b[5];
    assert Value(b[..7]) == Value(b[..6]) * 256 + b[6];
  }

  /** A later stamp gives a later text, whatever the random bytes. */
  lemma LaterText(ms: int, sequence: int, rnd: seq<Byte>, ms2: int, seq2: int, rnd2: seq<Byte>)
    requires 0 <= ms <= ms2 < MS_LIMIT && 0 <= sequence < SEQ && 0 <= seq2 < SEQ && |rnd| == 16 == |rnd2|
    requires ms < ms2 || sequence < seq2
    ensures LexLess(Text(Layout(ms, sequence, rnd)), Text(Layout(ms2, seq2, rnd2)))
  {
    hide Layout, Text, LexLess;
    var a, b := Layout(ms, sequence, rnd), Layout(ms2, seq2, rnd2);
    LeadingValue(ms, sequence, rnd);
    LeadingValue(ms2, seq2, rnd2);
    var i := SmallerDiffers(a[..8], b[..8]);
    assert a[..8][..i] == a[..i] && b[..8][..i] == b[..i];
    TextOrder(a, b, i);
  }

  // ----- minting

  class Minter {
    /** The last millisecond used and the sequence within it. */
    var last: int
    var sequence: int
    /** The largest clock reading, and the calls since it last moved the time forward. */
    ghost var largest: int
    ghost var calls: nat
    /** The reading that did, and the sequence it started from. */
    ghost var moved: int
    ghost var start: int

    constructor ()
      ensures Valid() && last == 0 && sequence == 0 && largest == 0 && calls == 0
    {
      last, sequence, largest, calls, moved, start := 0, 0, 0, 0, 0, 0;
    }

    ghost predicate Valid() reads this {
      && 0 <= last && 0 <= sequence < SEQ && 0 <= start < START
      && 0 <= moved <= largest && (last - moved) * SEQ + sequence == start + calls
    }

    /** The next stamp for a clock reading: a later millisecond with a random start, or the next
    in sequence, borrowing a millisecond when it is exhausted. */
    method Tick(now: int, rnd: seq<Byte>)
      requires Valid() && |rnd| == 16
      modifies this
      ensures Valid() && largest == (if now > old(largest) then now else old(largest))
      ensures last > old(last) || (last == old(last) && sequence > old(sequence))
      ensures now > old(last) ==> last == now && sequence == Up(rnd[6] % 8, rnd[7]) && calls == 0
      ensures now <= old(last) && old(sequence) + 1 < SEQ ==> last == old(last) && sequence == old(sequence) + 1
      ensures now <= old(last) && old(sequence) + 1 == SEQ ==> last == old(last) + 1 && sequence == 0
      ensures now <= old(last) ==> calls == old(calls) + 1
    {
      largest := if now > largest then now else largest;
      if now <= last {
        sequence := sequence + 1;
        calls := calls + 1;
        if sequence >= SEQ {
          last := last + 1;
          sequence := 0;
        }
      } else {
        last := now;
        sequence := Up(rnd[6] % 8, rnd[7]);
        moved, start, calls := now, sequence, 0;
      }
    }

    /** The next id for a clock reading and random bytes. */
    method NewID(now: int, rnd: seq<Byte>) returns (id: string)
      requires Valid() && |rnd| == 16
      modifies this
      ensures Valid() && largest == (if now > old(largest) then now else old(largest))
      ensures last > old(last) || (last == old(last) && sequence > old(sequence))
      ensures id == Text(Layout(last, sequence, rnd))
      // borrowed time: at most a millisecond in 2049 calls since the clock last moved it
      ensures (last - largest) * (SEQ - START + 1) <= calls
      ensures calls == if now > old(last) then 0 else old(calls) + 1
    {
      hide Text, Layout;
      Tick(now, rnd);
      Borrowed(last - moved, sequence, start, calls);
      Nearer(last - moved, last - largest, calls);
      var b := Fill(last, sequence, rnd);
      id := Text(b[..]);
    }
  }

  /** The byte array, filled in place. */
  method Fill(ms: int, sequence: int, rnd: seq<Byte>) returns (b: array<Byte>)
    requires 0 <= ms && 0 <= sequence < SEQ && |rnd| == 16
    ensures fresh(b) && b.Length == 16 && b[..] == Layout(ms, sequence, rnd)
  {
    b := new Byte[16](i requires 0 <= i < 16 => rnd[i]);
    hide ByteAt;
    b[0], b[1], b[2] := ByteAt(ms, 0x100_0000_0000), ByteAt(ms, 0x1_0000_0000), ByteAt(ms, 0x100_0000);
    b[3], b[4], b[5] := ByteAt(ms, 0x1_0000), ByteAt(ms, 0x100), ByteAt(ms, 1);
    b[6], b[7] := 0x70 + sequence / 256, ByteAt(sequence, 1);
    b[8] := b[8] % 64 + 128;
    assert b[9..] == rnd[9..];
  }

  lemma Nearer(a: int, b: int, calls: nat)
    requires b <= a && a * (SEQ - START + 1) <= calls
    ensures b * (SEQ - START + 1) <= calls
  {
  }

  lemma Borrowed(ahead: int, sequence: int, start: int, calls: nat)
    requires ahead * SEQ + sequence == start + calls && 0 <= sequence && start < START
    ensures ahead * (SEQ - START + 1) <= calls
  {
  }

  /** Ids minted for any clock readings, backward ones too, and any random bytes strictly
  increase as text while the time fits 48 bits. */
  method MintAll(readings: seq<int>, rnds: seq<seq<Byte>>) returns (out: seq<string>, last: int)
    requires |rnds| == |readings| && forall r :: r in rnds ==> |r| == 16
    ensures |out| == |readings|
    ensures last < MS_LIMIT ==> StrictlySorted(out)
  {
    hide Text, Layout, LexLess;
    var m := new Minter();
    out := [];
    ghost var prev: seq<Byte> := [];
    var i := 0;
    while i < |readings|
      invariant 0 <= i <= |readings| && |out| == i && m.Valid()
      invariant i > 0 ==> |prev| == 16 && out[i - 1] == Text(Layout(m.last, m.sequence, prev))
      invariant m.last < MS_LIMIT ==> StrictlySorted(out)
    {
      ghost var ms, s := m.last, m.sequence;
      assert rnds[i] in rnds;
      var id := m.NewID(readings[i], rnds[i]);
      if m.last < MS_LIMIT && i > 0 {
        LaterText(ms, s, prev, m.last, m.sequence, rnds[i]);
        SortedAppend(out, id);
      }
      prev := rnds[i];
      out := out + [id];
      i := i + 1;
    }
    last := m.last;
  }

  lemma SortedAppend(out: seq<string>, id: string)
    requires StrictlySorted(out) && out != [] && LexLess(out[|out| - 1], id)
    ensures StrictlySorted(out + [id])
  {
    hide LexLess;
    forall i | 0 <= i < |out| ensures LexLess(out[i], id) {
      if i < |out| - 1 { LexTransitive(out[i], out[|out| - 1], id); }
    }
  }
}
