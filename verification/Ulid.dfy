/** Turn and memory ids: 128 bits rendered as 26 base-32 digits that sort as the
    bits do.

    Models internal/journal/id.go and newULID of internal/memory/store.go, after
    the "Encoding" and "Sorting" sections of the ULID specification. */
module Ulid {
  import opened Order
  import opened Prelude

  newtype byte = x: int | 0 <= x < 256

  const Crockford := "0123456789ABCDEFGHJKMNPQRSTVWXYZ"

  type Raw = r: seq<byte> | |r| == 16 witness seq(16, _ => 0)

  function Pow2(k: nat): (p: nat)
    ensures p > 0
  {
    if k == 0 then 1 else 2 * Pow2(k - 1)
  }

  /** Bit number i of a byte, counting from the most significant. */
  function BitOf(b: byte, i: nat): nat
    requires i < 8
  {
    (b as nat / Pow2(7 - i)) % 2
  }

  /** Bit number pos of the 130-bit stream: two zero bits, then the 128 of raw. */
  function Bit(raw: Raw, pos: nat): nat
    requires pos < 130
  {
    if pos < 2 then 0 else BitOf(raw[(pos - 2) / 8], (pos - 2) % 8)
  }

  /** The value of the first k bits of the stream, read as a binary numeral. */
  function Prefix(raw: Raw, k: nat): nat
    requires k <= 130
  {
    if k == 0 then 0 else 2 * Prefix(raw, k - 1) + Bit(raw, k - 1)
  }

  /** The value of digit i. */
  function Digit(raw: Raw, i: nat): (d: nat)
    requires i < 26
    ensures d < 32
  {
    16 * Bit(raw, 5 * i) + 8 * Bit(raw, 5 * i + 1) + 4 * Bit(raw, 5 * i + 2) + 2 * Bit(raw, 5 * i + 3)
    + Bit(raw, 5 * i + 4)
  }

  function Encoded(raw: Raw): (s: string)
    ensures |s| == 26
  {
    seq(26, i requires 0 <= i < 26 => Crockford[Digit(raw, i)])
  }

  /** Encodes bit by bit into a buffer, as both copies of the program do. */
  method Encode(raw: Raw) returns (id: string)
    ensures id == Encoded(raw)
  {
    var out := new char[26];
    var bitPos := 0;
    for i := 0 to 26
      invariant bitPos == 5 * i
      invariant forall j | 0 <= j < i :: out[j] == Crockford[Digit(raw, j)]
    {
      var v := 0;
      ghost var d := 0;
      for b := 0 to 5
        invariant v == DigitSoFar(raw, i, b) && 0 <= v < Pow2(b)
        invariant bitPos == 5 * i
      {
        var pos := bitPos + b - 2;
        var bit := 0;
        if pos >= 0 {
          bit := (raw[pos / 8] as int / Pow2(7 - pos % 8)) % 2;
        }
        v := 2 * v + bit;
      }
      assert Pow2(5) == 32;
      DigitComplete(raw, i);
      out[i] := Crockford[v];
      bitPos := bitPos + 5;
    }
    id := out[..];
  }

  /** The first b bits of digit i. */
  function DigitSoFar(raw: Raw, i: nat, b: nat): nat
    requires i < 26 && b <= 5
  {
    if b == 0 then 0 else 2 * DigitSoFar(raw, i, b - 1) + Bit(raw, 5 * i + b - 1)
  }

  lemma DigitComplete(raw: Raw, i: nat)
    requires i < 26
    ensures DigitSoFar(raw, i, 5) == Digit(raw, i)
  {
    assert DigitSoFar(raw, i, 1) == Bit(raw, 5 * i);
    assert DigitSoFar(raw, i, 2) == 2 * DigitSoFar(raw, i, 1) + Bit(raw, 5 * i + 1);
    assert DigitSoFar(raw, i, 3) == 2 * DigitSoFar(raw, i, 2) + Bit(raw, 5 * i + 2);
    assert DigitSoFar(raw, i, 4) == 2 * DigitSoFar(raw, i, 3) + Bit(raw, 5 * i + 3);
  }

  // ---------------------------------------------------------------- values

  /** The big-endian value of the first n bytes. */
  function BytesValue(raw: seq<byte>): nat
    decreases |raw|
  {
    if raw == [] then 0 else 256 * BytesValue(raw[..|raw| - 1]) + raw[|raw| - 1] as nat
  }

  /** The value of a base-32 numeral. */
  function DigitsValue(digits: seq<nat>): nat
    decreases |digits|
  {
    if digits == [] then 0 else 32 * DigitsValue(digits[..|digits| - 1]) + digits[|digits| - 1]
  }

  function Digits(raw: Raw): seq<nat> {
    seq(26, i requires 0 <= i < 26 => Digit(raw, i))
  }

  lemma FiveBits(raw: Raw, i: nat)
    requires i < 26
    ensures Prefix(raw, 5 * i + 5) == 32 * Prefix(raw, 5 * i) + Digit(raw, i)
  {
    var k := 5 * i;
    assert Prefix(raw, k + 1) == 2 * Prefix(raw, k) + Bit(raw, k);
    assert Prefix(raw, k + 2) == 2 * Prefix(raw, k + 1) + Bit(raw, k + 1);
    assert Prefix(raw, k + 3) == 2 * Prefix(raw, k + 2) + Bit(raw, k + 2);
    assert Prefix(raw, k + 4) == 2 * Prefix(raw, k + 3) + Bit(raw, k + 3);
  }

  lemma {:induction false} DigitsArePrefix(raw: Raw, digits: seq<nat>, n: nat)
    requires n <= 26 && digits == Digits(raw)
    ensures DigitsValue(digits[..n]) == Prefix(raw, 5 * n)
  {
    if n > 0 {
      DigitsArePrefix(raw, digits, n - 1);
      assert digits[..n][..n - 1] == digits[..n - 1];
      FiveBits(raw, n - 1);
      assert digits[n - 1] == Digit(raw, n - 1);
    }
  }

  /** A byte is the value of its eight bits. */
  lemma {:induction false} ByteFromBits(b: byte, n: nat)
    requires n <= 8
    ensures TopBits(b, n) == b as nat / Pow2(8 - n)
  {
    if n == 0 {
      assert Pow2(8) == 256;
    } else {
      ByteFromBits(b, n - 1);
      var q := Pow2(8 - n);
      assert Pow2(9 - n) == 2 * q;
      HalvesAgain(b as nat, q);
    }
  }

  function TopBits(b: byte, n: nat): nat
    requires n <= 8
  {
    if n == 0 then 0 else 2 * TopBits(b, n - 1) + BitOf(b, n - 1)
  }

  lemma HalvesAgain(x: nat, q: nat)
    requires q > 0
    ensures 2 * (x / (2 * q)) + (x / q) % 2 == x / q
  {
    var d, r := x / q, x % q;
    var e, f := d / 2, d % 2;
    MulSplit(2, e, f, q);
    MulStep(f, 2, q);
    assert x == e * (2 * q) + (f * q + r);
    DivUnique(x, 2 * q, e, f * q + r);
  }

  lemma MulStep(a: nat, b: nat, p: nat)
    requires a < b
    ensures a * p + p <= b * p
  {
    assert b * p == a * p + p + (b - a - 1) * p;
  }

  lemma MulSplit(k: nat, e: nat, f: nat, q: nat)
    ensures (k * e + f) * q == e * (k * q) + f * q
  {
    assert (k * e + f) * q == (k * e) * q + f * q;
    assert (k * e) * q == e * (k * q);
  }

  lemma DivUnique(x: nat, m: nat, q: nat, r: nat)
    requires m > 0 && x == q * m + r && r < m
    ensures x / m == q
  {
    var d, s := x / m, x % m;
    assert x == d * m + s;
    if d < q {
      MulStep(d, q, m);
    } else if q < d {
      MulStep(q, d, m);
    }
  }

  lemma DoubleFactor(x: nat, y: nat)
    ensures 2 * (x * y) == x * (2 * y)
  {
  }

  lemma {:induction false} WithinByte(raw: Raw, j: nat, n: nat)
    requires j < 16 && n <= 8
    ensures Prefix(raw, 2 + 8 * j + n) == Prefix(raw, 2 + 8 * j) * Pow2(n) + TopBits(raw[j], n)
  {
    if n > 0 {
      WithinByte(raw, j, n - 1);
      var k := 2 + 8 * j + n - 1;
      assert (k - 2) / 8 == j && (k - 2) % 8 == n - 1;
      assert Prefix(raw, k + 1) == 2 * Prefix(raw, k) + BitOf(raw[j], n - 1);
      DoubleFactor(Prefix(raw, 2 + 8 * j), Pow2(n - 1));
    }
  }

  lemma EightBits(raw: Raw, j: nat)
    requires j < 16
    ensures Prefix(raw, 2 + 8 * j + 8) == 256 * Prefix(raw, 2 + 8 * j) + raw[j] as nat
  {
    WithinByte(raw, j, 8);
    ByteFromBits(raw[j], 8);
    assert Pow2(8) == 256 && Pow2(0) == 1;
  }

  lemma {:induction false} BytesArePrefix(raw: Raw, bytes: seq<byte>, j: nat)
    requires j <= 16 && bytes == raw
    ensures BytesValue(bytes[..j]) == Prefix(raw, 2 + 8 * j)
  {
    if j == 0 {
      assert Prefix(raw, 1) == 2 * Prefix(raw, 0) + Bit(raw, 0) == 0;
      assert Prefix(raw, 2) == 2 * Prefix(raw, 1) + Bit(raw, 1) == 0;
    } else {
      BytesArePrefix(raw, bytes, j - 1);
      assert bytes[..j][..j - 1] == bytes[..j - 1];
      EightBits(raw, j - 1);
    }
  }

  /** The 26 digits have the same value as the 16 bytes. */
  lemma SameValue(raw: Raw)
    ensures DigitsValue(Digits(raw)) == BytesValue(raw)
  {
    DigitsArePrefix(raw, Digits(raw), 26);
    BytesArePrefix(raw, raw, 16);
    assert Digits(raw)[..26] == Digits(raw) && raw[..16] == raw;
  }

  /** The first digit carries only three significant bits. */
  lemma FirstDigitSmall(raw: Raw)
    ensures Digit(raw, 0) <= 7
  {
    assert Bit(raw, 0) == 0 && Bit(raw, 1) == 0;
  }

  // ---------------------------------------------------------------- order

  lemma CrockfordAscends(a: nat, b: nat)
    requires a < 32 && b < 32
    ensures Crockford[a] < Crockford[b] <==> a < b
  {
    CrockfordSteps(a);
    CrockfordSteps(b);
  }

  /** The character at each place of the alphabet, by ranges. */
  lemma CrockfordSteps(a: nat)
    requires a < 32
    ensures Crockford[a] as int ==
            if a < 10 then 48 + a
            else if a < 18 then 55 + a
            else if a < 20 then 56 + a
            else if a < 22 then 57 + a
            else if a < 27 then 58 + a
            else 59 + a
  {
  }

  /** Numerals of equal length compare as their values do. */
  predicate DigitsLess(xs: seq<nat>, ys: seq<nat>)
    requires |xs| == |ys|
    decreases |xs|
  {
    xs != [] && (xs[0] < ys[0] || (xs[0] == ys[0] && DigitsLess(xs[1..], ys[1..])))
  }

  function Pow32(k: nat): (p: nat)
    ensures p > 0
  {
    if k == 0 then 1 else 32 * Pow32(k - 1)
  }

  lemma {:induction false} LeadingDigit(xs: seq<nat>)
    requires xs != [] && forall i | 0 <= i < |xs| :: xs[i] < 32
    ensures DigitsValue(xs) == xs[0] * Pow32(|xs| - 1) + DigitsValue(xs[1..])
    ensures DigitsValue(xs) < Pow32(|xs|)
    decreases |xs|
  {
    var n := |xs| - 1;
    if n == 0 {
      assert xs[..0] == [] && xs[1..] == [];
      assert DigitsValue(xs) == xs[0];
    } else {
      var init := xs[..n];
      LeadingDigit(init);
      assert init[1..] == xs[1..][..n - 1];
      assert xs[1..][n - 1] == xs[n];
      assert DigitsValue(xs[1..]) == 32 * DigitsValue(init[1..]) + xs[n];
      Regroup32(xs[0], Pow32(n - 1));
    }
  }

  lemma Regroup32(x: nat, y: nat)
    ensures 32 * (x * y) == x * (32 * y)
  {
  }

  lemma ValueBelow(xs: seq<nat>)
    requires forall i | 0 <= i < |xs| :: xs[i] < 32
    ensures DigitsValue(xs) < Pow32(|xs|)
  {
    if xs != [] {
      LeadingDigit(xs);
    }
  }

  lemma {:induction false} DigitsOrder(xs: seq<nat>, ys: seq<nat>)
    requires |xs| == |ys|
    requires forall i | 0 <= i < |xs| :: xs[i] < 32 && ys[i] < 32
    ensures DigitsLess(xs, ys) <==> DigitsValue(xs) < DigitsValue(ys)
    ensures DigitsValue(xs) == DigitsValue(ys) ==> xs == ys
    decreases |xs|
  {
    if xs != [] {
      var p := Pow32(|xs| - 1);
      LeadingDigit(xs);
      LeadingDigit(ys);
      ValueBelow(xs[1..]);
      ValueBelow(ys[1..]);
      DigitsOrder(xs[1..], ys[1..]);
      LeadDecides(xs[0], DigitsValue(xs[1..]), ys[0], DigitsValue(ys[1..]), p);
      assert xs == [xs[0]] + xs[1..] && ys == [ys[0]] + ys[1..];
    }
  }

  lemma LeadDecides(a: nat, r: nat, b: nat, s: nat, p: nat)
    requires r < p && s < p
    ensures a * p + r < b * p + s <==> a < b || (a == b && r < s)
    ensures a * p + r == b * p + s ==> a == b && r == s
  {
    if a < b {
      MulStep(a, b, p);
    } else if b < a {
      MulStep(b, a, p);
    }
  }

  function Rendered(digits: seq<nat>): string
    requires forall i | 0 <= i < |digits| :: digits[i] < 32
  {
    seq(|digits|, i requires 0 <= i < |digits| => Crockford[digits[i]])
  }

  lemma {:induction false} RenderedOrder(xs: seq<nat>, ys: seq<nat>)
    requires |xs| == |ys|
    requires forall i | 0 <= i < |xs| :: xs[i] < 32 && ys[i] < 32
    ensures Less(Rendered(xs), Rendered(ys)) <==> DigitsLess(xs, ys)
    decreases |xs|
  {
    if xs != [] {
      CrockfordAscends(xs[0], ys[0]);
      CrockfordAscends(ys[0], xs[0]);
      assert Rendered(xs)[1..] == Rendered(xs[1..]) && Rendered(ys)[1..] == Rendered(ys[1..]);
      RenderedOrder(xs[1..], ys[1..]);
    }
  }

  lemma {:induction false} BytesInjective(a: seq<byte>, b: seq<byte>)
    requires |a| == |b| && BytesValue(a) == BytesValue(b)
    ensures a == b
    decreases |a|
  {
    if a != [] {
      var n := |a| - 1;
      assert a[n] as nat == BytesValue(a) % 256 && b[n] as nat == BytesValue(b) % 256;
      BytesInjective(a[..n], b[..n]);
      assert a == a[..n] + [a[n]] && b == b[..n] + [b[n]];
    }
  }

  /** Encoding is injective and preserves order: ids compare as strings exactly as
      their 128-bit values do. */
  lemma EncodingPreservesOrder(a: Raw, b: Raw)
    ensures Less(Encoded(a), Encoded(b)) <==> BytesValue(a) < BytesValue(b)
    ensures Encoded(a) == Encoded(b) ==> a == b
  {
    assert Encoded(a) == Rendered(Digits(a)) && Encoded(b) == Rendered(Digits(b));
    RenderedOrder(Digits(a), Digits(b));
    DigitsOrder(Digits(a), Digits(b));
    SameValue(a);
    SameValue(b);
    if Encoded(a) == Encoded(b) {
      forall i | 0 <= i < 26
        ensures Digits(a)[i] == Digits(b)[i]
      {
        assert Encoded(a)[i] == Encoded(b)[i];
        CrockfordAscends(Digit(a, i), Digit(b, i));
        CrockfordAscends(Digit(b, i), Digit(a, i));
      }
      assert Digits(a) == Digits(b);
      BytesInjective(a, b);
    }
  }

  // ---------------------------------------------------------------- time

  /** byte(ms >> s) for each of the six leading bytes, then the random ones. Both
      the unrolled and the looping copy of the program compute this. */
  function RawAt(ms: nat, random: seq<byte>): Raw
    requires |random| == 10
  {
    seq(6, i requires 0 <= i < 6 => TimeByte(ms, i)) + random
  }

  function TimeByte(ms: nat, i: nat): byte
    requires i < 6
  {
    ((ms / Pow2(40 - 8 * i)) % 256) as byte
  }

  method NewTurnIDAt(ms: nat, random: seq<byte>) returns (id: string)
    requires |random| == 10
    ensures id == Encoded(RawAt(ms, random))
  {
    var raw := new byte[16];
    raw[0] := TimeByte(ms, 0);
    raw[1] := TimeByte(ms, 1);
    raw[2] := TimeByte(ms, 2);
    raw[3] := TimeByte(ms, 3);
    raw[4] := TimeByte(ms, 4);
    raw[5] := TimeByte(ms, 5);
    forall i | 6 <= i < 16 {
      raw[i] := random[i - 6];
    }
    assert raw[..] == RawAt(ms, random);
    id := Encode(raw[..]);
  }

  method NewMemoryID(ms: nat, random: seq<byte>) returns (id: string)
    requires |random| == 10
    ensures id == Encoded(RawAt(ms, random))
  {
    var raw := new byte[16];
    for i := 0 to 6
      invariant forall j | 0 <= j < i :: raw[j] == TimeByte(ms, j)
    {
      raw[i] := TimeByte(ms, i);
    }
    forall i | 6 <= i < 16 {
      raw[i] := random[i - 6];
    }
    assert raw[..] == RawAt(ms, random);
    id := Encode(raw[..]);
  }

  lemma {:induction false} BytesAppend(a: seq<byte>, b: seq<byte>)
    ensures BytesValue(a + b) == BytesValue(a) * Pow256(|b|) + BytesValue(b)
    ensures BytesValue(b) < Pow256(|b|)
    decreases |b|
  {
    if b == [] {
      assert a + b == a;
    } else {
      var n := |b| - 1;
      BytesAppend(a, b[..n]);
      assert (a + b)[..|a + b| - 1] == a + b[..n];
      assert 256 * (BytesValue(a) * Pow256(n)) == BytesValue(a) * Pow256(n + 1);
    }
  }

  lemma {:induction false} TimeBytes(ms: nat, random: seq<byte>, n: nat)
    requires |random| == 10 && n <= 6
    ensures BytesValue(RawAt(ms, random)[..n]) == (ms / Pow2(48 - 8 * n)) % Pow256(n)
  {
    if n > 0 {
      TimeBytes(ms, random, n - 1);
      var raw := RawAt(ms, random);
      assert raw[..n][..n - 1] == raw[..n - 1];
      var q := Pow2(48 - 8 * n);
      EightMore(48 - 8 * n);
      SplitByte(ms, q, Pow256(n - 1));
    }
  }

  lemma EightMore(k: nat)
    ensures Pow2(k + 8) == 256 * Pow2(k)
  {
    assert Pow2(k + 2) == 4 * Pow2(k);
    assert Pow2(k + 4) == 4 * Pow2(k + 2);
    assert Pow2(k + 6) == 4 * Pow2(k + 4);
    assert Pow2(k + 8) == 4 * Pow2(k + 6);
  }

  /** Dropping a byte and putting it back. */
  lemma SplitByte(x: nat, q: nat, m: nat)
    requires q > 0 && m > 0
    ensures 256 * ((x / (256 * q)) % m) + (x / q) % 256 == (x / q) % (256 * m)
  {
    var d, r := x / q, x % q;
    var e, f := d / 256, d % 256;
    DropByte(x, q);
    var g, h := e / m, e % m;
    assert e == g * m + h;
    assert 256 * (g * m) == g * (256 * m);
    ModUnique(d, 256 * m, g, 256 * h + f);
  }

  lemma DropByte(x: nat, q: nat)
    requires q > 0
    ensures x / (256 * q) == (x / q) / 256
  {
    var d, r := x / q, x % q;
    var e, f := d / 256, d % 256;
    assert x == d * q + r && d == 256 * e + f;
    MulSplit(256, e, f, q);
    MulStep(f, 256, q);
    DivUnique(x, 256 * q, e, f * q + r);
  }

  lemma ModUnique(x: nat, m: nat, q: nat, r: nat)
    requires m > 0 && x == q * m + r && r < m
    ensures x % m == r
  {
    DivUnique(x, m, q, r);
  }

  /** An id's value is its millisecond, then its random part. */
  lemma ValueOfRaw(ms: nat, random: seq<byte>)
    requires |random| == 10 && ms < Pow256(6)
    ensures BytesValue(RawAt(ms, random)) == ms * Pow256(10) + BytesValue(random)
    ensures BytesValue(random) < Pow256(10)
  {
    var raw := RawAt(ms, random);
    TimeBytes(ms, random, 6);
    assert Pow2(0) == 1;
    assert raw == raw[..6] + random;
    BytesAppend(raw[..6], random);
  }

  /** Ids from a later millisecond, below 2^48, sort strictly later whatever the
      random bytes. */
  lemma LaterSortsLater(ms: nat, random: seq<byte>, ms': nat, random': seq<byte>)
    requires |random| == 10 && |random'| == 10
    requires ms < ms' < Pow256(6)
    ensures Less(Encoded(RawAt(ms, random)), Encoded(RawAt(ms', random')))
  {
    ValueOfRaw(ms, random);
    ValueOfRaw(ms', random');
    LeadDecides(ms, BytesValue(random), ms', BytesValue(random'), Pow256(10));
    EncodingPreservesOrder(RawAt(ms, random), RawAt(ms', random'));
  }

  lemma {:induction false} Pow2Adds(a: nat, b: nat)
    ensures Pow2(a + b) == Pow2(a) * Pow2(b)
  {
    if a > 0 {
      Pow2Adds(a - 1, b);
      assert 2 * (Pow2(a - 1) * Pow2(b)) == (2 * Pow2(a - 1)) * Pow2(b);
    }
  }

  lemma {:induction false} Pow256IsPow2(n: nat)
    ensures Pow256(n) == Pow2(8 * n)
  {
    if n > 0 {
      Pow256IsPow2(n - 1);
      EightMore(8 * (n - 1));
    }
  }

  /** At 2^48 the timestamp wraps, and the order is lost. */
  lemma WrapsAt48Bits(random: seq<byte>)
    requires |random| == 10
    ensures RawAt(Pow256(6), random) == RawAt(0, random)
  {
    forall i | 0 <= i < 6
      ensures TimeByte(Pow256(6), i) == TimeByte(0, i)
    {
      WrapByte(40 - 8 * i);
    }
  }

  lemma WrapByte(k: nat)
    requires k <= 40
    ensures (Pow256(6) / Pow2(k)) % 256 == 0 == (0 / Pow2(k)) % 256
  {
    Pow256IsPow2(6);
    Pow2Quotient(48 - k, k);
    EightMore(40 - k);
    ModUnique(Pow2(48 - k), 256, Pow2(40 - k), 0);
    DivUnique(0, Pow2(k), 0, 0);
  }

  lemma Pow2Quotient(a: nat, b: nat)
    ensures Pow2(a + b) / Pow2(b) == Pow2(a)
  {
    Pow2Adds(a, b);
    DivUnique(Pow2(a + b), Pow2(b), Pow2(a), 0);
  }
}
