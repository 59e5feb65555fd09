/** Client-side request ids: 48 bits of time and 80 random bits, written as 26
    characters of Crockford's base 32.

    The Python SDK builds one big integer and takes its base-32 digits.  The
    TypeScript and Go SDKs write the time the same way but push the random bytes
    through a bit buffer of 32 bits, signed in TypeScript and unsigned in Go. */
module Ulid {
  import opened Common
  import opened Arith

  // Crockford's base-32 alphabet.  The encoders take the table as a parameter.
  const CROCKFORD: string := "0123456789ABCDEFGHJKMNPQRSTVWXYZ"

  type Alphabet = s: string | |s| == 32 witness CROCKFORD

  const TIME_CHARS: nat := 10
  const CHARS: nat := 26
  const RANDOM_BYTES: nat := 10

  function Digit(enc: Alphabet, d: nat): (c: char)
    requires d < 32
  {
    enc[d]
  }

  // Characters in ascending order, so without repetitions.
  ghost predicate Ascending(enc: Alphabet) {
    forall d, e :: 0 <= d < e < 32 ==> enc[d] < enc[e]
  }

  // It is enough to compare neighbours.
  lemma {:induction false} Ascends(enc: Alphabet, d: nat, e: nat)
    requires d < e < 32 && forall k :: 0 <= k < 31 ==> enc[k] < enc[k + 1]
    ensures enc[d] < enc[e]
  {
    if d + 1 < e {
      Ascends(enc, d, e - 1);
    }
    assert enc[e - 1] < enc[e - 1 + 1];
  }

  /** The alphabet is the ten digits and the capitals without I, L, O and U; being in
      ascending order, it is those and no other. */
  lemma CrockfordIsDigitsAndCapitals()
    ensures |CROCKFORD| == 32
    ensures forall c :: c in CROCKFORD <==>
              '0' <= c <= '9' || ('A' <= c <= 'Z' && c != 'I' && c != 'L' && c != 'O' && c != 'U')
  {
  }

  lemma NextDigit(k: nat)
    requires k < 31
    ensures CROCKFORD[k] < CROCKFORD[k + 1]
  {
  }

  lemma NeighboursAscend(enc: Alphabet)
    requires forall k :: 0 <= k < 31 ==> enc[k] < enc[k + 1]
    ensures Ascending(enc)
  {
    forall d, e | 0 <= d < e < 32
      ensures enc[d] < enc[e]
    {
      Ascends(enc, d, e);
    }
  }

  lemma CrockfordAscends()
    ensures Ascending(CROCKFORD)
  {
    forall k | 0 <= k < 31
      ensures CROCKFORD[k] < CROCKFORD[k + 1]
    {
      NextDigit(k);
    }
    NeighboursAscend(CROCKFORD);
  }

  // ------------------------------------------------------------ specification

  // The n low base-32 digits of v, most significant first.
  function Encode(enc: Alphabet, v: nat, n: nat): (s: string)
    ensures |s| == n
  {
    if n == 0 then "" else Encode(enc, v / 32, n - 1) + [Digit(enc, v % 32)]
  }

  function DigitValue(enc: Alphabet, c: char): (d: Option<nat>)
    ensures d.Some? ==> d.value < 32 && Digit(enc, d.value) == c
  {
    ValueFrom(enc, c, 0)
  }

  function ValueFrom(enc: Alphabet, c: char, from: nat): (d: Option<nat>)
    requires from <= 32
    ensures d.Some? ==> d.value < 32 && Digit(enc, d.value) == c
    decreases 32 - from
  {
    if from == 32 then None else if enc[from] == c then Some(from) else ValueFrom(enc, c, from + 1)
  }

  // Reads a string of digits back; None if a character is not a digit.
  function Decode(enc: Alphabet, s: string): Option<nat> {
    if s == "" then Some(0)
    else
      var init, last := Decode(enc, s[..|s| - 1]), DigitValue(enc, s[|s| - 1]);
      if init.Some? && last.Some? then Some(32 * init.value + last.value) else None
  }

  lemma {:induction false} ValueOfDigit(enc: Alphabet, d: nat, from: nat)
    requires Ascending(enc)
    requires from <= d < 32
    ensures ValueFrom(enc, Digit(enc, d), from) == Some(d)
    decreases d - from
  {
    if from < d {
      ValueOfDigit(enc, d, from + 1);
    }
  }

  /** Decoding undoes encoding, up to the digits that did not fit. */
  lemma {:induction false} DecodeEncode(enc: Alphabet, v: nat, n: nat)
    requires Ascending(enc)
    ensures Decode(enc, Encode(enc, v, n)) == Some(v % Pow(32, n))
  {
    if n > 0 {
      var init := Encode(enc, v / 32, n - 1);
      LastIsLast(init, Digit(enc, v % 32));
      DecodeEncode(enc, v / 32, n - 1);
      ValueOfDigit(enc, v % 32, 0);
      TwoDivisions(v, 32, Pow(32, n - 1));
    }
  }

  lemma DecodeFitting(enc: Alphabet, v: nat, n: nat)
    requires Ascending(enc)
    requires v < Pow(32, n)
    ensures Decode(enc, Encode(enc, v, n)) == Some(v)
  {
    DecodeEncode(enc, v, n);
    SmallMod(v, Pow(32, n));
  }

  /** Different numbers of at most n digits get different strings. */
  lemma EncodeIsInjective(enc: Alphabet, a: nat, b: nat, n: nat)
    requires Ascending(enc)
    requires a < Pow(32, n) && b < Pow(32, n) && Encode(enc, a, n) == Encode(enc, b, n)
    ensures a == b
  {
    DecodeFitting(enc, a, n);
    DecodeFitting(enc, b, n);
  }

  // Alphabetical order of two strings of one length.
  predicate Before(s: string, t: string)
    requires |s| == |t|
  {
    s != [] && (
      var n := |s| - 1;
      Before(s[..n], t[..n]) || (s[..n] == t[..n] && s[n] < t[n]))
  }

  lemma TopPartFits(v: nat, n: nat)
    requires n > 0 && v < Pow(32, n)
    ensures v / 32 < Pow(32, n - 1)
  {
  }

  lemma OrderMore(enc: Alphabet, a: nat, b: nat, n: nat)
    requires Ascending(enc)
    requires n > 0
    requires Before(Encode(enc, a / 32, n - 1), Encode(enc, b / 32, n - 1)) <==> a / 32 < b / 32
    requires Encode(enc, a / 32, n - 1) == Encode(enc, b / 32, n - 1) <==> a / 32 == b / 32
    ensures Before(Encode(enc, a, n), Encode(enc, b, n)) <==> a < b
  {
  }

  /** Alphabetical order is numeric order. */
  lemma {:induction false} OrderIsNumeric(enc: Alphabet, a: nat, b: nat, n: nat)
    requires Ascending(enc)
    requires a < Pow(32, n) && b < Pow(32, n)
    ensures Before(Encode(enc, a, n), Encode(enc, b, n)) <==> a < b
  {
    if n > 0 {
      TopPartFits(a, n);
      TopPartFits(b, n);
      OrderIsNumeric(enc, a / 32, b / 32, n - 1);
      SameTopPart(enc, a / 32, b / 32, n - 1);
      OrderMore(enc, a, b, n);
    }
  }

  lemma {:induction false} SameTopPart(enc: Alphabet, a: nat, b: nat, n: nat)
    requires Ascending(enc)
    requires a < Pow(32, n) && b < Pow(32, n)
    ensures Encode(enc, a, n) == Encode(enc, b, n) <==> a == b
  {
    if Encode(enc, a, n) == Encode(enc, b, n) {
      EncodeIsInjective(enc, a, b, n);
    }
  }

  // The character at place k counts from the most significant digit.
  lemma {:induction false} EncodeAt(enc: Alphabet, v: nat, n: nat, k: nat)
    requires k < n
    ensures Encode(enc, v, n)[k] == Digit(enc, v / Pow(32, n - 1 - k) % 32)
  {
    if k < n - 1 {
      EncodeAt(enc, v / 32, n - 1, k);
      TwoDivisions(v, 32, Pow(32, n - 2 - k));
    }
  }

  // The number that the bytes spell, most significant first.
  function BigEndian(bytes: Bytes): nat {
    if bytes == [] then 0 else 256 * BigEndian(bytes[..|bytes| - 1]) + bytes[|bytes| - 1] as nat
  }

  lemma {:induction false} BigEndianBound(bytes: Bytes)
    ensures BigEndian(bytes) < Pow(256, |bytes|)
  {
    if bytes != [] {
      BigEndianBound(bytes[..|bytes| - 1]);
    }
  }

  const TWO_TO_48: nat := 0x1_0000_0000_0000

  const TWO_TO_80: nat := 0x1_0000_0000_0000_0000_0000

  lemma SixteenDigits()
    ensures Pow(32, 16) == TWO_TO_80 == Pow(256, 10)
  {
    assert Pow(32, 4) == 0x10_0000;
    assert Pow(32, 8) == 0x100_0000_0000;
    assert Pow(32, 12) == 0x1000_0000_0000_0000;
    assert Pow(256, 4) == 0x1_0000_0000;
    assert Pow(256, 8) == 0x1_0000_0000_0000_0000;
  }

  lemma RandomFits(rand: Bytes)
    requires |rand| == RANDOM_BYTES
    ensures BigEndian(rand) < TWO_TO_80
  {
    BigEndianBound(rand);
    SixteenDigits();
  }

  // Time and random bytes as one number.
  function Packed(ts: nat, rand: Bytes): nat {
    ts * TWO_TO_80 + BigEndian(rand)
  }

  // The request id for a time and ten random bytes.
  function RequestId(enc: Alphabet, ts: nat, rand: Bytes): (id: string)
    ensures |id| == CHARS
  {
    Encode(enc, Packed(ts, rand), CHARS)
  }

  lemma LowDigit(ts: nat, p: nat, r: nat)
    ensures (ts * (32 * p) + r) / 32 == ts * p + r / 32
    ensures (ts * (32 * p) + r) % 32 == r % 32
  {
  }

  lemma EncodeMore(enc: Alphabet, v: nat, n: nat)
    requires n > 0
    ensures Encode(enc, v, n) == Encode(enc, v / 32, n - 1) + [Digit(enc, v % 32)]
  {
  }

  lemma TwoPartsMore(enc: Alphabet, ts: nat, r: nat, n: nat, m: nat, p: nat)
    requires m > 0
    requires Encode(enc, ts * p + r / 32, n + m - 1) == Encode(enc, ts, n) + Encode(enc, r / 32, m - 1)
    ensures Encode(enc, ts * (32 * p) + r, n + m) == Encode(enc, ts, n) + Encode(enc, r, m)
  {
    LowDigit(ts, p, r);
    EncodeMore(enc, ts * (32 * p) + r, n + m);
    EncodeMore(enc, r, m);
    ConcatAssociates(Encode(enc, ts, n), Encode(enc, r / 32, m - 1), [Digit(enc, r % 32)]);
  }

  // High digits and low digits are written side by side.
  lemma {:induction false} TwoParts(enc: Alphabet, ts: nat, r: nat, n: nat, m: nat, p: nat)
    requires p == Pow(32, m) && r < p
    ensures Encode(enc, ts * p + r, n + m) == Encode(enc, ts, n) + Encode(enc, r, m)
  {
    if m == 0 {
      assert Encode(enc, ts, n) + "" == Encode(enc, ts, n);
    } else {
      TopPartFits(r, m);
      TwoParts(enc, ts, r / 32, n, m - 1, Pow(32, m - 1));
      TwoPartsMore(enc, ts, r, n, m, Pow(32, m - 1));
    }
  }

  lemma IdIsTwoParts(enc: Alphabet, ts: nat, rand: Bytes)
    requires |rand| == RANDOM_BYTES
    ensures RequestId(enc, ts, rand) == Encode(enc, ts, TIME_CHARS) + Encode(enc, BigEndian(rand), CHARS - TIME_CHARS)
  {
    RandomFits(rand);
    SixteenDigits();
    TwoParts(enc, ts, BigEndian(rand), TIME_CHARS, CHARS - TIME_CHARS, TWO_TO_80);
  }

  lemma PackingOrders(ts1: nat, r1: nat, ts2: nat, r2: nat)
    requires r1 < TWO_TO_80 && r2 < TWO_TO_80
    ensures ts1 * TWO_TO_80 + r1 < ts2 * TWO_TO_80 + r2 <==> ts1 < ts2 || (ts1 == ts2 && r1 < r2)
  {
  }

  /** Ids sort by time: an id made in an earlier millisecond comes first, and
      within one millisecond the random bytes decide. */
  lemma {:induction false} IdsSortByTime(enc: Alphabet, ts1: nat, rand1: Bytes, ts2: nat, rand2: Bytes)
    requires Ascending(enc)
    requires |rand1| == |rand2| == RANDOM_BYTES && ts1 < TWO_TO_48 && ts2 < TWO_TO_48
    ensures Before(RequestId(enc, ts1, rand1), RequestId(enc, ts2, rand2))
        <==> ts1 < ts2 || (ts1 == ts2 && BigEndian(rand1) < BigEndian(rand2))
  {
    RandomFits(rand1);
    RandomFits(rand2);
    IdOrder(enc, Packed(ts1, rand1), Packed(ts2, rand2));
    PackingOrders(ts1, BigEndian(rand1), ts2, BigEndian(rand2));
  }

  // What fits in 128 bits fits in 26 digits, which hold 130.
  lemma IdFits(v: nat)
    requires v < TWO_TO_48 * TWO_TO_80
    ensures v < Pow(32, CHARS)
  {
    SixteenDigits();
    PowAdds(32, 16, 10);
    assert Pow(32, 10) >= TWO_TO_48 by {
      assert Pow(32, 5) == 0x200_0000;
      PowAdds(32, 5, 5);
    }
  }

  lemma IdOrder(enc: Alphabet, v: nat, w: nat)
    requires Ascending(enc)
    requires v < TWO_TO_48 * TWO_TO_80 && w < TWO_TO_48 * TWO_TO_80
    ensures Before(Encode(enc, v, CHARS), Encode(enc, w, CHARS)) <==> v < w
  {
    IdFits(v);
    IdFits(w);
    OrderIsNumeric(enc, v, w, CHARS);
  }

  lemma IdValue(enc: Alphabet, v: nat)
    requires Ascending(enc)
    requires v < TWO_TO_48 * TWO_TO_80
    ensures Decode(enc, Encode(enc, v, CHARS)) == Some(v)
  {
    IdFits(v);
    DecodeFitting(enc, v, CHARS);
  }

  lemma {:induction false} BigEndianIsInjective(a: Bytes, b: Bytes)
    requires |a| == |b| && BigEndian(a) == BigEndian(b)
    ensures a == b
  {
    if a != [] {
      var n := |a| - 1;
      BigEndianIsInjective(a[..n], b[..n]);
      assert a == a[..n] + [a[n]] && b == b[..n] + [b[n]];
    }
  }

  /** The decoder gives back the number that the time and the random bytes were
      packed into. */
  lemma IdDecodes(enc: Alphabet, ts: nat, rand: Bytes)
    requires Ascending(enc)
    requires |rand| == RANDOM_BYTES && ts < TWO_TO_48
    ensures Decode(enc, RequestId(enc, ts, rand)) == Some(Packed(ts, rand))
  {
    RandomFits(rand);
    IdValue(enc, Packed(ts, rand));
  }

  /** No two different pairs of time and random bytes give the same id. */
  lemma IdsAreUnique(enc: Alphabet, ts1: nat, rand1: Bytes, ts2: nat, rand2: Bytes)
    requires Ascending(enc)
    requires |rand1| == |rand2| == RANDOM_BYTES && ts1 < TWO_TO_48 && ts2 < TWO_TO_48
    requires RequestId(enc, ts1, rand1) == RequestId(enc, ts2, rand2)
    ensures ts1 == ts2 && rand1 == rand2
  {
    IdDecodes(enc, ts1, rand1);
    IdDecodes(enc, ts2, rand2);
    RandomFits(rand1);
    RandomFits(rand2);
    PackingOrders(ts1, BigEndian(rand1), ts2, BigEndian(rand2));
    PackingOrders(ts2, BigEndian(rand2), ts1, BigEndian(rand1));
    BigEndianIsInjective(rand1, rand2);
  }

  // ------------------------------------------------------------- bit buffers

  const WORD: nat := 0x1_0000_0000

  // The value of 32 bits read as a signed number.
  function Signed(v: int): (r: int)
    ensures -0x8000_0000 <= r < 0x8000_0000
  {
    var u := v % WORD;
    if u >= 0x8000_0000 then u - WORD else u
  }

  // Shifting left by eight and putting a byte in the freed bits.
  function PushUnsigned(buf: nat, b: byte): nat {
    buf * 256 % WORD + b as int
  }

  function PushSigned(buf: int, b: byte): int {
    Signed(buf * 256) + b as int
  }

  // The five bits above the lowest `bits`; the shift rounds down.
  function FiveBits(buf: int, bits: nat): (d: nat)
    ensures d < 32
  {
    buf / Pow(2, bits) % 32
  }

  lemma PushUnsignedWraps(v: nat, b: byte)
    ensures PushUnsigned(v % WORD, b) == (256 * v + b as int) % WORD
  {
  }

  lemma LowByteFree(r: nat)
    ensures 256 * r % WORD + 255 < WORD
  {
  }

  lemma {:induction false} PushSignedWraps(v: nat, b: byte)
    ensures PushSigned(Signed(v), b) == Signed(256 * v + b as int)
  {
    PushUnsignedWraps(v, b);
    var u := v % WORD;
    LowByteFree(u);
    ModThenDiv(256 * u, 256, 0x100_0000);
    ModOfMod(256 * u, 256, 0x100_0000);
    assert Signed(v) * 256 % WORD == u * 256 % WORD by {
      if Signed(v) != u {
        SameRemainder(u * 256, 256);
      }
    }
  }

  lemma SameRemainder(x: int, k: nat)
    ensures (x - WORD * k) % WORD == x % WORD
  {
  }

  // The word splits into the bits below five chosen ones, those five, and the
  // bits above them.
  lemma WordSplits(bits: nat)
    requires bits <= 7
    ensures WORD == Pow(2, bits) * (32 * Pow(2, 27 - bits))
  {
    assert Pow(2, 5) == 32;
    assert Pow(2, 8) == 256;
    PowAdds(2, 8, 8);
    PowAdds(2, 16, 16);
    PowAdds(2, 5, 27 - bits);
    PowAdds(2, bits, 32 - bits);
  }

  lemma MiddleBits(v: nat, a: nat, c: nat)
    requires a >= 1 && c >= 1 && WORD == a * (32 * c)
    ensures v % WORD / a % 32 == v / a % 32
  {
    ModThenDiv(v, a, 32 * c);
    ModOfMod(v / a, 32, c);
  }

  // Five bits low enough in the word are not touched by the wrap-around.
  lemma UnsignedBits(v: nat, bits: nat)
    requires bits <= 7
    ensures FiveBits(v % WORD, bits) == FiveBits(v, bits)
  {
    WordSplits(bits);
    MiddleBits(v, Pow(2, bits), Pow(2, 27 - bits));
  }

  lemma SignedBits(v: nat, bits: nat)
    requires bits <= 7
    ensures FiveBits(Signed(v), bits) == FiveBits(v, bits)
  {
    UnsignedBits(v, bits);
    if Signed(v) != v % WORD {
      WordSplits(bits);
      BorrowHigh(v % WORD, Pow(2, bits), Pow(2, 27 - bits));
    }
  }

  lemma BorrowHigh(u: nat, a: nat, c: nat)
    requires a >= 1
    ensures (u - a * (32 * c)) / a % 32 == u / a % 32
  {
    var q, r := u / a, u % a;
    assert u == a * q + r;
    assert a * q - a * (32 * c) == a * (q - 32 * c);
    FloorDiv(u - a * (32 * c), a, q - 32 * c, r);
    assert (q - 32 * c) % 32 == q % 32;
  }

  lemma FloorDiv(v: int, a: nat, q: int, r: nat)
    requires a >= 1 && v == a * q + r && r < a
    ensures v / a == q
  {
    var k := q - v / a;
    assert v == a * (v / a) + v % a;
    assert a * k == a * q - a * (v / a);
    ProductAtLeast(a, k);
  }

  // What the characters written so far spell: all bits taken in, except the
  // few still waiting in the buffer.
  lemma TakeByte(v: nat, b: byte, bits: nat)
    ensures (256 * v + b as int) / Pow(2, bits + 8) == v / Pow(2, bits)
  {
    PowAdds(2, 8, bits);
    assert Pow(2, 8) == 256;
    TwoDivisions(256 * v + b as int, 256, Pow(2, bits));
    DivMod(256 * v + b as int, 256, v, b as int);
  }

  lemma TakeFive(enc: Alphabet, v: nat, bits: nat, n: nat)
    requires bits >= 5
    ensures Encode(enc, v / Pow(2, bits - 5), n + 1)
         == Encode(enc, v / Pow(2, bits), n) + [Digit(enc, FiveBits(v, bits - 5))]
  {
    PowAdds(2, bits - 5, 5);
    assert Pow(2, 5) == 32;
    TwoDivisions(v, Pow(2, bits - 5), 32);
  }

  lemma BigEndianMore(rand: Bytes, i: nat)
    requires i < |rand|
    ensures BigEndian(rand[..i + 1]) == 256 * BigEndian(rand[..i]) + rand[i] as nat
  {
    assert rand[..i + 1][..i] == rand[..i];
  }

  // ---------------------------------------------------------------- encoders

  // The digit loop: ten characters in TypeScript and Go, all 26 in Python.
  method WriteDigits(enc: Alphabet, out: array<char>, v: nat, n: nat)
    requires n <= out.Length
    modifies out
    ensures out[..n] == Encode(enc, v, n)
    ensures forall k :: n <= k < out.Length ==> out[k] == old(out[k])
  {
    var rest := v;
    var i := n;
    while i > 0
      invariant 0 <= i <= n
      invariant Encode(enc, rest, i) + out[i..n] == Encode(enc, v, n)
      invariant forall k :: n <= k < out.Length ==> out[k] == old(out[k])
    {
      ghost var tail := out[i..n];
      i := i - 1;
      out[i] := Digit(enc, rest % 32);
      assert out[i..n] == [Digit(enc, rest % 32)] + tail;
      rest := rest / 32;
    }
    assert out[0..n] == out[..n];
  }

  /** schema.py: the digits of one big integer. */
  method PyNewRequestId(enc: Alphabet, ts: nat, rand: Bytes) returns (id: string)
    requires |rand| == RANDOM_BYTES
    ensures id == RequestId(enc, ts, rand)
  {
    var out := new char[CHARS](_ => '0');
    WriteDigits(enc, out, Packed(ts, rand), CHARS);
    id := out[..];
    assert out[..] == out[..CHARS];
  }

  // What the characters after the time spell when the first `i` bytes are in and
  // `bits` of their bits still wait in the buffer.
  ghost function Written(enc: Alphabet, v: nat, bits: nat, n: nat): (s: string)
    ensures |s| == n
  {
    Encode(enc, v / Pow(2, bits), n)
  }

  lemma ByteTaken(enc: Alphabet, rand: Bytes, i: nat, bits: nat, n: nat)
    requires i < |rand|
    ensures BigEndian(rand[..i + 1]) == 256 * BigEndian(rand[..i]) + rand[i] as nat
    ensures Written(enc, BigEndian(rand[..i + 1]), bits + 8, n) == Written(enc, BigEndian(rand[..i]), bits, n)
  {
    BigEndianMore(rand, i);
    TakeByte(BigEndian(rand[..i]), rand[i], bits);
  }

  lemma DigitTaken(enc: Alphabet, buf: int, v: nat, bits: nat, n: nat)
    requires 5 <= bits <= 12 && (buf == v % WORD || buf == Signed(v))
    ensures Written(enc, v, bits - 5, n + 1) == Written(enc, v, bits, n) + [Digit(enc, FiveBits(buf, bits - 5))]
  {
    TakeFive(enc, v, bits, n);
    UnsignedBits(v, bits - 5);
    SignedBits(v, bits - 5);
  }

  lemma AllWritten(enc: Alphabet, ts: nat, rand: Bytes)
    requires |rand| == RANDOM_BYTES
    ensures RequestId(enc, ts, rand)
         == Encode(enc, ts, TIME_CHARS) + Written(enc, BigEndian(rand), 0, CHARS - TIME_CHARS)
  {
    IdIsTwoParts(enc, ts, rand);
    assert Pow(2, 0) == 1;
  }

  lemma NothingWritten(enc: Alphabet)
    ensures Written(enc, BigEndian([]), 0, 0) == ""
  {
  }

  // The inner loop of the encoders: a character for every five bits that wait in
  // the buffer.  `v` is the number all bytes so far spell; the buffer holds its
  // low 32 bits, read as unsigned or as signed.
  method DrainBits(enc: Alphabet, out: array<char>, start: nat, buf: int, count: nat, ghost head: string, ghost v: nat)
      returns (pos: nat, bits: nat)
    requires count <= 12 && |head| <= start && start + count / 5 <= out.Length
    requires buf == v % WORD || buf == Signed(v)
    requires out[..start] == head + Written(enc, v, count, start - |head|)
    modifies out
    ensures bits < 5 && 5 * (pos - start) + bits == count && start <= pos <= out.Length
    ensures out[..pos] == head + Written(enc, v, bits, pos - |head|)
  {
    pos, bits := start, count;
    while bits >= 5
      invariant bits <= count && start <= pos && 5 * (pos - start) + bits == count
      invariant pos + bits / 5 <= out.Length
      invariant out[..pos] == head + Written(enc, v, bits, pos - |head|)
    {
      bits := bits - 5;
      DigitTaken(enc, buf, v, bits + 5, pos - |head|);
      ghost var before := out[..pos];
      var c := Digit(enc, FiveBits(buf, bits));
      out[pos] := c;
      pos := pos + 1;
      assert out[..pos] == before + [c];
    }
  }

  /** event.go: the random bytes run through an unsigned 32-bit buffer, whose
      high bits fall off.  The id is the same. */
  method GoNewRequestId(enc: Alphabet, ts: nat, rand: Bytes) returns (id: string)
    requires |rand| == RANDOM_BYTES
    ensures id == RequestId(enc, ts, rand)
  {
    var out := new char[CHARS](_ => '0');
    WriteDigits(enc, out, ts, TIME_CHARS);
    ghost var time := out[..TIME_CHARS];
    var bitBuf: nat, bits: nat, pos: nat := 0, 0, TIME_CHARS;
    NothingWritten(enc);
    assert rand[..0] == [];
    for i := 0 to |rand|
      invariant bitBuf == BigEndian(rand[..i]) % WORD
      invariant bits < 5 && 5 * (pos - TIME_CHARS) + bits == 8 * i
      invariant TIME_CHARS <= pos <= CHARS
      invariant out[..pos] == time + Written(enc, BigEndian(rand[..i]), bits, pos - TIME_CHARS)
    {
      ByteTaken(enc, rand, i, bits, pos - TIME_CHARS);
      PushUnsignedWraps(BigEndian(rand[..i]), rand[i]);
      bitBuf := PushUnsigned(bitBuf, rand[i]);
      pos, bits := DrainBits(enc, out, pos, bitBuf, bits + 8, time, BigEndian(rand[..i + 1]));
    }
    assert rand[..|rand|] == rand;
    AllWritten(enc, ts, rand);
    id := out[..];
    assert out[..] == out[..pos];
  }

  /** schema.ts: the same with a signed 32-bit buffer and a shift that keeps the
      sign.  The id is the same. */
  method TsNewRequestId(enc: Alphabet, ts: nat, rand: Bytes) returns (id: string)
    requires |rand| == RANDOM_BYTES
    ensures id == RequestId(enc, ts, rand)
  {
    var out := new char[CHARS](_ => '0');
    WriteDigits(enc, out, ts, TIME_CHARS);
    ghost var time := out[..TIME_CHARS];
    var bitBuffer: int, bitCount: nat, pos: nat := 0, 0, TIME_CHARS;
    NothingWritten(enc);
    assert rand[..0] == [];
    for i := 0 to |rand|
      invariant bitBuffer == Signed(BigEndian(rand[..i]))
      invariant bitCount < 5 && 5 * (pos - TIME_CHARS) + bitCount == 8 * i
      invariant TIME_CHARS <= pos <= CHARS
      invariant out[..pos] == time + Written(enc, BigEndian(rand[..i]), bitCount, pos - TIME_CHARS)
    {
      ByteTaken(enc, rand, i, bitCount, pos - TIME_CHARS);
      PushSignedWraps(BigEndian(rand[..i]), rand[i]);
      bitBuffer := PushSigned(bitBuffer, rand[i]);
      pos, bitCount := DrainBits(enc, out, pos, bitBuffer, bitCount + 8, time, BigEndian(rand[..i + 1]));
    }
    assert rand[..|rand|] == rand;
    AllWritten(enc, ts, rand);
    id := out[..];
    assert out[..] == out[..pos];
  }
}
