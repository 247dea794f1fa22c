/** The CRC-32 of integrations/web/zip.js, and what it computes. */
module Crc32 {

  // The reference definition is polynomial long division over GF(2) as in RFC 1952 section 8:
  // reflected generator 0xEDB88320, register preset to ones, final complement. The bit-vector
  // operators carry names (Xor, Half, Odd) so that proofs which only use their laws need not look
  // at individual bits.

  type byte = bv8

  const POLY: bv32 := 0xedb88320
  const ONES: bv32 := 0xffffffff

  function Xor(a: bv32, b: bv32): bv32 { a ^ b }
  function Half(c: bv32): bv32 { c >> 1 }
  predicate Odd(c: bv32) { c & 1 == 1 }

  // ---------- the table-driven code, as functions ----------

  /** One shift of the register, as in the inner loop that fills the table. */
  function Shift1(c: bv32): bv32 {
    if Odd(c) then Xor(POLY, Half(c)) else Half(c)
  }

  function Shift(c: bv32, k: nat): bv32
    decreases k
  {
    if k == 0 then c else Shift(Shift1(c), k - 1)
  }

  function TableEntry(n: byte): bv32 {
    Shift(n as bv32, 8)
  }

  function Low(c: bv32): byte {
    (c & 0xff) as byte
  }

  /** The register after one byte, through the table. */
  function Update(c: bv32, b: byte): bv32 {
    Xor(TableEntry(Low(Xor(c, b as bv32))), c >> 8)
  }

  function Run(c: bv32, s: seq<byte>): bv32
    decreases |s|
  {
    if s == [] then c else Run(Update(c, s[0]), s[1..])
  }

  function Crc(s: seq<byte>): bv32 {
    Xor(Run(ONES, s), ONES)
  }

  function EntryAt(n: nat): bv32
    requires n < 256
  {
    TableEntry(n as byte)
  }

  lemma EntryAtByte(b: byte)
    ensures EntryAt(b as int) == TableEntry(b)
  {
  }

  ghost predicate IsTable(t: array<bv32>)
    reads t
  {
    t.Length == 256 && forall n: nat :: n < 256 ==> t[n] == EntryAt(n)
  }

  // ---------- the imperative code ----------

  method BuildTable() returns (t: array<bv32>)
    ensures fresh(t)
    ensures IsTable(t)
  {
    hide EntryAt;
    t := new bv32[256];
    for n := 0 to 256
      invariant forall j: nat :: j < n ==> t[j] == EntryAt(j)
    {
      var entry := ComputeEntry(n);
      t[n] := entry;
    }
  }

  method ComputeEntry(n: nat) returns (c: bv32)
    requires n < 256
    ensures c == EntryAt(n)
  {
    c := (n as byte) as bv32;
    for k := 0 to 8
      invariant Shift(c, 8 - k) == EntryAt(n)
    {
      c := if c & 1 == 1 then POLY ^ (c >> 1) else c >> 1;
    }
  }

  /** The loop of crc32 over the bytes, given the table. */
  method Compute(table: array<bv32>, bytes: seq<byte>) returns (crc: bv32)
    requires IsTable(table)
    ensures crc == Crc(bytes)
  {
    hide TableEntry;
    var c := ONES;
    for i := 0 to |bytes|
      invariant Run(c, bytes[i..]) == Run(ONES, bytes)
    {
      hide Xor, Low;
      c := Lookup(table, c, bytes[i]);
      assert bytes[i..][1..] == bytes[i + 1..];
    }
    crc := c ^ ONES;
  }

  method Lookup(table: array<bv32>, c: bv32, b: byte) returns (r: bv32)
    requires IsTable(table)
    ensures r == Update(c, b)
  {
    hide TableEntry, EntryAt, Xor, Low;
    var index := Low(Xor(c, b as bv32));
    EntryAtByte(index);
    r := Xor(table[index as int], c >> 8);
  }

  // ---------- laws of the bit operators ----------

  lemma XorAssoc(a: bv32, b: bv32, c: bv32)
    ensures Xor(Xor(a, b), c) == Xor(a, Xor(b, c))
  {
  }

  lemma XorComm(a: bv32, b: bv32)
    ensures Xor(a, b) == Xor(b, a)
  {
  }

  lemma XorZero(a: bv32)
    ensures Xor(a, 0) == a
  {
  }

  lemma XorCancel(a: bv32, b: bv32)
    ensures Xor(Xor(a, b), b) == a
  {
  }

  lemma HalfXor(a: bv32, b: bv32)
    ensures Half(Xor(a, b)) == Xor(Half(a), Half(b))
  {
  }

  lemma OddXor(a: bv32, b: bv32)
    ensures Odd(Xor(a, b)) <==> Odd(a) != Odd(b)
  {
  }

  /** The register shift is linear over GF(2). */
  lemma Shift1Linear(x: bv32, y: bv32)
    ensures Shift1(Xor(x, y)) == Xor(Shift1(x), Shift1(y))
  {
    hide Xor, Half, Odd;
    var a, b := Half(x), Half(y);
    OddXor(x, y);
    HalfXor(x, y);
    if Odd(x) && Odd(y) {
      calc {
        Xor(Xor(POLY, a), Xor(POLY, b));
        { XorComm(POLY, a); XorAssoc(a, POLY, Xor(POLY, b)); }
        Xor(a, Xor(POLY, Xor(POLY, b)));
        { XorComm(POLY, b); XorComm(POLY, Xor(b, POLY)); XorCancel(b, POLY); }
        Xor(a, b);
      }
    } else {
      XorAssoc(POLY, a, b);
      XorComm(a, Xor(POLY, b));
      XorAssoc(POLY, b, a);
      XorComm(a, b);
    }
  }

  lemma {:induction false} ShiftLinear(x: bv32, y: bv32, k: nat)
    ensures Shift(Xor(x, y), k) == Xor(Shift(x, k), Shift(y, k))
    decreases k
  {
    hide Xor, Shift1;
    if k > 0 {
      Shift1Linear(x, y);
      ShiftLinear(Shift1(x), Shift1(y), k - 1);
    }
  }

  lemma {:induction false} ShiftAdd(c: bv32, j: nat, k: nat)
    ensures Shift(c, j + k) == Shift(Shift(c, j), k)
    decreases j
  {
    hide Shift1;
    if j > 0 {
      ShiftAdd(Shift1(c), j - 1, k);
    }
  }

  function Halves(c: bv32, n: nat): bv32
    decreases n
  {
    if n == 0 then c else Halves(Half(c), n - 1)
  }

  lemma HalvesEight(c: bv32)
    ensures Halves(c, 8) == c >> 8
  {
    HalvesFour(c);
    HalvesFour(Half(Half(Half(Half(c)))));
    HalvesAdd(c, 4, 4);
    hide Halves;
  }

  lemma HalvesFour(c: bv32)
    ensures Halves(c, 4) == Half(Half(Half(Half(c))))
  {
    hide Half;
    assert Halves(c, 4) == Halves(Half(c), 3) == Halves(Half(Half(c)), 2);
  }

  lemma {:induction false} HalvesAdd(c: bv32, j: nat, k: nat)
    ensures Halves(c, j + k) == Halves(Halves(c, j), k)
    decreases j
  {
    hide Half;
    if j > 0 {
      HalvesAdd(Half(c), j - 1, k);
    }
  }

  /** Stripping the low bit, then halving. */
  lemma LowBit(v: bv32)
    ensures v == Xor(Bit(Odd(v)), v & 0xfffffffe)
    ensures !Odd(v & 0xfffffffe) && Half(v & 0xfffffffe) == Half(v)
  {
    LowBitIs(v);
    LowBitSplit(v);
  }

  lemma LowBitIs(v: bv32)
    ensures v & 1 == 0 || v & 1 == 1
  {
  }

  lemma LowBitSplit(v: bv32)
    ensures v == Xor(v & 1, v & 0xfffffffe)
  {
  }

  // ---------- bits, and the bit-serial register ----------

  /** The low n coefficients, least significant bit first. */
  function Bits(c: bv32, n: nat): (bits: seq<bool>)
    ensures |bits| == n
    decreases n
  {
    if n == 0 then [] else [Odd(c)] + Bits(Half(c), n - 1)
  }

  function Bit(b: bool): bv32 { if b then 1 else 0 }

  /** Feeding message bits one at a time, least significant bit of each byte first. */
  function Serial(c: bv32, message: seq<bool>): bv32
    decreases |message|
  {
    if message == [] then c else Serial(Shift1(Xor(c, Bit(message[0]))), message[1..])
  }

  lemma FeedOne(c: bv32, v: bv32)
    ensures Shift1(Xor(c, v)) == Xor(Shift1(Xor(c, Bit(Odd(v)))), Half(v))
  {
    hide Xor, Half, Odd;
    var rest := v & 0xfffffffe;
    LowBit(v);
    XorAssoc(c, Bit(Odd(v)), rest);
    Shift1Linear(Xor(c, Bit(Odd(v))), rest);
  }

  /** n steps on the whole word at once equal n steps fed bit by bit, up to the bits not fed. */
  lemma {:induction false} SerialWord(c: bv32, v: bv32, n: nat)
    ensures Shift(Xor(c, v), n) == Xor(Serial(c, Bits(v, n)), Halves(v, n))
    decreases n
  {
    hide Xor, Half, Odd, Shift1;
    if n > 0 {
      FeedOne(c, v);
      SerialWord(Shift1(Xor(c, Bit(Odd(v)))), Half(v), n - 1);
      assert Bits(v, n)[1..] == Bits(Half(v), n - 1);
    }
  }

  lemma {:induction false} SerialAppend(c: bv32, a: seq<bool>, b: seq<bool>)
    ensures Serial(c, a + b) == Serial(Serial(c, a), b)
    decreases |a|
  {
    hide Xor, Bit, Shift1;
    if a == [] {
      assert a + b == b;
    } else {
      assert (a + b)[1..] == a[1..] + b;
      SerialAppend(Shift1(Xor(c, Bit(a[0]))), a[1..], b);
    }
  }

  // ---------- a table lookup is eight steps ----------

  lemma ClearHalf(h: bv32, m: bv32)
    requires m <= 0x7f && h & ((m << 1) | 1) == 0
    ensures !Odd(h) && Half(h) & m == 0
  {
  }

  /** A register whose low byte is clear only moves right. */
  lemma ClearByte(h: bv32)
    requires h & 0xff == 0
    ensures Shift(h, 8) == h >> 8
  {
    var h1 := Half(h);
    ClearHalf(h, 0x7f);
    var h2 := Half(h1);
    ClearHalf(h1, 0x3f);
    var h3 := Half(h2);
    ClearHalf(h2, 0x1f);
    var h4 := Half(h3);
    ClearHalf(h3, 0xf);
    var h5 := Half(h4);
    ClearHalf(h4, 7);
    var h6 := Half(h5);
    ClearHalf(h5, 3);
    var h7 := Half(h6);
    ClearHalf(h6, 1);
    ClearHalf(h7, 0);
    HalvesEight(h);
    hide Half, Odd, Xor;
    assert Shift(h, 8) == Shift(h2, 6) == Shift(h4, 4) == Shift(h6, 2) == Half(h7);
    assert Halves(h, 8) == Halves(h2, 6) == Halves(h4, 4) == Halves(h6, 2) == Half(h7);
  }

  lemma ByteSplit(x: bv32)
    ensures x == Xor(Low(x) as bv32, x & 0xffffff00) && (x & 0xffffff00) & 0xff == 0
    ensures (x & 0xffffff00) >> 8 == x >> 8
  {
  }

  lemma XorByteKeepsHigh(c: bv32, b: byte)
    ensures Xor(c, b as bv32) >> 8 == c >> 8
  {
  }

  /** One table lookup is eight single-bit steps after the byte is xored in. */
  lemma UpdateIsEightShifts(c: bv32, b: byte)
    ensures Update(c, b) == Shift(Xor(c, b as bv32), 8)
  {
    var x := Xor(c, b as bv32);
    ByteSplit(x);
    XorByteKeepsHigh(c, b);
    ClearByte(x & 0xffffff00);
    hide Xor, Low, Shift;
    ShiftLinear(Low(x) as bv32, x & 0xffffff00, 8);
  }

  // ---------- the reference: polynomial long division ----------

  /** Coefficients are listed from the highest power down. In the reflected convention that is the
      least significant bit of each byte, and of the register, first. */
  function MessageBits(s: seq<byte>): seq<bool> {
    if s == [] then [] else Bits(s[0] as bv32, 8) + MessageBits(s[1..])
  }

  function Zeros(n: nat): seq<bool> { seq(n, i => false) }

  /** x^32 + the generator's lower coefficients. */
  function Generator(): seq<bool> { [true] + Bits(POLY, 32) }

  /** Subtraction of g, aligned with the leading coefficient of d. */
  function XorPrefix(d: seq<bool>, g: seq<bool>): (r: seq<bool>)
    requires |g| <= |d|
    ensures |r| == |d|
  {
    seq(|d|, i requires 0 <= i < |d| => if i < |g| then d[i] != g[i] else d[i])
  }

  /** Long division by the generator: cancel the leading term until 32 coefficients remain. */
  function Remainder(d: seq<bool>): (r: seq<bool>)
    ensures |d| >= 32 ==> |r| == 32
    decreases |d|
  {
    if |d| <= 32 then d
    else Remainder((if d[0] then XorPrefix(d, Generator()) else d)[1..])
  }

  lemma {:induction false} BitsXor(a: bv32, b: bv32, n: nat)
    ensures Bits(Xor(a, b), n) == XorPrefix(Bits(a, n), Bits(b, n))
    decreases n
  {
    hide Xor, Half, Odd;
    if n > 0 {
      OddXor(a, b);
      HalfXor(a, b);
      BitsXor(Half(a), Half(b), n - 1);
    }
  }

  lemma {:induction false} BitsSnoc(c: bv32, n: nat)
    requires Halves(c, n) == 0
    ensures Bits(c, n + 1) == Bits(c, n) + [false]
    decreases n
  {
    if n == 0 {
      assert !Odd(c);
    } else {
      hide Half, Odd;
      BitsSnoc(Half(c), n - 1);
    }
  }

  lemma AllShiftedOut(c: bv32)
    ensures Halves(c, 32) == 0
  {
    HalvesAdd(c, 8, 24);
    HalvesAdd(c >> 8, 8, 16);
    HalvesAdd(c >> 16, 8, 8);
    HalvesEight(c);
    HalvesEight(c >> 8);
    HalvesEight(c >> 16);
    HalvesEight(c >> 24);
    ShiftsCompose(c);
  }

  lemma ShiftsCompose(c: bv32)
    ensures (c >> 8) >> 8 == c >> 16 && (c >> 16) >> 8 == c >> 24 && (c >> 24) >> 8 == 0
  {
  }

  lemma BitsHalf(c: bv32)
    ensures Bits(Half(c), 32) == Bits(c, 32)[1..] + [false]
  {
    hide Half, Odd;
    AllShiftedOut(c);
    BitsSnoc(c, 32);
    assert Bits(c, 33)[1..] == Bits(Half(c), 32);
  }

  /** One step of the division, on coefficient lists alone. */
  lemma DivideOnce(m: seq<bool>, r: seq<bool>, g: seq<bool>)
    requires m != [] && |r| == |g| == 32
    ensures var d := XorPrefix(m + Zeros(32), r);
            var low := r[1..] + [false];
            (if d[0] then XorPrefix(d, [true] + g) else d)[1..]
            == XorPrefix(m[1..] + Zeros(32), if m[0] != r[0] then XorPrefix(g, low) else low)
  {
  }

  lemma DivisionStep(m: seq<bool>, c: bv32)
    requires m != []
    ensures var d := XorPrefix(m + Zeros(32), Bits(c, 32));
            (if d[0] then XorPrefix(d, Generator()) else d)[1..]
            == XorPrefix(m[1..] + Zeros(32), Bits(Shift1(Xor(c, Bit(m[0]))), 32))
  {
    var fed := Xor(c, Bit(m[0]));
    BitFeed(c, m[0]);
    BitsHalf(c);
    DivideOnce(m, Bits(c, 32), Bits(POLY, 32));
    hide Xor, Half, Bit, Bits, Odd;
    BitsXor(POLY, Half(fed), 32);
  }

  lemma BitFeed(c: bv32, b: bool)
    ensures Half(Xor(c, Bit(b))) == Half(c) && (Odd(Xor(c, Bit(b))) <==> Odd(c) != b)
    ensures Bits(c, 32)[0] == Odd(c)
  {
  }

  /** The bit-serial register holds the remainder of the message, shifted up by 32, with the
      register's own starting value added to the leading coefficients. */
  lemma {:induction false} SerialIsRemainder(c: bv32, m: seq<bool>)
    ensures Bits(Serial(c, m), 32) == Remainder(XorPrefix(m + Zeros(32), Bits(c, 32)))
    decreases |m|
  {
    hide Xor, Bit, Bits, Shift1;
    if m == [] {
      assert XorPrefix(m + Zeros(32), Bits(c, 32)) == Bits(c, 32);
    } else {
      DivisionStep(m, c);
      SerialIsRemainder(Shift1(Xor(c, Bit(m[0]))), m[1..]);
    }
  }

  lemma ByteHalves(b: byte)
    ensures Halves(b as bv32, 8) == 0
  {
    HalvesEight(b as bv32);
  }

  lemma {:induction false} RunIsSerial(c: bv32, s: seq<byte>)
    ensures Run(c, s) == Serial(c, MessageBits(s))
    decreases |s|
  {
    hide Update, Bits, Xor, Halves;
    if s != [] {
      var b := s[0] as bv32;
      UpdateIsEightShifts(c, s[0]);
      SerialWord(c, b, 8);
      ByteHalves(s[0]);
      XorZero(Serial(c, Bits(b, 8)));
      SerialAppend(c, Bits(b, 8), MessageBits(s[1..]));
      RunIsSerial(Update(c, s[0]), s[1..]);
    }
  }

  /** The table-driven checksum is the complemented remainder, on dividing by the generator, of
      the message times x^32 with its first 32 coefficients inverted (the preset register). */
  lemma CrcIsPolynomialRemainder(s: seq<byte>)
    ensures Bits(Crc(s), 32)
         == XorPrefix(Remainder(XorPrefix(MessageBits(s) + Zeros(32), Bits(ONES, 32))), Bits(ONES, 32))
  {
    hide Run, Bits, Xor, Remainder;
    RunIsSerial(ONES, s);
    SerialIsRemainder(ONES, MessageBits(s));
    BitsXor(Run(ONES, s), ONES, 32);
  }

  // ---------- the check value ----------

  function Shift4(c: bv32): bv32 { Shift1(Shift1(Shift1(Shift1(c)))) }

  lemma ShiftEight(c: bv32)
    ensures Shift(c, 8) == Shift4(Shift4(c))
  {
    hide Shift1;
    var d := Shift1(Shift1(Shift1(Shift1(c))));
    assert Shift(c, 8) == Shift(Shift1(Shift1(c)), 6) == Shift(d, 4) == Shift(Shift1(Shift1(d)), 2);
  }

  /** One byte through the register. */
  lemma UpdateIs(c: bv32, b: byte, d: bv32)
    requires Xor(Shift4(Shift4(Low(Xor(c, b as bv32)) as bv32)), c >> 8) == d
    ensures Update(c, b) == d
  {
    hide Shift4, Shift;
    ShiftEight(Low(Xor(c, b as bv32)) as bv32);
  }

  /** The register after each of the digits. */
  lemma CheckFirst()
    ensures Update(0xffffffff, 0x31) == 0x7c231048
    ensures Update(0x7c231048, 0x32) == 0xb0acbb32
    ensures Update(0xb0acbb32, 0x33) == 0x77b79c2d
    ensures Update(0x77b79c2d, 0x34) == 0x641c1f5c
    ensures Update(0x641c1f5c, 0x35) == 0x340ac5e3
  {
    UpdateIs(0xffffffff, 0x31, 0x7c231048);
    UpdateIs(0x7c231048, 0x32, 0xb0acbb32);
    UpdateIs(0xb0acbb32, 0x33, 0x77b79c2d);
    UpdateIs(0x77b79c2d, 0x34, 0x641c1f5c);
    UpdateIs(0x641c1f5c, 0x35, 0x340ac5e3);
  }

  lemma CheckRest()
    ensures Update(0x340ac5e3, 0x36) == 0xf68d2c9e
    ensures Update(0xf68d2c9e, 0x37) == 0xaffc9660
    ensures Update(0xaffc9660, 0x38) == 0x651f2550
    ensures Update(0x651f2550, 0x39) == 0x340bc6d9
  {
    UpdateIs(0x340ac5e3, 0x36, 0xf68d2c9e);
    UpdateIs(0xf68d2c9e, 0x37, 0xaffc9660);
    UpdateIs(0xaffc9660, 0x38, 0x651f2550);
    UpdateIs(0x651f2550, 0x39, 0x340bc6d9);
  }

  lemma RunAt(c: bv32, s: seq<byte>, i: nat)
    requires i < |s|
    ensures Run(c, s[i..]) == Run(Update(c, s[i]), s[i + 1..])
  {
    hide Update;
    assert s[i..][1..] == s[i + 1..];
  }

  /** The check value that catalogues of CRCs give for this one: the checksum of the digits 1 to 9. */
  lemma CheckValue()
    ensures Crc([0x31, 0x32, 0x33, 0x34, 0x35, 0x36, 0x37, 0x38, 0x39]) == 0xcbf43926
  {
    CheckFirst();
    CheckRest();
    hide Update;
    var s: seq<byte> := [0x31, 0x32, 0x33, 0x34, 0x35, 0x36, 0x37, 0x38, 0x39];
    assert s[0..] == s && s[9..] == [] && Run(0x340bc6d9, s[9..]) == 0x340bc6d9;
    hide Run;
    RunAt(0xffffffff, s, 0);
    RunAt(0x7c231048, s, 1);
    RunAt(0xb0acbb32, s, 2);
    RunAt(0x77b79c2d, s, 3);
    RunAt(0x641c1f5c, s, 4);
    RunAt(0x340ac5e3, s, 5);
    RunAt(0xf68d2c9e, s, 6);
    RunAt(0xaffc9660, s, 7);
    RunAt(0x651f2550, s, 8);
  }

  // ---------- the register update is a bijection ----------

  const TOP: bv32 := 0x80000000

  /** The inverse shift: only the generator's term sets the top bit. */
  function Unshift1(c: bv32): bv32 {
    if c & TOP == TOP then (Xor(c, POLY) << 1) | 1 else c << 1
  }

  function Unshift(c: bv32, k: nat): bv32
    decreases k
  {
    if k == 0 then c else Unshift1(Unshift(c, k - 1))
  }

  lemma Unshift1Inverts(c: bv32)
    ensures Unshift1(Shift1(c)) == c
  {
    OddOrEven(c);
    if Odd(c) {
      UnshiftOdd(c);
    } else {
      UnshiftEven(c);
    }
  }

  lemma OddOrEven(c: bv32)
    ensures Odd(c) || c & 1 == 0
  {
  }

  lemma UnshiftOdd(c: bv32)
    requires Odd(c)
    ensures Xor(POLY, Half(c)) & TOP == TOP && (Xor(Xor(POLY, Half(c)), POLY) << 1) | 1 == c
  {
  }

  lemma UnshiftEven(c: bv32)
    requires c & 1 == 0
    ensures Half(c) & TOP != TOP && Half(c) << 1 == c
  {
  }

  lemma Shift1Inverts(c: bv32)
    ensures Shift1(Unshift1(c)) == c
  {
    if c & TOP == TOP {
      ShiftTop(c);
    } else {
      ShiftNoTop(c);
    }
  }

  lemma ShiftTop(c: bv32)
    requires c & TOP == TOP
    ensures Odd((Xor(c, POLY) << 1) | 1) && Xor(POLY, Half((Xor(c, POLY) << 1) | 1)) == c
  {
  }

  lemma ShiftNoTop(c: bv32)
    requires c & TOP != TOP
    ensures !Odd(c << 1) && Half(c << 1) == c
  {
  }

  lemma {:induction false} UnshiftInverts(c: bv32, k: nat)
    ensures Unshift(Shift(c, k), k) == c && Shift(Unshift(c, k), k) == c
    decreases k
  {
    hide Shift1, Unshift1;
    if k > 0 {
      UnshiftInverts(Shift1(c), k - 1);
      Unshift1Inverts(c);
      UnshiftInverts(c, k - 1);
      Shift1Inverts(Unshift(c, k - 1));
    }
  }

  /** The register before one byte, from the register after it. */
  function Downdate(c: bv32, b: byte): bv32 { Xor(Unshift(c, 8), b as bv32) }

  /** For every byte the register update is a bijection on the 2^32 register values. */
  lemma UpdateIsBijective(c: bv32, b: byte)
    ensures Downdate(Update(c, b), b) == c && Update(Downdate(c, b), b) == c
  {
    hide Xor, Update, Shift, Unshift;
    UpdateIsEightShifts(c, b);
    UnshiftInverts(Xor(c, b as bv32), 8);
    XorCancel(c, b as bv32);
    UpdateIsEightShifts(Downdate(c, b), b);
    XorCancel(Unshift(c, 8), b as bv32);
    UnshiftInverts(c, 8);
  }

  // ---------- burst errors ----------

  lemma {:induction false} RunAppend(c: bv32, a: seq<byte>, b: seq<byte>)
    ensures Run(c, a + b) == Run(Run(c, a), b)
    decreases |a|
  {
    hide Update;
    if a == [] {
      assert a + b == b;
    } else {
      assert (a + b)[1..] == a[1..] + b;
      RunAppend(Update(c, a[0]), a[1..], b);
    }
  }

  lemma {:induction false} RunInjective(c: bv32, d: bv32, s: seq<byte>)
    requires Run(c, s) == Run(d, s)
    ensures c == d
    decreases |s|
  {
    hide Update, Downdate;
    if s != [] {
      RunInjective(Update(c, s[0]), Update(d, s[0]), s[1..]);
      UpdateIsBijective(c, s[0]);
      UpdateIsBijective(d, s[0]);
    }
  }

  function Up8(w: bv32): bv32 { w << 8 }

  /** At most four bytes, read as one little-endian word. */
  function Word(s: seq<byte>): bv32 {
    if s == [] then 0 else Xor(s[0] as bv32, Up8(Word(s[1..])))
  }

  /** The word has at most n significant bytes. */
  predicate Fits(w: bv32, n: nat)
    requires n <= 4
  {
    w <= if n == 0 then 0 else if n == 1 then 0xff else if n == 2 then 0xffff else if n == 3 then 0xffffff else ONES
  }

  lemma WordGrows(b: byte, w: bv32, n: nat)
    requires n < 4 && Fits(w, n)
    ensures Fits(Xor(b as bv32, Up8(w)), n + 1)
  {
    if n == 0 {
      assert w <= 0 ==> b as bv32 ^ (w << 8) <= 0xff;
    } else if n == 1 {
      assert w <= 0xff ==> b as bv32 ^ (w << 8) <= 0xffff;
    } else if n == 2 {
      assert w <= 0xffff ==> b as bv32 ^ (w << 8) <= 0xffffff;
    } else {
      assert b as bv32 ^ (w << 8) <= ONES;
    }
  }

  lemma {:induction false} WordFits(s: seq<byte>)
    requires |s| <= 4
    ensures Fits(Word(s), |s|)
  {
    if s == [] {
      assert Fits(0, 0);
    } else {
      hide Xor, Up8, Fits;
      WordFits(s[1..]);
      WordGrows(s[0], Word(s[1..]), |s| - 1);
    }
  }

  lemma WordLow(b: byte, w: bv32)
    ensures Low(Xor(b as bv32, Up8(w))) == b
  {
  }

  function Down8(w: bv32): bv32 { w >> 8 }

  lemma WordHigh(b: byte, w: bv32, n: nat)
    requires n <= 3 && Fits(w, n)
    ensures Down8(Xor(b as bv32, Up8(w))) == w && Shift(Up8(w), 8) == w
  {
    FitsThree(w, n);
    WordHighBits(b, w);
    UpIsClear(w);
    hide Fits, Xor, Up8, Shift;
  }

  lemma FitsThree(w: bv32, n: nat)
    requires n <= 3 && Fits(w, n)
    ensures w <= 0xffffff
  {
    hide Xor;
  }

  lemma WordHighBits(b: byte, w: bv32)
    requires w <= 0xffffff
    ensures Down8(Xor(b as bv32, Up8(w))) == w
  {
  }

  lemma UpIsClear(w: bv32)
    requires w <= 0xffffff
    ensures Shift(Up8(w), 8) == w
  {
    UpDown(w);
    ClearByte(w << 8);
    hide Shift;
  }

  lemma UpDown(w: bv32)
    requires w <= 0xffffff
    ensures (w << 8) & 0xff == 0 && (w << 8) >> 8 == w
  {
  }

  lemma WordStepInjective(b: byte, w: bv32, d: byte, x: bv32, n: nat)
    requires n <= 3 && Fits(w, n) && Fits(x, n) && Xor(b as bv32, Up8(w)) == Xor(d as bv32, Up8(x))
    ensures b == d && w == x
  {
    hide *;
    WordLow(b, w);
    WordLow(d, x);
    WordHigh(b, w, n);
    WordHigh(d, x, n);
  }

  lemma {:induction false} WordInjective(s: seq<byte>, t: seq<byte>)
    requires |s| == |t| <= 4 && Word(s) == Word(t)
    ensures s == t
  {
    hide Xor, Up8, Fits;
    if s != [] {
      WordFits(s[1..]);
      WordFits(t[1..]);
      WordStepInjective(s[0], Word(s[1..]), t[0], Word(t[1..]), |s| - 1);
      WordInjective(s[1..], t[1..]);
      assert s == [s[0]] + s[1..] && t == [t[0]] + t[1..];
    }
  }

  /** Up to four bytes enter the register as one word. */
  lemma {:induction false} RunAbsorbsWord(c: bv32, s: seq<byte>)
    requires |s| <= 4
    ensures Run(c, s) == Shift(Xor(c, Word(s)), 8 * |s|)
    decreases |s|
  {
    hide Xor, Update, Shift, Low, Up8, Down8, Fits;
    if s == [] {
      XorZero(c);
      ShiftZero(c);
    } else {
      var b, w := s[0] as bv32, Word(s[1..]);
      UpdateIsEightShifts(c, s[0]);
      RunAbsorbsWord(Update(c, s[0]), s[1..]);
      WordFits(s[1..]);
      WordHigh(s[0], w, |s| - 1);
      ShiftLinear(Xor(c, b), Up8(w), 8);
      XorAssoc(c, b, Up8(w));
      ShiftAdd(Xor(c, Word(s)), 8, 8 * (|s| - 1));
    }
  }

  lemma ShiftZero(c: bv32)
    ensures Shift(c, 0) == c
  {
  }

  predicate DifferOnlyWithin(a: seq<byte>, b: seq<byte>, start: nat, width: nat) {
    |a| == |b| && forall i :: 0 <= i < |a| && !(start <= i < start + width) ==> a[i] == b[i]
  }

  /** Two messages of equal length that differ only inside four consecutive bytes never share a
      checksum. */
  lemma BurstsAreDetected(a: seq<byte>, b: seq<byte>, start: nat)
    requires DifferOnlyWithin(a, b, start, 4) && a != b
    ensures Crc(a) != Crc(b)
  {
    if Crc(a) == Crc(b) {
      hide Xor, Run, Word, DifferOnlyWithin;
      XorCancel(Run(ONES, a), ONES);
      XorCancel(Run(ONES, b), ONES);
      var head, x, y, tail := SplitAtBurst(a, b, start, 4);
      BurstLocated(head, x, y, tail);
    }
  }

  lemma SplitAtBurst(a: seq<byte>, b: seq<byte>, start: nat, width: nat)
    returns (head: seq<byte>, x: seq<byte>, y: seq<byte>, tail: seq<byte>)
    requires DifferOnlyWithin(a, b, start, width)
    ensures a == head + x + tail && b == head + y + tail && |x| == |y| <= width
  {
    var from := if start <= |a| then start else |a|;
    var to := if from + width <= |a| then from + width else |a|;
    head, x, y, tail := a[..from], a[from..to], b[from..to], a[to..];
  }

  lemma BurstLocated(head: seq<byte>, x: seq<byte>, y: seq<byte>, tail: seq<byte>)
    requires |x| == |y| <= 4 && Run(ONES, head + x + tail) == Run(ONES, head + y + tail)
    ensures x == y
  {
    hide Xor, Run, Word, Unshift, Shift;
    var c := Run(ONES, head);
    RunAppend(ONES, head + x, tail);
    RunAppend(ONES, head + y, tail);
    RunInjective(Run(ONES, head + x), Run(ONES, head + y), tail);
    RunAppend(ONES, head, x);
    RunAppend(ONES, head, y);
    RunAbsorbsWord(c, x);
    RunAbsorbsWord(c, y);
    UnshiftInverts(Xor(c, Word(x)), 8 * |x|);
    UnshiftInverts(Xor(c, Word(y)), 8 * |y|);
    XorComm(c, Word(x));
    XorComm(c, Word(y));
    XorCancel(Word(x), c);
    XorCancel(Word(y), c);
    WordInjective(x, y);
  }
}
