/** The ZIP writer of integrations/web/zip.js and an independent reader. */
module Zip {
  import Crc32

  // The writer only stores (PKWARE APPNOTE sections 4.3.7, 4.3.12, 4.3.16). Names and payloads are
  // byte sequences; little-endian stores wrap exactly as DataView.setUint16 and setUint32 do.

  newtype octet = x: int | 0 <= x < 256
  type bytes = seq<octet>

  /** The same bytes as the bit vectors the checksum works on. */
  function Bits(data: bytes): seq<bv8> {
    seq(|data|, i requires 0 <= i < |data| => data[i] as bv8)
  }

  datatype Entry = Entry(name: bytes, data: bytes)

  datatype Option<+T> = None | Some(value: T) {
    predicate IsFailure() { None? }
    function PropagateFailure<U>(): Option<U> requires None? { None }
    function Extract(): T requires Some? { value }
  }

  // ---------- little-endian fields ----------

  datatype Width = W2 | W4 {
    function Size(): nat { if W2? then 2 else 4 }

    /** Stored values wrap at this bound. */
    function Range(): nat { if W2? then 0x1_0000 else 0x1_0000_0000 }
  }

  function Byte(n: nat): octet { (n % 256) as octet }

  /** What setUint16 or setUint32 writes, little-endian. */
  function Store(value: nat, w: Width): (b: bytes)
    ensures |b| == w.Size()
  {
    match w
    case W2 => [Byte(value), Byte(value / 256)]
    case W4 => [Byte(value), Byte(value / 256), Byte(value / 0x1_0000), Byte(value / 0x100_0000)]
  }

  function Fetch(a: bytes, p: nat, w: Width): (value: nat)
    requires p + w.Size() <= |a|
    ensures value < w.Range()
  {
    var low := a[p] as int + 256 * a[p + 1] as int;
    match w
    case W2 => low
    case W4 => low + 0x1_0000 * a[p + 2] as int + 0x100_0000 * a[p + 3] as int
  }

  lemma ByteValue(n: nat)
    ensures Byte(n) as int == n % 256
  {
  }

  lemma Mod16(k: nat, r: nat)
    requires r < 0x1_0000
    ensures (0x1_0000 * k + r) % 0x1_0000 == r
  {
  }

  lemma Mod32(k: nat, r: nat)
    requires r < 0x1_0000_0000
    ensures (0x1_0000_0000 * k + r) % 0x1_0000_0000 == r
  {
  }

  lemma TwoDigits(v: nat)
    ensures v % 256 + 256 * (v / 256 % 256) == v % 0x1_0000
  {
    var q, r := v / 256, v % 256;
    Mod16(q / 256, 256 * (q % 256) + r);
  }

  lemma TwoWords(v: nat)
    ensures v % 0x1_0000 + 0x1_0000 * (v / 0x1_0000 % 0x1_0000) == v % 0x1_0000_0000
    ensures v / 0x1_0000 / 256 == v / 0x100_0000
  {
    var q, r := v / 0x1_0000, v % 0x1_0000;
    Mod32(q / 0x1_0000, 0x1_0000 * (q % 0x1_0000) + r);
  }

  /** Reading back a stored field gives the value modulo the field's range. */
  lemma FetchStore(a: bytes, p: nat, value: nat, w: Width)
    requires At(a, p, Store(value, w))
    ensures Fetch(a, p, w) == value % w.Range()
  {
    hide Byte;
    ByteValue(value);
    ByteValue(value / 256);
    TwoDigits(value);
    var b := a[p..p + w.Size()];
    assert a[p] == b[0] && a[p + 1] == b[1];
    if w.W4? {
      var high := value / 0x1_0000;
      assert a[p + 2] == b[2] && a[p + 3] == b[3];
      TwoWords(value);
      ByteValue(high);
      ByteValue(high / 256);
      TwoDigits(high);
    }
  }

  /** The bytes x lie in a at position p. */
  predicate At(a: bytes, p: nat, x: bytes) {
    p + |x| <= |a| && a[p..p + |x|] == x
  }

  lemma AtSplit(a: bytes, p: nat, x: bytes, y: bytes)
    requires At(a, p, x + y)
    ensures At(a, p, x) && At(a, p + |x|, y)
  {
    var all := a[p..p + |x + y|];
    assert a[p..p + |x|] == all[..|x|] && a[p + |x|..p + |x| + |y|] == all[|x|..];
  }

  // ---------- records as lists of fields ----------

  datatype Field = Field(width: Width, value: nat)

  function Encode(fields: seq<Field>): bytes {
    if fields == [] then [] else Store(fields[0].value, fields[0].width) + Encode(fields[1..])
  }

  /** Where field k starts in a record of the given shape. */
  function Offset(shape: seq<Width>, k: nat): nat
    decreases k
  {
    if k == 0 || shape == [] then 0 else shape[0].Size() + Offset(shape[1..], k - 1)
  }

  lemma {:induction false} OffsetStep(shape: seq<Width>, k: nat)
    requires k < |shape|
    ensures Offset(shape, k + 1) == Offset(shape, k) + shape[k].Size()
    decreases k
  {
    if k > 0 {
      OffsetStep(shape[1..], k - 1);
    } else {
      assert Offset(shape[1..], 0) == 0;
    }
  }

  function Shape(fields: seq<Field>): seq<Width> {
    seq(|fields|, i requires 0 <= i < |fields| => fields[i].width)
  }

  lemma {:induction false} EncodeLength(fields: seq<Field>)
    ensures |Encode(fields)| == Offset(Shape(fields), |fields|)
  {
    if fields != [] {
      assert Shape(fields)[1..] == Shape(fields[1..]);
      EncodeLength(fields[1..]);
    }
  }

  lemma {:induction false} EncodeSnoc(fields: seq<Field>, f: Field)
    ensures Encode(fields + [f]) == Encode(fields) + Store(f.value, f.width)
  {
    hide Store;
    if fields == [] {
      assert Encode([]) + Store(f.value, f.width) == Store(f.value, f.width) + Encode([]);
    } else {
      assert (fields + [f])[1..] == fields[1..] + [f];
      EncodeSnoc(fields[1..], f);
    }
  }

  /** The field at position p, or zero past the end. */
  function Get(a: bytes, p: nat, w: Width): (value: nat)
    ensures value < w.Range()
  {
    if p + w.Size() <= |a| then Fetch(a, p, w) else 0
  }

  lemma {:induction false} GetEncoded(fields: seq<Field>, k: nat, a: bytes, p: nat)
    requires k < |fields| && At(a, p, Encode(fields))
    ensures Get(a, p + Offset(Shape(fields), k), fields[k].width) == fields[k].value % fields[k].width.Range()
    decreases k
  {
    hide Store, Fetch;
    var w, rest := fields[0].width, fields[1..];
    assert Shape(fields)[1..] == Shape(rest);
    AtSplit(a, p, Store(fields[0].value, w), Encode(rest));
    if k == 0 {
      FetchStore(a, p, fields[0].value, w);
    } else {
      GetEncoded(rest, k - 1, a, p + w.Size());
    }
  }

  // ---------- the layout ----------

  const LOCAL_SIG := 0x04034b50
  const CENTRAL_SIG := 0x02014b50
  const END_SIG := 0x06054b50
  const UTF8_FLAG := 0x0800
  const DOS_TIME := 0
  const DOS_DATE := 23585 // 46 * 512 + 32 + 1, that is 2026-01-01

  function CrcField(data: bytes): nat { Crc32.Crc(Bits(data)) as nat }

  function LocalFields(e: Entry): seq<Field> {
    [Field(W4, LOCAL_SIG), Field(W2, 20), Field(W2, UTF8_FLAG), Field(W2, 0), Field(W2, DOS_TIME), Field(W2, DOS_DATE),
     Field(W4, CrcField(e.data)), Field(W4, |e.data|), Field(W4, |e.data|), Field(W2, |e.name|), Field(W2, 0)]
  }

  function CentralFields(e: Entry, offset: nat): seq<Field> {
    [Field(W4, CENTRAL_SIG), Field(W2, 20), Field(W2, 20), Field(W2, UTF8_FLAG), Field(W2, 0), Field(W2, DOS_TIME),
     Field(W2, DOS_DATE), Field(W4, CrcField(e.data)), Field(W4, |e.data|), Field(W4, |e.data|), Field(W2, |e.name|),
     Field(W2, 0), Field(W2, 0), Field(W2, 0), Field(W2, 0), Field(W4, 0), Field(W4, offset)]
  }

  function EndFields(count: nat, size: nat, start: nat): seq<Field> {
    [Field(W4, END_SIG), Field(W2, 0), Field(W2, 0), Field(W2, count), Field(W2, count), Field(W4, size),
     Field(W4, start), Field(W2, 0)]
  }

  const LOCAL_SHAPE: seq<Width> := [W4, W2, W2, W2, W2, W2, W4, W4, W4, W2, W2]
  const CENTRAL_SHAPE: seq<Width> := [W4, W2, W2, W2, W2, W2, W2, W4, W4, W4, W2, W2, W2, W2, W2, W4, W4]
  const END_SHAPE: seq<Width> := [W4, W2, W2, W2, W2, W4, W4, W2]

  /** Offsets inside a run of fields of one width. */
  lemma {:induction false} OffsetRun(shape: seq<Width>, lo: nat, hi: nat, w: Width)
    requires lo <= hi <= |shape| && forall k | lo <= k < hi :: shape[k] == w
    ensures Offset(shape, 0) == 0
    ensures forall k | lo <= k <= hi :: Offset(shape, k) == Offset(shape, lo) + (k - lo) * w.Size()
    decreases hi
  {
    assert Offset(shape, 0) == 0;
    if lo < hi {
      hide Offset;
      OffsetRun(shape, lo, hi - 1, w);
      OffsetStep(shape, hi - 1);
    }
  }

  // The positions APPNOTE gives the fields.

  lemma LocalOffsets(shape: seq<Width>)
    requires shape == LOCAL_SHAPE
    ensures Offset(shape, 0) == 0 && Offset(shape, 1) == 4 && Offset(shape, 2) == 6 && Offset(shape, 3) == 8 && Offset(shape, 4) == 10
    ensures Offset(shape, 5) == 12 && Offset(shape, 6) == 14 && Offset(shape, 7) == 18 && Offset(shape, 8) == 22 && Offset(shape, 9) == 26
    ensures Offset(shape, 10) == 28 && Offset(shape, 11) == 30
  {
    hide Offset;
    OffsetRun(shape, 0, 1, W4);
    OffsetRun(shape, 1, 6, W2);
    OffsetRun(shape, 6, 9, W4);
    OffsetRun(shape, 9, 11, W2);
  }

  lemma CentralOffsets(shape: seq<Width>)
    requires shape == CENTRAL_SHAPE
    ensures Offset(shape, 0) == 0 && Offset(shape, 1) == 4 && Offset(shape, 2) == 6 && Offset(shape, 3) == 8 && Offset(shape, 4) == 10
    ensures Offset(shape, 5) == 12 && Offset(shape, 6) == 14 && Offset(shape, 7) == 16 && Offset(shape, 8) == 20 && Offset(shape, 9) == 24
    ensures Offset(shape, 10) == 28 && Offset(shape, 11) == 30 && Offset(shape, 12) == 32 && Offset(shape, 13) == 34 && Offset(shape, 14) == 36
    ensures Offset(shape, 15) == 38 && Offset(shape, 16) == 42 && Offset(shape, 17) == 46
  {
    hide Offset;
    OffsetRun(shape, 0, 1, W4);
    OffsetRun(shape, 1, 7, W2);
    OffsetRun(shape, 7, 10, W4);
    OffsetRun(shape, 10, 15, W2);
    OffsetRun(shape, 15, 17, W4);
  }

  lemma EndOffsets(shape: seq<Width>)
    requires shape == END_SHAPE
    ensures Offset(shape, 0) == 0 && Offset(shape, 1) == 4 && Offset(shape, 2) == 6 && Offset(shape, 3) == 8 && Offset(shape, 4) == 10
    ensures Offset(shape, 5) == 12 && Offset(shape, 6) == 16 && Offset(shape, 7) == 20 && Offset(shape, 8) == 22
  {
    hide Offset;
    OffsetRun(shape, 0, 1, W4);
    OffsetRun(shape, 1, 5, W2);
    OffsetRun(shape, 5, 7, W4);
    OffsetRun(shape, 7, 8, W2);
  }

  lemma LocalShape(e: Entry)
    ensures Shape(LocalFields(e)) == LOCAL_SHAPE && |Encode(LocalFields(e))| == 30
  {
    hide Encode, CrcField, Offset;
    LocalOffsets(LOCAL_SHAPE);
    EncodeLength(LocalFields(e));
    assert Shape(LocalFields(e)) == LOCAL_SHAPE;
  }

  lemma CentralShape(e: Entry, offset: nat)
    ensures Shape(CentralFields(e, offset)) == CENTRAL_SHAPE && |Encode(CentralFields(e, offset))| == 46
  {
    hide Encode, CrcField, Offset;
    CentralOffsets(CENTRAL_SHAPE);
    EncodeLength(CentralFields(e, offset));
    assert Shape(CentralFields(e, offset)) == CENTRAL_SHAPE;
  }

  lemma EndShape(count: nat, size: nat, start: nat)
    ensures Shape(EndFields(count, size, start)) == END_SHAPE && |Encode(EndFields(count, size, start))| == 22
  {
    hide Encode, Offset;
    EndOffsets(END_SHAPE);
    EncodeLength(EndFields(count, size, start));
    assert Shape(EndFields(count, size, start)) == END_SHAPE;
  }

  function LocalPart(e: Entry): bytes { Encode(LocalFields(e)) + e.name + e.data }

  function CentralPart(e: Entry, offset: nat): bytes { Encode(CentralFields(e, offset)) + e.name }

  function Locals(es: seq<Entry>): bytes {
    if es == [] then [] else LocalPart(es[0]) + Locals(es[1..])
  }

  /** The central directory, the first entry's local header being at the given offset. */
  function Centrals(es: seq<Entry>, offset: nat): bytes
    decreases |es|
  {
    if es == [] then [] else CentralPart(es[0], offset) + Centrals(es[1..], offset + |LocalPart(es[0])|)
  }

  function ZipBytes(es: seq<Entry>): bytes {
    var locals, centrals := Locals(es), Centrals(es, 0);
    locals + centrals + Encode(EndFields(|es|, |centrals|, |locals|))
  }

  // ---------- the reader ----------

  datatype Record = Record(name: bytes, crc: nat, size: nat, offset: nat)

  // The fixed bytes of the format, as the reader asks for them: version 2.0, bit 11 of the flags for UTF-8
  // names, method 0, midnight of 2026-01-01.
  const LOCAL_START: bytes := [0x50, 0x4b, 3, 4, 20, 0, 0, 8, 0, 0, 0, 0, 0x21, 0x5c]
  const CENTRAL_START: bytes := [0x50, 0x4b, 1, 2, 20, 0, 20, 0, 0, 8, 0, 0, 0, 0, 0x21, 0x5c]
  const CENTRAL_GAP: bytes := [0, 0, 0, 0, 0, 0, 0, 0, 0, 0, 0, 0]
  const END_START: bytes := [0x50, 0x4b, 5, 6, 0, 0, 0, 0]

  /** One central directory record at p, and where the next one starts. */
  function ReadCentral(a: bytes, p: nat, end: nat): (r: Option<(Record, nat)>)
    requires end <= |a|
    ensures r.Some? ==> |r.value.0.name| < 0x1_0000 && r.value.0.size < 0x1_0000_0000
  {
    var nameLength := Get(a, p + 28, W2);
    if !At(a, p, CENTRAL_START) || !At(a, p + 30, CENTRAL_GAP) then None
    else if Get(a, p + 20, W4) != Get(a, p + 24, W4) then None
    else if p + 46 + nameLength > end then None
    else
      var record := Record(a[p + 46..p + 46 + nameLength], Get(a, p + 16, W4), Get(a, p + 20, W4), Get(a, p + 42, W4));
      Some((record, p + 46 + nameLength))
  }

  function ReadCentrals(a: bytes, p: nat, count: nat, end: nat): (r: Option<seq<Record>>)
    requires end <= |a|
    ensures r.Some? ==> |r.value| == count
    ensures r.Some? ==> forall k | 0 <= k < count :: |r.value[k].name| < 0x1_0000 && r.value[k].size < 0x1_0000_0000
    decreases count
  {
    hide Get, ReadCentral;
    if count == 0 then
      if p == end then Some([]) else None
    else
      var (record, next) :- ReadCentral(a, p, end);
      var rest :- ReadCentrals(a, next, count - 1, end);
      Some([record] + rest)
  }

  /** The entry a record describes, if its local header is at p exactly and agrees with it. */
  function ReadLocal(a: bytes, record: Record, p: nat, end: nat): (r: Option<(Entry, nat)>)
    requires end <= |a|
    ensures r.Some? ==> r.value.0.name == record.name && |r.value.0.data| == record.size
    ensures r.Some? ==> CrcField(r.value.0.data) == record.crc
  {
    var start := p + 30 + |record.name|;
    if record.offset != p || !At(a, p, LOCAL_START) || Get(a, p + 28, W2) != 0 then None
    else if Get(a, p + 14, W4) != record.crc || Get(a, p + 26, W2) != |record.name| then None
    else if Get(a, p + 18, W4) != record.size || Get(a, p + 22, W4) != record.size then None
    else if start + record.size > end || a[p + 30..start] != record.name then None
    else
      var data := a[start..start + record.size];
      if CrcField(data) != record.crc then None
      else Some((Entry(record.name, data), start + record.size))
  }

  function ReadLocals(a: bytes, records: seq<Record>, p: nat, end: nat): (r: Option<seq<Entry>>)
    requires end <= |a|
    decreases |records|
  {
    hide CrcField, Get, ReadLocal;
    if records == [] then
      if p == end then Some([]) else None
    else
      var (entry, next) :- ReadLocal(a, records[0], p, end);
      var rest :- ReadLocals(a, records[1..], next, end);
      Some([entry] + rest)
  }

  /** Takes the last 22 bytes as the end record, walks the central directory it points to, and
      follows every local offset. Parts must follow each other without gaps. */
  function ReadZip(a: bytes): Option<seq<Entry>> {
    if |a| < 22 then None
    else
      var end := |a| - 22;
      var count, size, start := Get(a, end + 10, W2), Get(a, end + 12, W4), Get(a, end + 16, W4);
      if !At(a, end, END_START) then None
      else if Get(a, end + 8, W2) != count || Get(a, end + 20, W2) != 0 || start + size != end then None
      else
        var records :- ReadCentrals(a, start, count, end);
        ReadLocals(a, records, 0, start)
  }

  // ---------- the round trip ----------

  function RecordOf(e: Entry, offset: nat): Record {
    Record(e.name, CrcField(e.data), |e.data|, offset)
  }

  function RecordsOf(es: seq<Entry>, offset: nat): seq<Record>
    decreases |es|
  {
    if es == [] then [] else [RecordOf(es[0], offset)] + RecordsOf(es[1..], offset + |LocalPart(es[0])|)
  }

  predicate SmallEntry(e: Entry) { |e.name| < 0x1_0000 && |e.data| < 0x1_0000_0000 }

  /** The size of the local part: a header of 30 bytes, the name and the payload of each entry. */
  function LocalsSize(es: seq<Entry>): nat {
    if es == [] then 0 else 30 + |es[0].name| + |es[0].data| + LocalsSize(es[1..])
  }

  /** The size of the central directory: a record of 46 bytes and the name of each entry. */
  function CentralsSize(es: seq<Entry>): nat {
    if es == [] then 0 else 46 + |es[0].name| + CentralsSize(es[1..])
  }

  lemma EntrySizes(e: Entry, offset: nat)
    ensures |LocalPart(e)| == 30 + |e.name| + |e.data| && |CentralPart(e, offset)| == 46 + |e.name|
  {
    LocalShape(e);
    CentralShape(e, offset);
    hide Encode, LocalFields, CentralFields;
  }

  lemma {:induction false} PartSizes(es: seq<Entry>, offset: nat)
    ensures |Locals(es)| == LocalsSize(es) && |Centrals(es, offset)| == CentralsSize(es)
    decreases |es|
  {
    hide LocalPart, CentralPart;
    if es != [] {
      EntrySizes(es[0], offset);
      PartSizes(es[1..], offset + |LocalPart(es[0])|);
    }
  }

  /** The limits of the 16- and 32-bit fields. */
  predicate WithinLimits(es: seq<Entry>) {
    && |es| < 0x1_0000
    && (forall k | 0 <= k < |es| :: SmallEntry(es[k]))
    && LocalsSize(es) < 0x1_0000_0000
    && CentralsSize(es) < 0x1_0000_0000
  }

  lemma CrcFieldBound(data: bytes)
    ensures CrcField(data) < 0x1_0000_0000
  {
  }

  /** One field of the encoded record at p, as the reader finds it. */
  lemma FieldAt(fields: seq<Field>, k: nat, offset: nat, w: Width, value: nat, a: bytes, p: nat)
    requires k < |fields| && fields[k] == Field(w, value) && offset == Offset(Shape(fields), k)
    requires At(a, p, Encode(fields))
    ensures Get(a, p + offset, w) == value % w.Range()
  {
    hide *;
    GetEncoded(fields, k, a, p);
  }

  lemma {:induction false} EncodeAppend(f: seq<Field>, g: seq<Field>)
    ensures Encode(f + g) == Encode(f) + Encode(g)
  {
    hide Store;
    if f == [] {
      assert f + g == g;
    } else {
      assert (f + g)[1..] == f[1..] + g && (f + g)[0] == f[0];
      EncodeAppend(f[1..], g);
      Regrouped(Store(f[0].value, f[0].width), Encode(f[1..]), Encode(g));
    }
  }

  lemma Regrouped(a: bytes, b: bytes, c: bytes)
    ensures a + (b + c) == (a + b) + c
  {
  }

  /** The bytes of a record's first k fields lie at its start. */
  lemma EncodedStart(a: bytes, p: nat, f: seq<Field>, k: nat)
    requires k <= |f| && At(a, p, Encode(f))
    ensures At(a, p, Encode(f[..k])) && At(a, p + |Encode(f[..k])|, Encode(f[k..]))
  {
    hide Encode, At;
    assert f == f[..k] + f[k..];
    EncodeAppend(f[..k], f[k..]);
    AtSplit(a, p, Encode(f[..k]), Encode(f[k..]));
  }

  lemma EncodeStep(f: seq<Field>)
    requires f != []
    ensures Encode(f) == Store(f[0].value, f[0].width) + Encode(f[1..])
  {
    hide Store;
  }

  lemma {:induction false} EncodeWords(words: seq<nat>)
    ensures Encode(seq(|words|, i requires 0 <= i < |words| => Field(W2, words[i])))
      == seq(2 * |words|, i requires 0 <= i < 2 * |words| =>
           if i % 2 == 0 then (words[i / 2] % 256) as octet else (words[i / 2] / 256 % 256) as octet)
  {
    var f := seq(|words|, i requires 0 <= i < |words| => Field(W2, words[i]));
    if words != [] {
      EncodeWords(words[1..]);
      assert f[1..] == seq(|words[1..]|, i requires 0 <= i < |words[1..]| => Field(W2, words[1..][i]));
      EncodeStep(f);
    }
  }

  lemma LocalStart(f: seq<Field>)
    requires f == [Field(W4, LOCAL_SIG), Field(W2, 20), Field(W2, UTF8_FLAG), Field(W2, 0), Field(W2, DOS_TIME), Field(W2, DOS_DATE)]
    ensures Encode(f) == LOCAL_START
  {
    hide Encode;
    EncodeStep(f);
    EncodeWords([20, UTF8_FLAG, 0, DOS_TIME, DOS_DATE]);
    assert f[1..] == seq(5, i requires 0 <= i < 5 => Field(W2, [20, UTF8_FLAG, 0, DOS_TIME, DOS_DATE][i]));
  }

  lemma CentralStart(f: seq<Field>)
    requires f == [Field(W4, CENTRAL_SIG), Field(W2, 20), Field(W2, 20), Field(W2, UTF8_FLAG), Field(W2, 0), Field(W2, DOS_TIME),
      Field(W2, DOS_DATE)]
    ensures Encode(f) == CENTRAL_START
  {
    EncodeStep(f);
    EncodeWords([20, 20, UTF8_FLAG, 0, DOS_TIME, DOS_DATE]);
    hide Encode;
    assert f[1..] == seq(6, i requires 0 <= i < 6 => Field(W2, [20, 20, UTF8_FLAG, 0, DOS_TIME, DOS_DATE][i]));
  }

  lemma EndStart(f: seq<Field>)
    requires f == [Field(W4, END_SIG), Field(W2, 0), Field(W2, 0)]
    ensures Encode(f) == END_START
  {
    EncodeStep(f);
    EncodeWords([0, 0]);
    hide Encode;
    assert f[1..] == seq(2, i requires 0 <= i < 2 => Field(W2, [0, 0][i]));
  }

  lemma GapIsZero(f: seq<Field>)
    requires f == [Field(W2, 0), Field(W2, 0), Field(W2, 0), Field(W2, 0), Field(W4, 0)]
    ensures Encode(f) == CENTRAL_GAP
  {
    EncodeAppend(f[..4], f[4..]);
    EncodeWords([0, 0, 0, 0]);
    assert f == f[..4] + f[4..] && f[4..][1..] == [];
    assert f[..4] == seq(4, i requires 0 <= i < 4 => Field(W2, [0, 0, 0, 0][i]));
    assert Encode(f[4..]) == Store(0, W4) + Encode([]);
  }

  lemma LocalFixed(a: bytes, p: nat, e: Entry)
    requires At(a, p, Encode(LocalFields(e)))
    ensures At(a, p, LOCAL_START)
  {
    hide Encode, CrcField, At, LOCAL_START;
    EncodedStart(a, p, LocalFields(e), 6);
    LocalStart(LocalFields(e)[..6]);
  }

  lemma CentralFixed(a: bytes, p: nat, e: Entry, offset: nat)
    requires At(a, p, Encode(CentralFields(e, offset)))
    ensures At(a, p, CENTRAL_START) && At(a, p + 30, CENTRAL_GAP)
  {
    hide Encode, CrcField, At, CENTRAL_START, CENTRAL_GAP;
    var f := CentralFields(e, offset);
    EncodedStart(a, p, f, 7);
    CentralStart(f[..7]);
    EncodedStart(a, p, f, 11);
    ThirtyBytes(f[..11]);
    EncodedStart(a, p + 30, f[11..], 5);
    GapIsZero(f[11..][..5]);
  }

  lemma ThirtyBytes(f: seq<Field>)
    requires Shape(f) == CENTRAL_SHAPE[..11]
    ensures |Encode(f)| == 30
  {
    hide Encode, Offset;
    EncodeLength(f);
    var shape := CENTRAL_SHAPE[..11];
    OffsetRun(shape, 0, 1, W4);
    OffsetRun(shape, 1, 7, W2);
    OffsetRun(shape, 7, 10, W4);
    OffsetRun(shape, 10, 11, W2);
  }

  lemma EndFixed(a: bytes, p: nat, count: nat, size: nat, start: nat)
    requires At(a, p, Encode(EndFields(count, size, start)))
    ensures At(a, p, END_START)
  {
    hide Encode, At, END_START;
    EncodedStart(a, p, EndFields(count, size, start), 3);
    EndStart(EndFields(count, size, start)[..3]);
  }

  lemma CentralHeader(a: bytes, p: nat, e: Entry, offset: nat)
    requires At(a, p, Encode(CentralFields(e, offset)))
    requires SmallEntry(e) && offset < 0x1_0000_0000
    ensures At(a, p, CENTRAL_START) && At(a, p + 30, CENTRAL_GAP)
    ensures Get(a, p + 16, W4) == CrcField(e.data) && Get(a, p + 20, W4) == Get(a, p + 24, W4) == |e.data|
    ensures Get(a, p + 28, W2) == |e.name| && Get(a, p + 42, W4) == offset
  {
    hide Encode, Get, CrcField, Offset, Shape, At, CENTRAL_START, CENTRAL_GAP;
    CentralFixed(a, p, e, offset);
    var f := CentralFields(e, offset);
    CentralShape(e, offset);
    CrcFieldBound(e.data);
    CentralOffsets(Shape(f));
    FieldAt(f, 7, 16, W4, CrcField(e.data), a, p);
    FieldAt(f, 8, 20, W4, |e.data|, a, p);
    FieldAt(f, 9, 24, W4, |e.data|, a, p);
    FieldAt(f, 10, 28, W2, |e.name|, a, p);
    FieldAt(f, 16, 42, W4, offset, a, p);
  }

  lemma LocalHeader(a: bytes, p: nat, e: Entry)
    requires At(a, p, Encode(LocalFields(e))) && SmallEntry(e)
    ensures At(a, p, LOCAL_START)
    ensures Get(a, p + 14, W4) == CrcField(e.data) && Get(a, p + 18, W4) == Get(a, p + 22, W4) == |e.data|
    ensures Get(a, p + 26, W2) == |e.name| && Get(a, p + 28, W2) == 0
  {
    hide Encode, Get, CrcField, Offset, Shape, At, LOCAL_START;
    LocalFixed(a, p, e);
    var f := LocalFields(e);
    LocalShape(e);
    CrcFieldBound(e.data);
    LocalOffsets(Shape(f));
    FieldAt(f, 6, 14, W4, CrcField(e.data), a, p);
    FieldAt(f, 7, 18, W4, |e.data|, a, p);
    FieldAt(f, 8, 22, W4, |e.data|, a, p);
    FieldAt(f, 9, 26, W2, |e.name|, a, p);
    FieldAt(f, 10, 28, W2, 0, a, p);
  }

  lemma ReadCentralPart(a: bytes, p: nat, e: Entry, offset: nat, end: nat)
    requires At(a, p, CentralPart(e, offset)) && p + |CentralPart(e, offset)| <= end <= |a|
    requires SmallEntry(e) && offset < 0x1_0000_0000
    ensures ReadCentral(a, p, end) == Some((RecordOf(e, offset), p + |CentralPart(e, offset)|))
  {
    hide Encode, Get, CrcField, CentralFields;
    CentralShape(e, offset);
    AtSplit(a, p, Encode(CentralFields(e, offset)), e.name);
    CentralHeader(a, p, e, offset);
  }

  lemma ReadLocalPart(a: bytes, p: nat, e: Entry, end: nat)
    requires At(a, p, LocalPart(e)) && p + |LocalPart(e)| <= end <= |a| && SmallEntry(e)
    ensures ReadLocal(a, RecordOf(e, p), p, end) == Some((e, p + |LocalPart(e)|))
  {
    hide Encode, Get, CrcField, LocalFields;
    LocalShape(e);
    AtSplit(a, p, Encode(LocalFields(e)) + e.name, e.data);
    AtSplit(a, p, Encode(LocalFields(e)), e.name);
    LocalHeader(a, p, e);
  }

  lemma NothingToRead(a: bytes, p: nat, offset: nat)
    requires p <= |a|
    ensures Locals([]) == [] && Centrals([], offset) == [] && RecordsOf([], offset) == []
    ensures ReadCentrals(a, p, 0, p) == Some([]) && ReadLocals(a, [], p, p) == Some([])
  {
  }

  lemma CentralsStep(es: seq<Entry>, offset: nat)
    requires es != []
    ensures Centrals(es, offset) == CentralPart(es[0], offset) + Centrals(es[1..], offset + |LocalPart(es[0])|)
    ensures RecordsOf(es, offset) == [RecordOf(es[0], offset)] + RecordsOf(es[1..], offset + |LocalPart(es[0])|)
    ensures Locals(es) == LocalPart(es[0]) + Locals(es[1..])
  {
  }

  lemma ReadCentralsStep(a: bytes, p: nat, count: nat, end: nat, record: Record, next: nat, rest: seq<Record>)
    requires end <= |a| && count > 0 && ReadCentral(a, p, end) == Some((record, next))
    requires ReadCentrals(a, next, count - 1, end) == Some(rest)
    ensures ReadCentrals(a, p, count, end) == Some([record] + rest)
  {
    hide ReadCentral;
  }

  lemma ReadLocalsStep(a: bytes, records: seq<Record>, p: nat, end: nat, entry: Entry, next: nat, rest: seq<Entry>)
    requires end <= |a| && records != [] && ReadLocal(a, records[0], p, end) == Some((entry, next))
    requires ReadLocals(a, records[1..], next, end) == Some(rest)
    ensures ReadLocals(a, records, p, end) == Some([entry] + rest)
  {
    hide ReadLocal;
  }

  lemma {:induction false} ReadAllCentrals(a: bytes, p: nat, es: seq<Entry>, offset: nat, end: nat)
    requires At(a, p, Centrals(es, offset)) && p + |Centrals(es, offset)| == end <= |a|
    requires (forall k | 0 <= k < |es| :: SmallEntry(es[k])) && offset + |Locals(es)| < 0x1_0000_0000
    ensures ReadCentrals(a, p, |es|, end) == Some(RecordsOf(es, offset))
    decreases |es|
  {
    hide *;
    if es == [] {
      NothingToRead(a, p, offset);
    } else {
      var part, next := CentralPart(es[0], offset), offset + |LocalPart(es[0])|;
      CentralsStep(es, offset);
      AtSplit(a, p, part, Centrals(es[1..], next));
      ReadCentralPart(a, p, es[0], offset, end);
      ReadAllCentrals(a, p + |part|, es[1..], next, end);
      ReadCentralsStep(a, p, |es|, end, RecordOf(es[0], offset), p + |part|, RecordsOf(es[1..], next));
    }
  }

  lemma {:induction false} ReadAllLocals(a: bytes, p: nat, es: seq<Entry>, end: nat)
    requires At(a, p, Locals(es)) && p + |Locals(es)| == end <= |a|
    requires forall k | 0 <= k < |es| :: SmallEntry(es[k])
    ensures ReadLocals(a, RecordsOf(es, p), p, end) == Some(es)
    decreases |es|
  {
    hide *;
    if es == [] {
      NothingToRead(a, p, p);
    } else {
      var part, rest := LocalPart(es[0]), Locals(es[1..]);
      CentralsStep(es, p);
      AtSplit(a, p, part, rest);
      ReadLocalPart(a, p, es[0], end);
      ReadAllLocals(a, p + |part|, es[1..], end);
      ReadLocalsStep(a, RecordsOf(es, p), p, end, es[0], p + |part|, es[1..]);
      assert es == [es[0]] + es[1..];
    }
  }

  /** What the reader finds in the end record, whether or not the fields wrapped. */
  ghost predicate EndRecord(a: bytes, end: nat, count: nat, size: nat, start: nat) {
    && |a| == end + 22
    && At(a, end, END_START) && Get(a, end + 20, W2) == 0
    && Get(a, end + 8, W2) == Get(a, end + 10, W2) == count % 0x1_0000
    && Get(a, end + 12, W4) == size % 0x1_0000_0000
    && Get(a, end + 16, W4) == start % 0x1_0000_0000
  }

  lemma EndRecordRead(pre: bytes, count: nat, size: nat, start: nat)
    ensures EndRecord(pre + Encode(EndFields(count, size, start)), |pre|, count, size, start)
  {
    hide Encode, Get, Offset, Shape;
    var f := EndFields(count, size, start);
    var a, end := pre + Encode(f), |pre|;
    EndShape(count, size, start);
    assert At(a, end, Encode(f));
    EndFixed(a, end, count, size, start);
    EndOffsets(Shape(f));
    FieldAt(f, 3, 8, W2, count, a, end);
    FieldAt(f, 4, 10, W2, count, a, end);
    FieldAt(f, 5, 12, W4, size, a, end);
    FieldAt(f, 6, 16, W4, start, a, end);
    FieldAt(f, 7, 20, W2, 0, a, end);
  }

  lemma ReadZipParts(a: bytes, end: nat, count: nat, size: nat, start: nat, records: seq<Record>, es: seq<Entry>)
    requires EndRecord(a, end, count, size, start) && start + size == end
    requires count < 0x1_0000 && size < 0x1_0000_0000 && start < 0x1_0000_0000
    requires ReadCentrals(a, start, count, end) == Some(records) && ReadLocals(a, records, 0, start) == Some(es)
    ensures ReadZip(a) == Some(es)
  {
    hide Get, ReadCentrals, ReadLocals;
  }

  lemma PartsRead(es: seq<Entry>)
    requires |es| < 0x1_0000 && |Locals(es)| < 0x1_0000_0000 && |Centrals(es, 0)| < 0x1_0000_0000
    requires forall k | 0 <= k < |es| :: SmallEntry(es[k])
    ensures ReadZip(ZipBytes(es)) == Some(es)
  {
    hide Locals, Centrals, ReadCentrals, ReadLocals, Encode, ReadZip, EndRecord, SmallEntry, RecordsOf, At;
    var locals, centrals := Locals(es), Centrals(es, 0);
    var a, end := ZipBytes(es), |locals| + |centrals|;
    EndRecordRead(locals + centrals, |es|, |centrals|, |locals|);
    Whole(a);
    AtSplit(a, 0, locals + centrals, Encode(EndFields(|es|, |centrals|, |locals|)));
    AtSplit(a, 0, locals, centrals);
    ReadAllCentrals(a, |locals|, es, 0, end);
    ReadAllLocals(a, 0, es, |locals|);
    ReadZipParts(a, end, |es|, |centrals|, |locals|, RecordsOf(es, 0), es);
  }

  /** Within the limits the reader recovers exactly the names and payloads, in order. */
  lemma RoundTripWithinLimits(es: seq<Entry>)
    requires WithinLimits(es)
    ensures ReadZip(ZipBytes(es)) == Some(es)
  {
    PartSizes(es, 0);
    hide Locals, Centrals, ReadZip, ZipBytes, LocalsSize, CentralsSize, SmallEntry;
    PartsRead(es);
  }

  lemma Whole(a: bytes)
    ensures At(a, 0, a)
  {
  }

  /** The entries read are those the records describe. */
  lemma {:induction false} ReadLocalsAgree(a: bytes, records: seq<Record>, p: nat, end: nat)
    requires end <= |a| && ReadLocals(a, records, p, end).Some?
    ensures var es := ReadLocals(a, records, p, end).value;
      |es| == |records| && forall k | 0 <= k < |es| :: es[k].name == records[k].name && |es[k].data| == records[k].size
    decreases |records|
  {
    hide ReadLocal;
    if records != [] {
      ReadLocalsAgree(a, records[1..], ReadLocal(a, records[0], p, end).value.1, end);
    }
  }

  lemma ReadZipBounds(a: bytes)
    requires ReadZip(a).Some?
    ensures |ReadZip(a).value| < 0x1_0000
    ensures forall k | 0 <= k < |ReadZip(a).value| ::
              |ReadZip(a).value[k].name| < 0x1_0000 && |ReadZip(a).value[k].data| < 0x1_0000_0000
  {
    hide ReadCentrals, ReadLocals, Get;
    var end := |a| - 22;
    var count, start := Get(a, end + 10, W2), Get(a, end + 16, W4);
    ReadLocalsAgree(a, ReadCentrals(a, start, count, end).value, 0, start);
  }

  /** The reader insists that the two parts fill the file up to the end record. */
  lemma ReadSums(a: bytes, end: nat, count: nat, size: nat, start: nat)
    requires ReadZip(a).Some? && EndRecord(a, end, count, size, start)
    ensures start % 0x1_0000_0000 + size % 0x1_0000_0000 == end
  {
    hide Get, ReadCentrals, ReadLocals;
  }

  lemma Unwrapped(x: nat, y: nat)
    requires x % 0x1_0000_0000 + y % 0x1_0000_0000 == x + y
    ensures x < 0x1_0000_0000 && y < 0x1_0000_0000
  {
  }

  lemma ReadNeedsParts(es: seq<Entry>)
    requires ReadZip(ZipBytes(es)) == Some(es)
    ensures |Locals(es)| < 0x1_0000_0000 && |Centrals(es, 0)| < 0x1_0000_0000
  {
    hide Locals, Centrals, ReadZip, EndRecord, Encode, EndFields;
    var locals, centrals := Locals(es), Centrals(es, 0);
    EndRecordRead(locals + centrals, |es|, |centrals|, |locals|);
    ReadSums(ZipBytes(es), |locals + centrals|, |es|, |centrals|, |locals|);
    Unwrapped(|locals|, |centrals|);
  }

  /** Beyond the limits it never does: a wrapped field cannot be undone. */
  lemma RoundTripNeedsLimits(es: seq<Entry>)
    requires ReadZip(ZipBytes(es)) == Some(es)
    ensures WithinLimits(es)
  {
    PartSizes(es, 0);
    hide ReadZip, ZipBytes, Locals, Centrals, LocalsSize, CentralsSize;
    ReadNeedsParts(es);
    ReadZipBounds(ZipBytes(es));
  }

  /** The archive round-trips if and only if every 16- and 32-bit field can hold its value. */
  lemma ZipRoundTrip(es: seq<Entry>)
    ensures ReadZip(ZipBytes(es)) == Some(es) <==> WithinLimits(es)
  {
    if WithinLimits(es) {
      RoundTripWithinLimits(es);
    }
    if ReadZip(ZipBytes(es)) == Some(es) {
      RoundTripNeedsLimits(es);
    }
  }

  // ---------- the fixed bytes ----------

  lemma {:induction false} LocalsAppend(a: seq<Entry>, b: seq<Entry>)
    ensures Locals(a + b) == Locals(a) + Locals(b)
  {
    hide LocalPart;
    if a == [] {
      assert a + b == b;
    } else {
      assert (a + b)[1..] == a[1..] + b && (a + b)[0] == a[0];
      LocalsAppend(a[1..], b);
      Regrouped(LocalPart(a[0]), Locals(a[1..]), Locals(b));
    }
  }

  lemma {:induction false} CentralsAppend(a: seq<Entry>, b: seq<Entry>, offset: nat)
    ensures Centrals(a + b, offset) == Centrals(a, offset) + Centrals(b, offset + |Locals(a)|)
    decreases |a|
  {
    hide LocalPart, CentralPart;
    if a == [] {
      assert a + b == b;
    } else {
      assert (a + b)[1..] == a[1..] + b && (a + b)[0] == a[0];
      var next := offset + |LocalPart(a[0])|;
      CentralsAppend(a[1..], b, next);
      Regrouped(CentralPart(a[0], offset), Centrals(a[1..], next), Centrals(b, next + |Locals(a[1..])|));
    }
  }

  /** Where the two parts lie in the archive. */
  lemma HalvesAt(es: seq<Entry>)
    ensures At(ZipBytes(es), 0, Locals(es)) && At(ZipBytes(es), |Locals(es)|, Centrals(es, 0))
  {
    hide Encode, EndFields, Locals, Centrals;
    var locals, centrals := Locals(es), Centrals(es, 0);
    Whole(ZipBytes(es));
    hide At;
    AtSplit(ZipBytes(es), 0, locals + centrals, Encode(EndFields(|es|, |centrals|, |locals|)));
    AtSplit(ZipBytes(es), 0, locals, centrals);
  }

  lemma OnePart(e: Entry, offset: nat)
    ensures Locals([e]) == LocalPart(e) && Centrals([e], offset) == CentralPart(e, offset)
  {
    hide LocalPart, CentralPart;
    assert [e][1..] == [];
  }

  lemma AroundPart(a: seq<Entry>, e: Entry, rest: seq<Entry>)
    ensures Locals(a + ([e] + rest)) == Locals(a) + (LocalPart(e) + Locals(rest))
    ensures var start := |Locals(a)|;
      Centrals(a + ([e] + rest), 0) == Centrals(a, 0) + (CentralPart(e, start) + Centrals(rest, start + |LocalPart(e)|))
  {
    hide *;
    OnePart(e, |Locals(a)|);
    LocalsAppend(a, [e] + rest);
    LocalsAppend([e], rest);
    CentralsAppend(a, [e] + rest, 0);
    CentralsAppend([e], rest, |Locals(a)|);
  }

  lemma AroundEntry(es: seq<Entry>, k: nat)
    requires k < |es|
    ensures Locals(es) == Locals(es[..k]) + (LocalPart(es[k]) + Locals(es[k + 1..]))
    ensures var start := |Locals(es[..k])|;
      Centrals(es, 0) == Centrals(es[..k], 0)
        + (CentralPart(es[k], start) + Centrals(es[k + 1..], start + |LocalPart(es[k])|))
  {
    hide *;
    AroundPart(es[..k], es[k], es[k + 1..]);
    assert es == es[..k] + ([es[k]] + es[k + 1..]);
  }

  /** Where the parts of entry k lie in the archive. */
  lemma PartsAt(es: seq<Entry>, k: nat)
    requires k < |es|
    ensures At(ZipBytes(es), |Locals(es[..k])|, LocalPart(es[k]))
    ensures At(ZipBytes(es), |Locals(es)| + |Centrals(es[..k], 0)|, CentralPart(es[k], |Locals(es[..k])|))
  {
    hide *;
    var a, rest, start := es[..k], es[k + 1..], |Locals(es[..k])|;
    HalvesAt(es);
    AroundEntry(es, k);
    AtSplit(ZipBytes(es), 0, Locals(a), LocalPart(es[k]) + Locals(rest));
    AtSplit(ZipBytes(es), start, LocalPart(es[k]), Locals(rest));
    var more := Centrals(rest, start + |LocalPart(es[k])|);
    AtSplit(ZipBytes(es), |Locals(es)|, Centrals(a, 0), CentralPart(es[k], start) + more);
    AtSplit(ZipBytes(es), |Locals(es)| + |Centrals(a, 0)|, CentralPart(es[k], start), more);
  }

  /** Every local header, every directory record and the end record start with the bytes that PKWARE APPNOTE sections
      4.3.7, 4.3.12 and 4.3.16 ask for: signature, version 2.0, flag bit 11 and no other, method 0, time and date; and
      what the directory says of comments, disks and attributes is nothing. */
  lemma FixedBytes(es: seq<Entry>, k: nat)
    requires k < |es|
    ensures At(ZipBytes(es), |Locals(es[..k])|, [0x50, 0x4b, 3, 4, 20, 0, 0, 8, 0, 0, 0, 0, 0x21, 0x5c])
    ensures At(ZipBytes(es), |Locals(es)| + |Centrals(es[..k], 0)|,
               [0x50, 0x4b, 1, 2, 20, 0, 20, 0, 0, 8, 0, 0, 0, 0, 0x21, 0x5c])
    ensures At(ZipBytes(es), |Locals(es)| + |Centrals(es[..k], 0)| + 30, [0, 0, 0, 0, 0, 0, 0, 0, 0, 0, 0, 0])
    ensures At(ZipBytes(es), |Locals(es)| + |Centrals(es, 0)|, [0x50, 0x4b, 5, 6, 0, 0, 0, 0])
    ensures |ZipBytes(es)| >= 14 && ZipBytes(es)[..14] == [0x50, 0x4b, 3, 4, 20, 0, 0, 8, 0, 0, 0, 0, 0x21, 0x5c]
  {
    EntryFixed(es, k);
    EntryFixed(es, 0);
    EndsAt(es);
    assert es[..0] == [] && Locals([]) == [];
    assert LOCAL_START == [0x50, 0x4b, 3, 4, 20, 0, 0, 8, 0, 0, 0, 0, 0x21, 0x5c];
    assert CENTRAL_START == [0x50, 0x4b, 1, 2, 20, 0, 20, 0, 0, 8, 0, 0, 0, 0, 0x21, 0x5c];
    assert CENTRAL_GAP == [0, 0, 0, 0, 0, 0, 0, 0, 0, 0, 0, 0] && END_START == [0x50, 0x4b, 5, 6, 0, 0, 0, 0];
    hide ZipBytes, Locals, Centrals, LOCAL_START, CENTRAL_START, CENTRAL_GAP, END_START;
  }

  lemma CentralPartIs(e: Entry, offset: nat)
    ensures CentralPart(e, offset) == Encode(CentralFields(e, offset)) + e.name
  {
  }

  lemma EntryFixed(es: seq<Entry>, k: nat)
    requires k < |es|
    ensures At(ZipBytes(es), |Locals(es[..k])|, LOCAL_START)
    ensures var p := |Locals(es)| + |Centrals(es[..k], 0)|; At(ZipBytes(es), p, CENTRAL_START) && At(ZipBytes(es), p + 30, CENTRAL_GAP)
  {
    hide *;
    PartsAt(es, k);
    var a, start := ZipBytes(es), |Locals(es[..k])|;
    var p := |Locals(es)| + |Centrals(es[..k], 0)|;
    CentralPartIs(es[k], start);
    PartFixed(a, start, es[k]);
    AtSplit(a, p, Encode(CentralFields(es[k], start)), es[k].name);
    CentralFixed(a, p, es[k], start);
  }

  lemma PartFixed(a: bytes, p: nat, e: Entry)
    requires At(a, p, LocalPart(e))
    ensures At(a, p, LOCAL_START)
  {
    hide Encode, LocalFields, At, LOCAL_START;
    AtSplit(a, p, Encode(LocalFields(e)) + e.name, e.data);
    AtSplit(a, p, Encode(LocalFields(e)), e.name);
    LocalFixed(a, p, e);
  }

  lemma EndsAt(es: seq<Entry>)
    ensures At(ZipBytes(es), |Locals(es)| + |Centrals(es, 0)|, END_START)
  {
    hide Encode, Locals, Centrals, EndFields, END_START;
    var locals, centrals := Locals(es), Centrals(es, 0);
    Whole(ZipBytes(es));
    hide At;
    AtSplit(ZipBytes(es), 0, locals + centrals, Encode(EndFields(|es|, |centrals|, |locals|)));
    EndFixed(ZipBytes(es), |locals + centrals|, |es|, |centrals|, |locals|);
  }

  // ---------- the imperative writer ----------

  datatype FileRecord = FileRecord(name: bytes, data: bytes, crc: nat, offset: nat)

  predicate Describes(f: FileRecord, e: Entry) {
    f.name == e.name && f.data == e.data && f.crc == CrcField(e.data)
  }

  /** The first k fields of d fill h up to pos; the rest of h still holds its initial zeros. */
  ghost predicate Written(h: bytes, pos: nat, d: seq<Field>, k: nat) {
    && pos <= |h| && k <= |d|
    && h[..pos] == Encode(d[..k])
    && forall i | pos <= i < |h| :: h[i] == 0
  }

  /** One DataView store. The ghost arguments give the record being written and the field's index. */
  method Put(h: array<octet>, pos: nat, w: Width, value: nat, ghost d: seq<Field>, ghost k: nat)
    requires k < |d| && d[k] == Field(w, value)
    requires pos + w.Size() <= h.Length && Written(h[..], pos, d, k)
    modifies h
    ensures Written(h[..], pos + w.Size(), d, k + 1)
  {
    hide Encode, Byte;
    EncodeSnoc(d[..k], d[k]);
    assert d[..k] + [d[k]] == d[..k + 1];
    h[pos] := Byte(value);
    h[pos + 1] := Byte(value / 256);
    if w.W4? {
      h[pos + 2] := Byte(value / 0x1_0000);
      h[pos + 3] := Byte(value / 0x100_0000);
    }
    assert h[..][..pos] == old(h[..])[..pos] == Encode(d[..k]);
    assert h[..][..pos + w.Size()] == h[..][..pos] + Store(value, w);
  }

  lemma ZeroStore(w: Width)
    ensures forall k | 0 <= k < w.Size() :: Store(0, w)[k] == 0
  {
  }

  /** A field that is never written holds the zeros the buffer was allocated with. */
  lemma Untouched(h: bytes, pos: nat, w: Width, d: seq<Field>, k: nat)
    requires k < |d| && d[k] == Field(w, 0)
    requires pos + w.Size() <= |h| && Written(h, pos, d, k)
    ensures Written(h, pos + w.Size(), d, k + 1)
  {
    hide Encode;
    EncodeSnoc(d[..k], d[k]);
    assert d[..k] + [d[k]] == d[..k + 1];
    ZeroStore(w);
    assert h[..pos + w.Size()] == h[..pos] + Store(0, w);
  }

  lemma NothingWritten(h: bytes, d: seq<Field>)
    requires forall i | 0 <= i < |h| :: h[i] == 0
    ensures Written(h, 0, d, 0)
  {
  }

  lemma AllWritten(h: bytes, pos: nat, d: seq<Field>)
    requires Written(h, pos, d, |d|)
    ensures h[..pos] == Encode(d)
  {
    assert d[..|d|] == d;
  }

  /** TypedArray.set: copies src into h at pos. */
  method Copy(h: array<octet>, src: bytes, pos: nat)
    requires pos + |src| <= h.Length
    modifies h
    ensures h[..pos + |src|] == old(h[..pos]) + src
    ensures forall k | pos + |src| <= k < h.Length :: h[k] == old(h[k])
  {
    for i := 0 to |src|
      invariant h[..pos] == old(h[..pos]) && h[pos..pos + i] == src[..i]
      invariant forall k | pos + i <= k < h.Length :: h[k] == old(h[k])
    {
      h[pos + i] := src[i];
    }
    assert h[..pos + |src|] == h[..pos] + h[pos..pos + |src|];
  }

  method LocalHeaderBytes(f: FileRecord, ghost e: Entry) returns (h: bytes)
    requires Describes(f, e)
    ensures h == Encode(LocalFields(e)) + e.name
  {
    hide Encode, CrcField, Written;
    var v := new octet[30 + |f.name|](i => 0);
    ghost var d := LocalFields(e);
    NothingWritten(v[..], d);
    Put(v, 0, W4, LOCAL_SIG, d, 0);
    Put(v, 4, W2, 20, d, 1);
    Put(v, 6, W2, UTF8_FLAG, d, 2);
    Put(v, 8, W2, 0, d, 3);
    Put(v, 10, W2, DOS_TIME, d, 4);
    Put(v, 12, W2, DOS_DATE, d, 5);
    Put(v, 14, W4, f.crc, d, 6);
    Put(v, 18, W4, |f.data|, d, 7);
    Put(v, 22, W4, |f.data|, d, 8);
    Put(v, 26, W2, |f.name|, d, 9);
    Put(v, 28, W2, 0, d, 10);
    AllWritten(v[..], 30, d);
    Copy(v, f.name, 30);
    h := v[..];
  }

  /** Positions 30 to 41: extra and comment lengths, disk number and attributes. */
  lemma UntouchedGap(h: bytes, e: Entry, offset: nat)
    requires 42 <= |h| && Written(h, 30, CentralFields(e, offset), 11)
    ensures Written(h, 42, CentralFields(e, offset), 16)
  {
    hide Encode, CrcField, Written;
    var d := CentralFields(e, offset);
    Untouched(h, 30, W2, d, 11);
    Untouched(h, 32, W2, d, 12);
    Untouched(h, 34, W2, d, 13);
    Untouched(h, 36, W2, d, 14);
    Untouched(h, 38, W4, d, 15);
  }

  method CentralHeaderBytes(f: FileRecord, ghost e: Entry) returns (h: bytes)
    requires Describes(f, e)
    ensures h == CentralPart(e, f.offset)
  {
    hide Encode, CrcField, Written;
    var v := new octet[46 + |f.name|](i => 0);
    ghost var d := CentralFields(e, f.offset);
    NothingWritten(v[..], d);
    Put(v, 0, W4, CENTRAL_SIG, d, 0);
    Put(v, 4, W2, 20, d, 1);
    Put(v, 6, W2, 20, d, 2);
    Put(v, 8, W2, UTF8_FLAG, d, 3);
    Put(v, 10, W2, 0, d, 4);
    Put(v, 12, W2, DOS_TIME, d, 5);
    Put(v, 14, W2, DOS_DATE, d, 6);
    Put(v, 16, W4, f.crc, d, 7);
    Put(v, 20, W4, |f.data|, d, 8);
    Put(v, 24, W4, |f.data|, d, 9);
    Put(v, 28, W2, |f.name|, d, 10);
    UntouchedGap(v[..], e, f.offset);
    Put(v, 42, W4, f.offset, d, 16);
    AllWritten(v[..], 46, d);
    Copy(v, f.name, 46);
    h := v[..];
  }

  method EndRecordBytes(count: nat, size: nat, start: nat) returns (h: bytes)
    ensures h == Encode(EndFields(count, size, start))
  {
    hide Encode, Written;
    var v := new octet[22](i => 0);
    ghost var d := EndFields(count, size, start);
    NothingWritten(v[..], d);
    Put(v, 0, W4, END_SIG, d, 0);
    Untouched(v[..], 4, W2, d, 1);
    Untouched(v[..], 6, W2, d, 2);
    Put(v, 8, W2, count, d, 3);
    Put(v, 10, W2, count, d, 4);
    Put(v, 12, W4, size, d, 5);
    Put(v, 16, W4, start, d, 6);
    Untouched(v[..], 20, W2, d, 7);
    AllWritten(v[..], 22, d);
    assert v[..22] == v[..];
    h := v[..];
  }

  function Join(chunks: seq<bytes>): bytes {
    if chunks == [] then [] else Join(chunks[..|chunks| - 1]) + chunks[|chunks| - 1]
  }

  lemma JoinSnoc(chunks: seq<bytes>, c: bytes)
    ensures Join(chunks + [c]) == Join(chunks) + c
  {
    assert (chunks + [c])[..|chunks|] == chunks;
  }

  lemma {:induction false} LocalsSnoc(es: seq<Entry>, e: Entry)
    ensures Locals(es + [e]) == Locals(es) + LocalPart(e)
  {
    hide LocalPart;
    if es == [] {
      assert (es + [e])[1..] == [];
    } else {
      assert (es + [e])[1..] == es[1..] + [e];
      LocalsSnoc(es[1..], e);
    }
  }

  lemma {:induction false} CentralsSnoc(es: seq<Entry>, e: Entry, offset: nat)
    ensures Centrals(es + [e], offset) == Centrals(es, offset) + CentralPart(e, offset + |Locals(es)|)
    decreases |es|
  {
    hide LocalPart, CentralPart;
    if es == [] {
      assert (es + [e])[1..] == [];
    } else {
      assert (es + [e])[1..] == es[1..] + [e];
      CentralsSnoc(es[1..], e, offset + |LocalPart(es[0])|);
    }
  }

  /** makeZip. The encoded names and payloads are the entries' bytes. */
  method MakeZip(entries: seq<Entry>) returns (out: array<octet>)
    ensures fresh(out) && out[..] == ZipBytes(entries)
  {
    hide CrcField, Locals, Centrals, LocalFields, CentralFields, EndFields, Encode, Join, CentralPart;
    var files := MakeRecords(entries);
    var chunks: seq<bytes>, offset: nat := [], 0;
    assert Join([]) == [] && Locals(entries[..0]) == [] && Centrals(entries[..0], 0) == [] by { NoEntries(entries); }
    for i := 0 to |entries|
      invariant files.Length == |entries| && fresh(files)
      invariant forall k | 0 <= k < |entries| :: Describes(files[k], entries[k])
      invariant forall k | 0 <= k < i :: files[k].offset == |Locals(entries[..k])|
      invariant Join(chunks) == Locals(entries[..i]) && offset == |Join(chunks)|
    {
      files[i] := files[i].(offset := offset);
      var h := LocalHeaderBytes(files[i], entries[i]);
      JoinSnoc(chunks, h);
      JoinSnoc(chunks + [h], files[i].data);
      LocalsSnoc(entries[..i], entries[i]);
      assert entries[..i] + [entries[i]] == entries[..i + 1];
      chunks := chunks + [h] + [files[i].data];
      offset := offset + |h| + |files[i].data|;
    }
    assert entries[..|entries|] == entries;
    var start := offset;
    for i := 0 to |entries|
      invariant files.Length == |entries| && fresh(files)
      invariant forall k | 0 <= k < |entries| :: Describes(files[k], entries[k])
      invariant forall k | 0 <= k < |entries| :: files[k].offset == |Locals(entries[..k])|
      invariant Join(chunks) == Locals(entries) + Centrals(entries[..i], 0) && offset == |Join(chunks)|
    {
      var h := CentralHeaderBytes(files[i], entries[i]);
      JoinSnoc(chunks, h);
      CentralsSnoc(entries[..i], entries[i], 0);
      assert entries[..i] + [entries[i]] == entries[..i + 1];
      chunks, offset := chunks + [h], offset + |h|;
    }
    var e := EndRecordBytes(|entries|, offset - start, start);
    JoinSnoc(chunks, e);
    chunks, offset := chunks + [e], offset + |e|;
    out := Concatenate(chunks, offset);
  }

  lemma NoEntries(es: seq<Entry>)
    ensures Join([]) == [] && Locals(es[..0]) == [] && Centrals(es[..0], 0) == []
  {
  }

  method MakeRecords(entries: seq<Entry>) returns (files: array<FileRecord>)
    ensures fresh(files) && files.Length == |entries|
    ensures forall k | 0 <= k < |entries| :: Describes(files[k], entries[k]) && files[k].offset == 0
  {
    hide Crc32.Crc, Crc32.IsTable, Bits;
    var table := Crc32.BuildTable();
    files := new FileRecord[|entries|](i => FileRecord([], [], 0, 0));
    for i := 0 to |entries|
      invariant Crc32.IsTable(table)
      invariant forall k | 0 <= k < i :: Describes(files[k], entries[k]) && files[k].offset == 0
    {
      var crc := Crc32.Compute(table, Bits(entries[i].data));
      files[i] := FileRecord(entries[i].name, entries[i].data, crc as nat, 0);
    }
  }

  /** The final copy of every chunk into one buffer. */
  method Concatenate(chunks: seq<bytes>, total: nat) returns (out: array<octet>)
    requires total == |Join(chunks)|
    ensures fresh(out) && out[..] == Join(chunks)
  {
    out := new octet[total](i => 0);
    var p := 0;
    for i := 0 to |chunks|
      invariant p == |Join(chunks[..i])| <= total && out[..p] == Join(chunks[..i])
    {
      JoinSnoc(chunks[..i], chunks[i]);
      assert chunks[..i] + [chunks[i]] == chunks[..i + 1];
      JoinPrefix(chunks, i + 1);
      Copy(out, chunks[i], p);
      p := p + |chunks[i]|;
    }
    assert chunks[..|chunks|] == chunks;
  }

  lemma {:induction false} JoinPrefix(chunks: seq<bytes>, i: nat)
    requires i <= |chunks|
    ensures |Join(chunks[..i])| <= |Join(chunks)|
    decreases |chunks|
  {
    if i == |chunks| {
      assert chunks[..i] == chunks;
    } else {
      var init := chunks[..|chunks| - 1];
      assert chunks[..i] == init[..i];
      JoinPrefix(init, i);
    }
  }
}
