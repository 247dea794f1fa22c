/** Printing a need record and parsing it back: when the record survives, and that a record that
    does is stable byte for byte. */
module NeedRoundTrip {
  import opened NeedValues
  import opened NeedText
  import opened NeedRecord

  // ---------- records the statements are about ----------

  predicate KeyOk(key: string) {
    key != "" && KeyStart(key[0]) && forall c | c in key :: KeyChar(c)
  }

  predicate SlugChar(c: char) { 'a' <= c <= 'z' || IsDigit(c) || c == '-' }

  /** ^[a-z0-9][a-z0-9-]*$, which lets one newline at the end through. */
  predicate Slug(s: string) {
    var t := if s != "" && s[|s| - 1] == '\n' then s[..|s| - 1] else s;
    t != "" && t[0] != '-' && forall c | c in t :: SlugChar(c)
  }

  /** What validate() lets through as need_id: str(need_id) is a slug and need_id is not 0. */
  predicate IdOk(v: Option<Value>) {
    match v
    case Some(One(Str(s))) => Slug(s)
    case Some(One(Int(n))) => n > 0
    case Some(One(Float(r))) => Slug(r)
    case _ => false
  }

  predicate FieldOk(py: Numbers, e: Entry<Value>) {
    KeyOk(e.key) && FiniteValue(py, e.value) && Coerce(py, e.key, e.value) == e.value
  }

  predicate Shaped(py: Numbers, n: Need) {
    && Distinct(n.fields) && (forall e | e in n.fields :: FieldOk(py, e))
    && Distinct(n.sections) && (forall e | e in n.sections :: NameOk(e.key))
  }

  predicate WellFormed(py: Numbers, n: Need) { Shaped(py, n) && IdOk(Get(n.fields, ID)) }

  predicate CleanScalar(v: Scalar) { v.Str? ==> forall c | c in v.s :: !IsExotic(c) }

  /** No string holds a line break other than \n and \r, which are the only ones escaped. */
  predicate Clean(v: Value) {
    match v
    case One(s) => CleanScalar(s)
    case List(items) => forall s | s in items :: CleanScalar(s)
  }

  predicate FieldSurvives(e: Entry<Value>) { Clean(e.value) && Splits(e.value) }

  predicate SectionSurvives(e: Entry<string>) { '\r' !in Norm(e.value) && Plain(Norm(e.value)) }

  predicate Survives(n: Need) {
    (forall e | e in n.fields :: FieldSurvives(e)) && (forall e | e in n.sections :: SectionSurvives(e))
  }

  function NormAll(d: Dict<string>): Dict<string> {
    if d == [] then [] else [Entry(d[0].key, Norm(d[0].value))] + NormAll(d[1..])
  }

  /** The record in the printer's order, with its section bodies trimmed. */
  function Canonical(n: Need): Need {
    Need(Reorder(FIELDS, n.fields), NormAll(Reorder(SECTIONS, n.sections)))
  }

  // ---------- ordered dictionaries ----------

  predicate NoRepeats(known: seq<string>) { forall i, j | 0 <= i < j < |known| :: known[i] != known[j] }

  lemma {:induction false} GetIsEntry<T(!new)>(d: Dict<T>, key: string)
    ensures Get(d, key).Some? ==> Entry(key, Get(d, key).value) in d
    ensures Get(d, key).None? ==> forall e | e in d :: e.key != key
    ensures Distinct(d) ==> forall e | e in d && e.key == key :: Get(d, key) == Some(e.value)
  {
    if d != [] {
      GetIsEntry(d[1..], key);
      assert forall e | e in d :: e == d[0] || e in d[1..];
    }
  }

  lemma {:induction false} OthersAre<T(!new)>(known: seq<string>, d: Dict<T>)
    ensures forall e :: e in Others(known, d) <==> e in d && e.key !in known
    ensures Distinct(d) ==> Distinct(Others(known, d))
  {
    if d != [] {
      OthersAre(known, d[1..]);
      assert forall e | e in d :: e == d[0] || e in d[1..];
      assert forall e | e in d[1..] :: Distinct(d) ==> e.key != d[0].key;
    }
  }

  lemma {:induction false} OrderedAre<T(!new)>(known: seq<string>, d: Dict<T>)
    requires Distinct(d) && NoRepeats(known)
    ensures forall e :: e in Ordered(known, d) <==> e in d && e.key in known
    ensures Distinct(Ordered(known, d))
  {
    if known != [] {
      var rest := Ordered(known[1..], d);
      OrderedAre(known[1..], d);
      GetIsEntry(d, known[0]);
      assert forall k | k in known :: k == known[0] || k in known[1..];
      assert known[0] !in known[1..];
      forall e | e in rest ensures e.key != known[0] {
        assert e.key in known[1..];
      }
    }
  }

  /** Reordering keeps exactly the same entries. */
  lemma ReorderAre<T(!new)>(known: seq<string>, d: Dict<T>)
    requires Distinct(d) && NoRepeats(known)
    ensures forall e :: e in Reorder(known, d) <==> e in d
    ensures Distinct(Reorder(known, d))
  {
    OthersAre(known, d);
    OrderedAre(known, d);
    hide Others, Ordered;
    var a, b := Ordered(known, d), Others(known, d);
    forall i, j | 0 <= i < |a| && 0 <= j < |b| ensures a[i].key != b[j].key {
      assert a[i] in a && b[j] in b;
    }
  }

  lemma SameGet<T(!new)>(c: Dict<T>, d: Dict<T>, key: string)
    requires Distinct(c) && Distinct(d) && forall e :: e in c <==> e in d
    ensures Get(c, key) == Get(d, key)
  {
    GetIsEntry(c, key);
    GetIsEntry(d, key);
  }

  lemma {:induction false} SameOrdered<T(!new)>(known: seq<string>, c: Dict<T>, d: Dict<T>)
    requires Distinct(c) && Distinct(d) && forall e :: e in c <==> e in d
    ensures Ordered(known, c) == Ordered(known, d)
  {
    if known != [] {
      SameGet(c, d, known[0]);
      SameOrdered(known[1..], c, d);
    }
  }

  lemma {:induction false} OthersAppend<T(!new)>(known: seq<string>, a: Dict<T>, b: Dict<T>)
    ensures Others(known, a + b) == Others(known, a) + Others(known, b)
  {
    if a == [] {
      assert a + b == b;
    } else {
      assert (a + b)[1..] == a[1..] + b;
      OthersAppend(known, a[1..], b);
    }
  }

  lemma {:induction false} OthersOfKnown<T(!new)>(known: seq<string>, a: Dict<T>)
    requires forall e | e in a :: e.key in known
    ensures Others(known, a) == []
  {
    if a != [] {
      OthersOfKnown(known, a[1..]);
    }
  }

  lemma {:induction false} OthersOfOthers<T(!new)>(known: seq<string>, a: Dict<T>)
    requires forall e | e in a :: e.key !in known
    ensures Others(known, a) == a
  {
    if a != [] {
      OthersOfOthers(known, a[1..]);
      assert a == [a[0]] + a[1..];
    }
  }

  /** Reordering twice is reordering once. */
  lemma ReorderTwice<T(!new)>(known: seq<string>, d: Dict<T>)
    requires Distinct(d) && NoRepeats(known)
    ensures Reorder(known, Reorder(known, d)) == Reorder(known, d)
  {
    hide Ordered, Others, Distinct;
    var a, b := Ordered(known, d), Others(known, d);
    ReorderAre(known, d);
    SameOrdered(known, a + b, d);
    OthersAppend(known, a, b);
    assert Others(known, a) == [] by {
      OrderedAre(known, d);
      OthersOfKnown(known, a);
    }
    assert Others(known, b) == b by {
      OthersAre(known, d);
      OthersOfOthers(known, b);
    }
  }

  /** No key of d is a key of read. */
  predicate Apart<T, U>(d: Dict<T>, read: Dict<U>) {
    forall i, j | 0 <= i < |d| && 0 <= j < |read| :: d[i].key != read[j].key
  }

  lemma TailApart<T, U>(d: Dict<T>, read: Dict<U>, x: Entry<U>)
    requires d != [] && Distinct(d) && Apart(d, read) && x.key == d[0].key
    ensures Distinct(d[1..]) && Apart(d[1..], read + [x]) && forall f | f in read :: f.key != x.key
  {
  }

  lemma {:induction false} PutNew<T(!new)>(d: Dict<T>, key: string, value: T)
    requires forall e | e in d :: e.key != key
    ensures Put(d, key, value) == d + [Entry(key, value)]
  {
    if d != [] {
      PutNew(d[1..], key, value);
      assert d == [d[0]] + d[1..];
    }
  }

  // ---------- one field line ----------

  predicate NoBreaks(s: string) { forall c | c in s :: !IsBreak(c) }

  lemma {:induction false} EscapedNoBreaks(s: string)
    requires forall c | c in s :: !IsExotic(c)
    ensures NoBreaks(EscapeChars(s))
  {
    if s != "" {
      EscapedNoBreaks(s[1..]);
      var c := s[0];
      assert !IsExotic(c);
      assert '\\' as int == 0x5c && '"' as int == 0x22 && 'n' as int == 0x6e && 'r' as int == 0x72 && 't' as int == 0x74;
      assert NoBreaks(EscapeChar(c));
    }
  }

  lemma NumberNoBreaks(s: string)
    requires forall c | c in s :: NumberChar(c)
    ensures NoBreaks(s)
  {
    forall c | c in s ensures !IsBreak(c) {
      NumberCharsPlain(c);
    }
  }

  lemma ScalarNoBreaks(py: Numbers, v: Scalar, inList: bool)
    requires Known(py, v) && CleanScalar(v)
    ensures NoBreaks(EmitScalar(v, inList))
  {
    hide FloatText, IntText;
    match v
    case Null =>
    case Bool(b) =>
    case Int(n) => IntTextChars(IntToText(n)); NumberNoBreaks(IntToText(n));
    case Float(r) =>
      if Finite(py, v) {
        FloatTextChars(r);
        NumberNoBreaks(r);
      } else {
        NonfiniteWord(r);
        assert forall c | c in "-infa" :: !IsBreak(c);
      }
    case Str(s) =>
      if MustQuote(s, inList) {
        EscapeIsCharwise(s);
        EscapedNoBreaks(s);
        assert !IsBreak('"');
        hide MustQuote, Escape, IsBreak;
      } else {
        assert forall c | c in s :: !IsExotic(c) && c != '\n' && c != '\r';
      }
  }

  lemma {:induction false} ListNoBreaks(py: Numbers, items: seq<Scalar>)
    requires forall s | s in items :: Known(py, s) && CleanScalar(s)
    ensures NoBreaks(ListText(items))
  {
    if items != [] {
      ScalarNoBreaks(py, items[0], true);
      ListNoBreaks(py, items[1..]);
      hide EmitScalar;
      assert !IsBreak(',') && !IsBreak(' ');
    }
  }

  predicate KnownValue(py: Numbers, v: Value) {
    match v
    case One(s) => Known(py, s)
    case List(items) => forall s | s in items :: Known(py, s)
  }

  /** A clean value is printed on one line, whatever splitlines counts as a line end, and without blanks at
      its ends. */
  lemma ValueLine(py: Numbers, v: Value)
    requires KnownValue(py, v)
    ensures Trimmed(EmitValue(v))
    ensures Clean(v) ==> NoBreaks(EmitValue(v))
  {
    hide EmitScalar, EmitItems, Join, ListText, Known, IsBreak;
    match v
    case One(s) =>
      EmittedTrimmed(py, s, false);
      if Clean(v) {
        ScalarNoBreaks(py, s, false);
      }
    case List(items) =>
      assert '[' as int == 0x5b && ']' as int == 0x5d;
      JoinIsListText(items);
      if Clean(v) {
        ListNoBreaks(py, items);
        assert !IsBreak('[') && !IsBreak(']') by { PlainBrackets(); }
      }
  }

  lemma PlainBrackets()
    ensures !IsBreak('[') && !IsBreak(']')
  {
  }

  lemma KeyCharPlain(c: char)
    requires KeyChar(c)
    ensures !IsBreak(c) && !IsSpace(c) && c != '#' && c != ':'
  {
  }

  lemma {:induction false} KeyLengthOf(key: string, rest: string)
    requires forall c | c in key :: KeyChar(c)
    ensures KeyLength(key + ":" + rest) == |key|
  {
    if key == "" {
      assert !KeyChar(':');
    } else {
      assert (key + ":" + rest)[1..] == key[1..] + ":" + rest;
      assert key[0] in key;
      KeyLengthOf(key[1..], rest);
    }
  }

  lemma KeyAndRestOf(key: string, value: string)
    requires KeyOk(key) && Trimmed(value)
    ensures KeyAndRest(key + ": " + value) == Some((key, value))
  {
    var line := key + ": " + value;
    assert line == key + ":" + (" " + value);
    KeyLengthOf(key, " " + value);
    assert line[..|key|] == key && line[|key| + 1..] == " " + value && (" " + value)[1..] == value;
    SpacesAreBlanks(value[0]);
    assert DropBlanks(" " + value) == DropBlanks(value) == value;
  }

  lemma SpacesAreBlanks(c: char)
    requires !IsSpace(c)
    ensures !Blank(c)
  {
    assert ' ' as int == 0x20 && '\t' as int == 0x09;
  }

  lemma LineNotSkipped(key: string, value: string)
    requires KeyOk(key)
    ensures !Skipped(key + ": " + value)
  {
    var line := key + ": " + value;
    KeyCharPlain(key[0]);
    hide IsSpace, KeyStart, KeyChar;
    assert line == "" + [line[0]] + line[1..];
    RStripKeeps("", line[0], line[1..]);
    assert RStrip(line)[0] == line[0];
  }

  /** What comes back for a printed entry. */
  function ReadBack(py: Numbers, e: Entry<Value>): Entry<Value> {
    Entry(e.key, Coerce(py, e.key, ParseValue(py, EmitValue(e.value))))
  }

  /** A field whose printed line is read as that line. */
  predicate LineOk(e: Entry<Value>) {
    KeyOk(e.key) && NoBreaks(EmitValue(e.value)) && Trimmed(EmitValue(e.value))
  }

  lemma FieldRead(py: Numbers, e: Entry<Value>, fields: Dict<Value>)
    requires LineOk(e) && (forall f | f in fields :: f.key != e.key)
    ensures ReadField(py, FieldLine(e), fields) == fields + [ReadBack(py, e)]
  {
    hide KeyOk, EmitValue, ParseValue, Coerce, Skipped, KeyAndRest, Trimmed, NoBreaks;
    KeyAndRestOf(e.key, EmitValue(e.value));
    LineNotSkipped(e.key, EmitValue(e.value));
    PutNew(fields, e.key, ReadBack(py, e).value);
  }

  // ---------- the front matter ----------

  predicate FrontOk(d: Dict<Value>) { Distinct(d) && forall e | e in d :: LineOk(e) }

  function ReadBacks(py: Numbers, d: Dict<Value>): Dict<Value> {
    if d == [] then [] else [ReadBack(py, d[0])] + ReadBacks(py, d[1..])
  }

  lemma {:induction false} FieldsRead(py: Numbers, d: Dict<Value>, fields: Dict<Value>)
    requires FrontOk(d) && Apart(d, fields)
    ensures ReadFields(py, FieldLines(d), fields) == fields + ReadBacks(py, d)
    decreases |d|
  {
    hide *;
    if d == [] {
      NoFieldsRead(py, fields);
      assert fields + [] == fields;
    } else {
      FrontOkParts(d);
      ReadBackKey(py, d[0]);
      TailApart(d, fields, ReadBack(py, d[0]));
      FieldRead(py, d[0], fields);
      FieldsRead(py, d[1..], fields + [ReadBack(py, d[0])]);
      FieldsReadStep(py, d, fields);
      assert (fields + [ReadBack(py, d[0])]) + ReadBacks(py, d[1..]) == fields + ([ReadBack(py, d[0])] + ReadBacks(py, d[1..]));
    }
  }

  lemma NoFieldsRead(py: Numbers, fields: Dict<Value>)
    ensures ReadFields(py, FieldLines([]), fields) == fields && ReadBacks(py, []) == []
  {
  }

  lemma FieldsReadStep(py: Numbers, d: Dict<Value>, fields: Dict<Value>)
    requires d != []
    ensures ReadFields(py, FieldLines(d), fields)
         == ReadFields(py, FieldLines(d[1..]), ReadField(py, FieldLine(d[0]), fields))
    ensures ReadBacks(py, d) == [ReadBack(py, d[0])] + ReadBacks(py, d[1..])
  {
    hide ReadField, FieldLine, ReadBack;
    assert FieldLines(d)[1..] == FieldLines(d[1..]);
  }

  lemma FrontOkParts(d: Dict<Value>)
    requires FrontOk(d) && d != []
    ensures Distinct(d) && FrontOk(d[1..]) && LineOk(d[0])
  {
    assert d[0] in d;
    hide LineOk;
    assert forall e | e in d[1..] :: e in d;
  }

  lemma ReadBackKey(py: Numbers, e: Entry<Value>)
    ensures ReadBack(py, e).key == e.key
  {
  }

  lemma {:induction false} PiecesOfOneLine(s: string)
    requires NoBreaks(s)
    ensures Pieces(s) == [s]
  {
    hide IsBreak;
    if s != "" {
      PiecesOfOneLine(s[1..]);
      assert s[0] in s && s == [s[0]] + s[1..];
      assert [s[1..]][1..] == [];
    }
  }

  lemma FieldLineNoBreaks(e: Entry<Value>)
    requires LineOk(e)
    ensures NoBreaks(FieldLine(e)) && FieldLine(e) != "" && FieldLine(e)[0] != '-'
  {
    hide EmitValue, Trimmed;
    forall c | c in e.key ensures !IsBreak(c) {
      KeyCharPlain(c);
    }
    assert !IsBreak(':') && !IsBreak(' ');
  }

  lemma NoBreaksOneLine(s: string)
    requires NoBreaks(s)
    ensures OneLine(s) && '\r' !in s
  {
    assert IsBreak('\n') && IsBreak('\r') by { assert '\n' as int == 0x0a && '\r' as int == 0x0d; }
  }

  lemma {:induction false} FieldLinesWhole(d: Dict<Value>)
    requires forall e | e in d :: LineOk(e)
    ensures AllPieces(FieldLines(d)) == FieldLines(d) && |FieldLines(d)| == |d|
    ensures forall i | 0 <= i < |d| :: FieldLines(d)[i] == FieldLine(d[i])
    ensures forall l | l in FieldLines(d) :: OneLine(l) && '\r' !in l && !StartsFence(l)
  {
    hide LineOk, FieldLine, Pieces;
    if d != [] {
      var l := FieldLine(d[0]);
      FieldLineNoBreaks(d[0]);
      PiecesOfOneLine(l);
      NoBreaksOneLine(l);
      FieldLinesWhole(d[1..]);
      assert FieldLines(d)[1..] == FieldLines(d[1..]);
    }
  }

  // ---------- the sections ----------

  predicate BodyOk(e: Entry<string>) { NameOk(e.key) && SectionSurvives(e) }

  /** The lines of one section as the reader cuts them: its heading up to the next heading. */
  function BodyLines(e: Entry<string>): seq<string> {
    (if Norm(e.value) == "" then [] else [""] + Split(Norm(e.value))) + [""]
  }

  function Blocks(d: Dict<string>): seq<string> {
    if d == [] then [] else ["## " + d[0].key] + BodyLines(d[0]) + Blocks(d[1..])
  }

  lemma {:induction false} SectionLinesAreBlocks(d: Dict<string>)
    ensures AllSectionLines(d) + [""] == [""] + Blocks(d)
  {
    if d != [] {
      hide Split, Norm;
      SectionLinesAreBlocks(d[1..]);
      var h, body := "## " + d[0].key, if Norm(d[0].value) == "" then [] else [""] + Split(Norm(d[0].value));
      Shifted(h, body, AllSectionLines(d[1..]), Blocks(d[1..]));
    }
  }

  lemma Shifted(h: string, body: seq<string>, rest: seq<string>, blocks: seq<string>)
    requires rest + [""] == [""] + blocks
    ensures (["", h] + body + rest) + [""] == [""] + ([h] + (body + [""]) + blocks)
  {
    assert (["", h] + body + rest) + [""] == ["", h] + body + (rest + [""]);
    assert ["", h] + body + ([""] + blocks) == [""] + ([h] + (body + [""]) + blocks);
  }

  lemma BodyLinesAre(e: Entry<string>)
    requires BodyOk(e)
    ensures forall l | l in BodyLines(e) :: OneLine(l) && '\r' !in l && !Heading(l)
    ensures Norm(Join(BodyLines(e), "\n")) == Norm(e.value)
  {
    var b := Norm(e.value);
    NormIsNorm(e.value);
    NormBetweenBlankLines(b);
    hide Norm, Split;
    if b == "" {
      assert BodyLines(e) == [""];
    } else {
      SplitOneLine(b);
      SplitChars(b, '\r');
      JoinSplit(b);
      JoinEnd([""] + Split(b));
      assert ([""] + Split(b))[1..] == Split(b);
      assert Join([""] + Split(b), "\n") == "\n" + b;
    }
  }

  lemma {:induction false} BodyLengthOf(body: seq<string>, rest: seq<string>)
    requires (forall l | l in body :: !Heading(l)) && (rest == [] || Heading(rest[0]))
    ensures BodyLength(body + rest) == |body|
  {
    hide Heading;
    if body == [] {
      assert body + rest == rest;
    } else {
      assert (body + rest)[1..] == body[1..] + rest;
      BodyLengthOf(body[1..], rest);
    }
  }

  lemma BlocksStart(d: Dict<string>)
    requires d != [] ==> NameOk(d[0].key)
    ensures Blocks(d) == [] || Heading(Blocks(d)[0])
  {
    hide Heading;
    if d != [] {
      HeadingOfName(d[0].key);
    }
  }

  predicate BodiesOk(d: Dict<string>) { Distinct(d) && forall e | e in d :: BodyOk(e) }

  lemma BodiesOkParts(d: Dict<string>)
    requires BodiesOk(d) && d != []
    ensures Distinct(d) && BodiesOk(d[1..]) && BodyOk(d[0]) && NameOk(d[0].key) && (|d| > 1 ==> NameOk(d[1].key))
  {
    hide SectionSurvives, NameOk;
    assert d[0] in d && (|d| > 1 ==> d[1] in d);
    assert forall e | e in d[1..] :: e in d;
  }

  lemma SectionReadStep(d: Dict<string>, sections: Dict<string>)
    requires d != [] && BodyOk(d[0]) && (|d| > 1 ==> NameOk(d[1].key))
    ensures ReadSections(Blocks(d), sections)
         == ReadSections(Blocks(d[1..]), Put(sections, d[0].key, Norm(d[0].value)))
    ensures NormAll(d) == [Entry(d[0].key, Norm(d[0].value))] + NormAll(d[1..])
  {
    hide SectionSurvives, Norm, Heading, HeadingName, BodyLines, NameOk, BodyLength, Put;
    var h, body, rest := "## " + d[0].key, BodyLines(d[0]), Blocks(d[1..]);
    HeadingOfName(d[0].key);
    BodyLinesAre(d[0]);
    BlocksStart(d[1..]);
    BodyLengthOf(body, rest);
    var lines := Blocks(d);
    assert lines[1..] == body + rest && lines[1..1 + |body|] == body && lines[1 + |body|..] == rest;
  }

  lemma {:induction false} SectionsRead(d: Dict<string>, sections: Dict<string>)
    requires BodiesOk(d) && Apart(d, sections)
    ensures ReadSections(Blocks(d), sections) == sections + NormAll(d)
    decreases |d|
  {
    hide *;
    if d == [] {
      NoSectionsRead(sections);
      assert sections + [] == sections;
    } else {
      var e := Entry(d[0].key, Norm(d[0].value));
      BodiesOkParts(d);
      SectionReadStep(d, sections);
      TailApart(d, sections, e);
      PutNew(sections, e.key, e.value);
      SectionsRead(d[1..], sections + [e]);
      assert (sections + [e]) + NormAll(d[1..]) == sections + ([e] + NormAll(d[1..]));
    }
  }

  lemma NoSectionsRead(sections: Dict<string>)
    ensures ReadSections(Blocks([]), sections) == sections && NormAll([]) == []
  {
  }

  lemma {:induction false} BlocksPlain(d: Dict<string>)
    requires forall e | e in d :: BodyOk(e)
    ensures forall l | l in Blocks(d) :: OneLine(l) && '\r' !in l
  {
    hide Norm, Heading, BodyLines, SectionSurvives;
    if d != [] {
      BodyLinesAre(d[0]);
      BlocksPlain(d[1..]);
      assert d[0] in d;
    }
  }

  // ---------- the whole file ----------

  lemma {:induction false} FenceAtFrom(lines: seq<string>, k: nat, f: nat)
    requires k <= f < |lines| && StartsFence(lines[f]) && forall i | k <= i < f :: !StartsFence(lines[i])
    ensures FenceAt(lines, k) == f
    decreases f - k
  {
    hide StartsFence;
    if k < f {
      FenceAtFrom(lines, k + 1, f);
    }
  }

  lemma FenceLines(front: seq<string>, rest: seq<string>)
    requires front != [] && forall l | l in front :: !StartsFence(l)
    ensures var lines := [FENCE] + front + [FENCE] + rest;
      && FenceAt(lines, 2) == 1 + |front|
      && lines[1..1 + |front|] == front && Tail(lines, 1 + |front|) == rest
  {
    var lines, k := [FENCE] + front + [FENCE] + rest, 1 + |front|;
    assert StartsFence(FENCE);
    hide StartsFence, FENCE;
    assert lines[k] == FENCE;
    forall i | 2 <= i < k ensures !StartsFence(lines[i]) {
      assert lines[i] == front[i - 1];
    }
    FenceAtFrom(lines, 2, k);
    assert lines[k + 1..] == rest;
  }

  lemma EmptyOneLine()
    ensures OneLine("") && OneLine(FENCE) && '\r' !in FENCE && !Heading("")
  {
  }

  /** The text after the closing fence. */
  function BackText(n: Need): string {
    var back := AllSectionLines(Reorder(SECTIONS, n.sections));
    if back == [] then "" else Join(back, "\n") + "\n"
  }

  function FrontLines(n: Need): seq<string> { [FENCE] + FieldLines(Reorder(FIELDS, n.fields)) + [FENCE] }

  lemma RenderParts(n: Need)
    ensures Render(n) == Join(FrontLines(n), "\n") + "\n" + BackText(n)
  {
    hide AllSectionLines, FieldLines, Reorder, FIELDS, SECTIONS, FENCE, Join;
    var front, back := FrontLines(n), AllSectionLines(Reorder(SECTIONS, n.sections));
    RenderIs(n, front + back);
    if back == [] {
      assert front + back == front;
      assert Join(front, "\n") + "\n" + "" == Join(front, "\n") + "\n";
    } else {
      JoinAppend(front, back);
      assert Join(front, "\n") + "\n" + Join(back, "\n") + "\n" == Join(front, "\n") + "\n" + (Join(back, "\n") + "\n");
    }
  }

  /** The front of the printed text is cut into the printer's own lines, whatever the bodies hold. */
  lemma FrontReadBack(n: Need)
    requires FrontOk(Reorder(FIELDS, n.fields))
    ensures Split(Newlines(Render(n))) == FrontLines(n) + Split(Newlines(BackText(n)))
  {
    hide FieldLines, OneLine, FENCE, LineOk, Newlines, Split, Join, StartsFence, BackText, Reorder, FIELDS, Render;
    var front := FieldLines(Reorder(FIELDS, n.fields));
    FieldLinesWhole(Reorder(FIELDS, n.fields));
    EmptyOneLine();
    forall l | l in FrontLines(n) ensures OneLine(l) && '\r' !in l {
      assert l == FENCE || l in front;
    }
    RenderParts(n);
    var text := Join(FrontLines(n), "\n") + "\n";
    JoinChars(FrontLines(n), '\r');
    assert '\r' !in text;
    NewlinesAfter(text, BackText(n));
    SplitPrefix(FrontLines(n), Newlines(BackText(n)));
  }

  /** So a printed record is parsed to its read-back fields, and to the sections of the lines after the fence. */
  lemma FrontParses(py: Numbers, stem: string, n: Need)
    requires FrontOk(Reorder(FIELDS, n.fields)) && n.fields != []
    ensures Parse(py, stem, Render(n)) == Parsed(Need(
      Named(ReadBacks(py, Reorder(FIELDS, n.fields)), stem), ReadSections(Split(Newlines(BackText(n))), [])))
  {
    hide *;
    var fields := Reorder(FIELDS, n.fields);
    var front, rest := FieldLines(fields), Split(Newlines(BackText(n)));
    var lines := [FENCE] + front + [FENCE] + rest;
    FrontReadBack(n);
    FrontLinesAre(n);
    ReorderSome(FIELDS, n.fields);
    FrontIsWhole(fields);
    FenceLines(front, rest);
    NothingApart(fields);
    FieldsRead(py, fields, []);
    assert [] + ReadBacks(py, fields) == ReadBacks(py, fields);
    ParseIs(py, stem, Render(n), lines, 1 + |front|);
  }

  lemma FrontLinesAre(n: Need)
    ensures FrontLines(n) == [FENCE] + FieldLines(Reorder(FIELDS, n.fields)) + [FENCE]
  {
    hide FENCE, FieldLines, Reorder, FIELDS;
  }

  lemma ReorderSome<T(!new)>(known: seq<string>, d: Dict<T>)
    requires d != []
    ensures Reorder(known, d) != []
  {
    hide Get;
    if d[0].key in known {
      OrderedSome(known, d, d[0].key);
    }
  }

  lemma {:induction false} OrderedSome<T(!new)>(known: seq<string>, d: Dict<T>, key: string)
    requires key in known && exists e | e in d :: e.key == key
    ensures Ordered(known, d) != []
  {
    GetIsEntry(d, key);
    if known[0] != key {
      OrderedSome(known[1..], d, key);
    }
  }

  /** Two records with the same printed text have the same field lines. */
  lemma SameTextSameFront(a: Need, b: Need)
    requires FrontOk(Reorder(FIELDS, a.fields)) && FrontOk(Reorder(FIELDS, b.fields)) && Render(a) == Render(b)
    requires a.fields != [] && b.fields != []
    ensures FieldLines(Reorder(FIELDS, a.fields)) == FieldLines(Reorder(FIELDS, b.fields))
  {
    hide *;
    FrontReadBack(a);
    FrontReadBack(b);
    FrontLinesAre(a);
    FrontLinesAre(b);
    ReorderSome(FIELDS, a.fields);
    ReorderSome(FIELDS, b.fields);
    FrontIsWhole(Reorder(FIELDS, a.fields));
    FrontIsWhole(Reorder(FIELDS, b.fields));
    FenceLines(FieldLines(Reorder(FIELDS, a.fields)), Split(Newlines(BackText(a))));
    FenceLines(FieldLines(Reorder(FIELDS, b.fields)), Split(Newlines(BackText(b))));
  }

  lemma {:induction false} AllSectionLinesPlain(d: Dict<string>)
    requires BodiesOk(d)
    ensures forall l | l in AllSectionLines(d) :: OneLine(l) && '\r' !in l
  {
    hide AllSectionLines, Blocks, BodyOk, OneLine;
    BlocksPlain(d);
    SectionLinesAreBlocks(d);
    assert OneLine("") by { EmptyOneLine(); }
    forall l | l in AllSectionLines(d) ensures OneLine(l) && '\r' !in l {
      assert l in AllSectionLines(d) + [""];
      assert l in [""] + Blocks(d);
    }
  }

  /** The lines after the fence are the printer's own. */
  lemma BackReadBack(n: Need)
    requires BodiesOk(Reorder(SECTIONS, n.sections))
    ensures Split(Newlines(BackText(n))) == [""] + Blocks(Reorder(SECTIONS, n.sections))
  {
    hide AllSectionLines, Blocks, OneLine, BodyOk, Newlines, Split, Join, BodiesOk, Reorder, SECTIONS;
    var sections := Reorder(SECTIONS, n.sections);
    var back := AllSectionLines(sections);
    AllSectionLinesPlain(sections);
    SectionLinesAreBlocks(sections);
    if back == [] {
      NothingToSplit();
      assert back + [""] == [""];
    } else {
      JoinChars(back, '\r');
      NewlinesHasNoReturn(Join(back, "\n") + "\n");
      SplitPrinted(back);
    }
  }

  lemma NothingToSplit()
    ensures Split(Newlines("")) == [""]
  {
  }

  lemma RenderedParses(py: Numbers, stem: string, n: Need, fields: Dict<Value>, sections: Dict<string>)
    requires fields == Reorder(FIELDS, n.fields) && sections == Reorder(SECTIONS, n.sections)
    requires FrontOk(fields) && n.fields != [] && BodiesOk(sections)
    ensures Parse(py, stem, Render(n)) == Parsed(Need(Named(ReadBacks(py, fields), stem), NormAll(sections)))
  {
    hide *;
    FrontParses(py, stem, n);
    BackReadBack(n);
    NothingApart(sections);
    SectionsRead(sections, []);
    BlankLineSkipped(Blocks(sections));
    assert [] + NormAll(sections) == NormAll(sections);
  }

  lemma NothingApart<T>(d: Dict<T>)
    ensures Apart<T, T>(d, [])
  {
  }

  lemma FrontIsWhole(fields: Dict<Value>)
    requires FrontOk(fields) && fields != []
    ensures FieldLines(fields) != [] && AllPieces(FieldLines(fields)) == FieldLines(fields)
    ensures forall l | l in FieldLines(fields) :: !StartsFence(l)
  {
    hide FieldLines, AllPieces, LineOk, StartsFence;
    FieldLinesWhole(fields);
  }

  lemma BlankLineSkipped(lines: seq<string>)
    ensures ReadSections([""] + lines, []) == ReadSections(lines, [])
  {
    assert ([""] + lines)[1..] == lines;
  }

  lemma ParseIs(py: Numbers, stem: string, file: string, lines: seq<string>, k: nat)
    requires lines == Split(Newlines(file)) && |lines| >= 2 && lines[0] == FENCE && k < |lines| && FenceAt(lines, 2) == k
    ensures Parse(py, stem, file)
         == Parsed(Need(Named(ReadFields(py, AllPieces(lines[1..k]), []), stem), ReadSections(Tail(lines, k), [])))
  {
    hide Split, Newlines, FENCE, FenceAt, Named, ReadFields, AllPieces, ReadSections, Tail;
  }

  // ---------- what every parsed record satisfies ----------

  predicate NoExotic(s: string) { forall c | c in s :: !IsExotic(c) }

  lemma {:induction false} UnescapedNoExotic(s: string)
    requires NoExotic(s)
    ensures NoExotic(Unescape(s))
    decreases |s|
  {
    if s != "" {
      assert s[0] in s && (|s| > 1 ==> s[1] in s);
      assert forall c :: !IsExotic(c) ==> !IsExotic(Meaning(c)) by {
        assert '\t' as int == 0x09;
      }
      hide IsExotic, Meaning;
      if s[0] == '\\' && |s| > 1 {
        UnescapedNoExotic(s[2..]);
      } else {
        UnescapedNoExotic(s[1..]);
      }
    }
  }

  lemma ScalarParsedClean(py: Numbers, raw: string)
    requires NoExotic(raw)
    ensures CleanScalar(ParseScalar(py, raw))
  {
    StripFacts(raw);
    var s := Strip(raw);
    if Quoted(s) {
      hide IsExotic, Strip;
      UnescapedNoExotic(s[1..|s| - 1]);
    } else {
      hide IsExotic, Strip, FloatText, IntText, Unescape;
    }
  }

  lemma {:induction false} PartsNoExotic(s: string, buf: string, quoted: bool, esc: bool)
    requires NoExotic(s) && NoExotic(buf)
    ensures forall p | p in Parts(s, buf, quoted, esc) :: NoExotic(p)
    decreases |s|
  {
    hide IsExotic;
    if s != "" {
      assert s[0] in s;
      var more := buf + [s[0]];
      assert NoExotic(s[1..]) && NoExotic(more) && NoExotic("");
      hide NoExotic;
      PartsNoExotic(s[1..], more, quoted, false);
      PartsNoExotic(s[1..], more, quoted, true);
      PartsNoExotic(s[1..], more, !quoted, false);
      PartsNoExotic(s[1..], "", quoted, false);
    }
  }

  lemma {:induction false} NonBlankAreParts(parts: seq<string>)
    ensures forall p | p in NonBlank(parts) :: p in parts
  {
    if parts != [] {
      hide Strip;
      NonBlankAreParts(parts[1..]);
    }
  }

  /** Parsing a line can not make an exotic line break. */
  lemma ValueParsedClean(py: Numbers, raw: string)
    requires NoExotic(raw)
    ensures Clean(ParseValue(py, raw))
  {
    StripFacts(raw);
    var s := Strip(raw);
    hide Strip, IsExotic, ParseScalar, CleanScalar, NonBlank, Parts;
    if Bracketed(s) {
      var inner := if |s| >= 2 then s[1..|s| - 1] else "";
      PartsNoExotic(inner, "", false, false);
      NonBlankAreParts(Parts(inner, "", false, false));
      var parts := SplitFlow(inner);
      forall i | 0 <= i < |parts| ensures CleanScalar(ParseScalar(py, parts[i])) {
        assert parts[i] in parts;
        ScalarParsedClean(py, parts[i]);
      }
    } else {
      ScalarParsedClean(py, s);
    }
  }

  lemma CoercedClean(py: Numbers, key: string, v: Value)
    requires Clean(v)
    ensures Clean(Coerce(py, key, v))
  {
    hide IsExotic, LIST_FIELDS, INT_FIELDS, FLOAT_FIELDS;
  }

  lemma {:induction false} PutKeeps<T(!new)>(d: Dict<T>, key: string, value: T)
    ensures forall e | e in Put(d, key, value) :: e in d || e == Entry(key, value)
  {
    if d != [] {
      PutKeeps(d[1..], key, value);
    }
  }

  predicate AllClean(d: Dict<Value>) { forall e | e in d :: Clean(e.value) }

  lemma {:induction false} DropBlanksChars(s: string)
    ensures forall c | c in DropBlanks(s) :: c in s
  {
    if s != "" && Blank(s[0]) {
      DropBlanksChars(s[1..]);
    }
  }

  lemma FieldReadClean(py: Numbers, line: string, d: Dict<Value>)
    requires NoBreaks(line) && AllClean(d)
    ensures AllClean(ReadField(py, line, d))
  {
    hide Skipped, Put, Coerce, ParseValue, Clean, IsBreak, KeyLength, DropBlanks, Blank, KeyStart;
    var kv := KeyAndRest(line);
    if kv.Some? {
      var rest := kv.value.1;
      assert NoExotic(rest) by {
        DropBlanksChars(line[KeyLength(line) + 1..]);
      }
      ValueParsedClean(py, rest);
      CoercedClean(py, kv.value.0, ParseValue(py, rest));
      PutKeeps(d, kv.value.0, Coerce(py, kv.value.0, ParseValue(py, rest)));
    }
  }

  lemma {:induction false} FieldsReadClean(py: Numbers, lines: seq<string>, d: Dict<Value>)
    requires (forall l | l in lines :: NoBreaks(l)) && AllClean(d)
    ensures AllClean(ReadFields(py, lines, d))
    decreases |lines|
  {
    hide NoBreaks, AllClean, ReadField;
    if lines != [] {
      FieldReadClean(py, lines[0], d);
      FieldsReadClean(py, lines[1..], ReadField(py, lines[0], d));
    }
  }

  lemma {:induction false} PiecesNoBreaks(line: string)
    ensures forall p | p in Pieces(line) :: NoBreaks(p)
  {
    hide IsBreak;
    if line != "" {
      PiecesNoBreaks(line[1..]);
      var rest := Pieces(line[1..]);
      assert rest[0] in rest && NoBreaks("");
      if !IsBreak(line[0]) {
        assert NoBreaks([line[0]] + rest[0]);
      }
    }
  }

  lemma {:induction false} AllPiecesNoBreaks(lines: seq<string>)
    ensures forall p | p in AllPieces(lines) :: NoBreaks(p)
  {
    hide NoBreaks, Pieces;
    if lines != [] {
      PiecesNoBreaks(lines[0]);
      AllPiecesNoBreaks(lines[1..]);
    }
  }

  predicate BodyRead(body: string) { '\r' !in body && Plain(body) }

  predicate AllRead(d: Dict<string>) { forall e | e in d :: BodyRead(e.value) }

  predicate LineRead(l: string) { OneLine(l) && '\r' !in l }

  lemma BodyIsRead(lines: seq<string>)
    requires forall l | l in lines :: LineRead(l) && !Heading(l)
    ensures BodyRead(Norm(Join(lines, "\n")))
  {
    hide Heading, Norm;
    var s := Join(lines, "\n");
    NormIsNorm(s);
    JoinChars(lines, '\r');
    if lines == [] {
      EmptyOneLine();
      assert Plain("");
    } else {
      SplitJoin(lines);
    }
    PlainNorm(s);
  }

  lemma {:induction false} BodyLengthPlain(lines: seq<string>)
    ensures forall l | l in lines[..BodyLength(lines)] :: !Heading(l)
  {
    hide Heading;
    if lines != [] && !Heading(lines[0]) {
      BodyLengthPlain(lines[1..]);
      var n := BodyLength(lines);
      assert lines[..n] == [lines[0]] + lines[1..][..n - 1];
    }
  }

  lemma {:induction false} SectionsReadPlain(lines: seq<string>, d: Dict<string>)
    requires (forall l | l in lines :: LineRead(l)) && AllRead(d)
    ensures AllRead(ReadSections(lines, d))
    decreases |lines|
  {
    hide Heading, HeadingName, Norm, Put, LineRead, BodyRead, BodyLength;
    if lines != [] {
      if !Heading(lines[0]) {
        SectionsReadPlain(lines[1..], d);
      } else {
        var n := BodyLength(lines[1..]);
        var body := lines[1..1 + n];
        BodyLengthPlain(lines[1..]);
        assert body == lines[1..][..n];
        BodyIsRead(body);
        PutKeeps(d, HeadingName(lines[0]), Norm(Join(body, "\n")));
        SectionsReadPlain(lines[1 + n..], Put(d, HeadingName(lines[0]), Norm(Join(body, "\n"))));
      }
    }
  }

  lemma FileLines(file: string)
    ensures forall l | l in Split(Newlines(file)) :: LineRead(l)
  {
    NewlinesHasNoReturn(file);
    SplitOneLine(Newlines(file));
    SplitChars(Newlines(file), '\r');
  }

  /** Whatever file was parsed: no field but the id (which may come from the file name) holds an exotic
      line break, no body holds a carriage return, and no body line is a heading. */
  lemma ParsedRecords(py: Numbers, stem: string, file: string)
    ensures var r := Parse(py, stem, file); r.Parsed? ==>
      (forall e | e in r.need.fields && e.key != ID :: Clean(e.value)) && AllRead(r.need.sections)
  {
    hide Split, Newlines, FENCE, FenceAt, ReadFields, AllPieces, ReadSections, Put, Truthy, BodyRead, ID, Clean;
    var lines := Split(Newlines(file));
    FileLines(file);
    if Parse(py, stem, file).Parsed? {
      var k := FenceAt(lines, 2);
      AllPiecesNoBreaks(lines[1..k]);
      var fields := ReadFields(py, AllPieces(lines[1..k]), []);
      FieldsReadClean(py, AllPieces(lines[1..k]), []);
      PutKeeps(fields, ID, One(Str(stem)));
      TailLines(lines, k);
      SectionsReadPlain(Tail(lines, k), []);
    }
  }

  lemma TailLines(lines: seq<string>, k: nat)
    requires k < |lines| && StartsFence(lines[k]) && forall l | l in lines :: LineRead(l)
    ensures forall l | l in Tail(lines, k) :: LineRead(l)
  {
    assert lines[k] in lines;
    assert forall c | c in lines[k][3..] :: c in lines[k];
  }

  // ---------- the round trip ----------

  lemma {:induction false} NormAllAre(d: Dict<string>)
    ensures |NormAll(d)| == |d|
    ensures forall i | 0 <= i < |d| :: NormAll(d)[i] == Entry(d[i].key, Norm(d[i].value))
  {
    if d != [] {
      NormAllAre(d[1..]);
    }
  }

  lemma {:induction false} ReadBacksAre(py: Numbers, d: Dict<Value>)
    ensures |ReadBacks(py, d)| == |d|
    ensures forall i | 0 <= i < |d| :: ReadBacks(py, d)[i] == ReadBack(py, d[i])
  {
    hide ReadBack;
    if d != [] {
      ReadBacksAre(py, d[1..]);
    }
  }

  lemma ReadBackExact(py: Numbers, e: Entry<Value>)
    requires FieldOk(py, e)
    ensures ReadBack(py, e) == e <==> Splits(e.value)
  {
    hide KeyOk, QuotesClosed, ParseScalar, EmitScalar;
    ValueRoundTrip(py, e.value);
    if e.value.List? {
      ListParsesToList(py, e.value.items);
      hide ParseValue, EmitValue;
      CoercedList(py, e.key, ParseValue(py, EmitValue(e.value)).items);
    }
  }

  lemma CoercedList(py: Numbers, key: string, items: seq<Scalar>)
    ensures Coerce(py, key, List(items)) == List(items)
  {
    hide LIST_FIELDS, INT_FIELDS, FLOAT_FIELDS;
  }

  lemma ListParsesToList(py: Numbers, items: seq<Scalar>)
    ensures ParseValue(py, EmitValue(List(items))).List?
  {
    hide ParseValue, Join, EmitItems;
    BracketsRead(py, Join(EmitItems(items), ", "));
  }

  lemma KnownFields()
    ensures NoRepeats(FIELDS)
  {
    hide SECTIONS;
  }

  lemma KnownSections()
    ensures NoRepeats(SECTIONS)
  {
    hide FIELDS;
  }

  lemma IdSurvives(v: Value)
    requires IdOk(Some(v))
    ensures Clean(v) && Splits(v) && Truthy(Some(v))
  {
    match v
    case One(Str(s)) =>
      forall c | c in s ensures !IsExotic(c) {
        SlugChars(s, c);
      }
    case One(Float(r)) =>
      if r == "0.0" || r == "-0.0" {
        assert r[|r| - 2] == '.';
        SlugChars(r, '.');
      }
    case One(Int(n)) =>
  }

  lemma SlugChars(s: string, c: char)
    requires Slug(s) && c in s
    ensures !IsExotic(c) && c != '.'
  {
    var t := if s != "" && s[|s| - 1] == '\n' then s[..|s| - 1] else s;
    assert s == t || s == t + ['\n'];
    if c in t {
      assert SlugChar(c);
    } else {
      assert c == '\n';
    }
    PlainSlug(c);
  }

  lemma PlainSlug(c: char)
    requires SlugChar(c) || c == '\n'
    ensures !IsExotic(c) && c != '.'
  {
    assert '-' as int == 0x2d && '.' as int == 0x2e && '0' as int == 0x30 && 'a' as int == 0x61;
  }

  /** The printer's order of a well-formed record has the same, well-formed, entries. */
  lemma ReorderedOk(py: Numbers, n: Need)
    requires WellFormed(py, n)
    ensures var fields, sections := Reorder(FIELDS, n.fields), Reorder(SECTIONS, n.sections);
      && Distinct(fields) && (forall e :: e in fields <==> e in n.fields)
      && Distinct(sections) && (forall e :: e in sections <==> e in n.sections)
      && Get(fields, ID) == Get(n.fields, ID)
  {
    hide Reorder, FIELDS, SECTIONS, FieldOk, NameOk, ID, IdOk, NoRepeats, Distinct;
    KnownFields();
    KnownSections();
    ReorderAre(FIELDS, n.fields);
    ReorderAre(SECTIONS, n.sections);
    SameGet(Reorder(FIELDS, n.fields), n.fields, ID);
  }

  /** The id, a slug or a number, is read back, so the file name is not consulted. */
  lemma IdReadBack(py: Numbers, d: Dict<Value>, stem: string)
    requires Distinct(d) && (forall e | e in d :: FieldOk(py, e)) && IdOk(Get(d, ID))
    ensures Named(ReadBacks(py, d), stem) == ReadBacks(py, d)
  {
    hide FieldOk, ReadBack, IdOk, Truthy, ID, Put, Splits, Clean, ReadBacks;
    IdIsSome(d);
    GetIsEntry(d, ID);
    var e := Entry(ID, Get(d, ID).value);
    IdSurvives(e.value);
    ReadBackExact(py, e);
    ReadBacksKeys(py, d);
    ReadBacksAre(py, d);
    var r := ReadBacks(py, d);
    assert e in r;
    GetIsEntry(r, ID);
  }

  lemma ReadBacksKeys(py: Numbers, d: Dict<Value>)
    requires Distinct(d)
    ensures Distinct(ReadBacks(py, d))
  {
    hide ReadBack, ReadBacks;
    ReadBacksAre(py, d);
    forall i | 0 <= i < |d| ensures ReadBacks(py, d)[i].key == d[i].key {
      ReadBackKey(py, d[i]);
    }
  }

  /** Reading back the printed fields gives the same fields exactly when every list splits. */
  lemma FieldsReadBack(py: Numbers, d: Dict<Value>, stem: string)
    requires Distinct(d) && (forall e | e in d :: FieldOk(py, e)) && IdOk(Get(d, ID))
    ensures Named(ReadBacks(py, d), stem) == d <==> forall e | e in d :: Splits(e.value)
  {
    IdReadBack(py, d, stem);
    hide FieldOk, ReadBack, Splits, IdOk, ID, Named, ReadBacks, Distinct;
    ReadBacksAre(py, d);
    var r := ReadBacks(py, d);
    forall i | 0 <= i < |d| ensures r[i] == d[i] <==> Splits(d[i].value) {
      assert d[i] in d;
      ReadBackExact(py, d[i]);
    }
  }

  lemma IdIsSome(d: Dict<Value>)
    requires IdOk(Get(d, ID))
    ensures Get(d, ID).Some?
  {
  }

  lemma FieldOkLine(py: Numbers, e: Entry<Value>)
    requires FieldOk(py, e) && Clean(e.value)
    ensures LineOk(e)
  {
    FiniteIsKnown(py, e.value);
    ValueLine(py, e.value);
    hide EmitValue, NoBreaks, Trimmed, FiniteValue, Coerce, KnownValue;
  }

  lemma FiniteIsKnown(py: Numbers, v: Value)
    requires FiniteValue(py, v)
    ensures KnownValue(py, v)
  {
    hide Finite;
  }

  /** A record whose values and bodies are all legible parses to its read-back fields and its bodies. */
  lemma LegibleRecord(py: Numbers, stem: string, n: Need)
    requires WellFormed(py, n) && (forall e | e in n.fields :: Clean(e.value))
    requires forall e | e in n.sections :: SectionSurvives(e)
    ensures Parse(py, stem, Render(n)) == Parsed(Canonical(n)) <==> forall e | e in n.fields :: Splits(e.value)
  {
    var fields, sections := Reorder(FIELDS, n.fields), Reorder(SECTIONS, n.sections);
    ReorderedOk(py, n);
    hide FIELDS, SECTIONS, Reorder, ID, FieldOk, NameOk, SectionSurvives, Clean, Splits, IdOk, Parse, Render, Named,
      NormAll, ReadBacks, LineOk;
    forall e | e in fields ensures LineOk(e) {
      FieldOkLine(py, e);
    }
    assert FrontOk(fields) && BodiesOk(sections);
    FieldsReadBack(py, fields, stem);
    IdIsSome(fields);
    IdIsSome(n.fields);
    assert n.fields != [] by { GetIsEntry(n.fields, ID); }
    RenderedParses(py, stem, n, fields, sections);
  }

  lemma UncleanField(py: Numbers, stem: string, n: Need, e: Entry<Value>)
    requires WellFormed(py, n) && e in n.fields && !Clean(e.value)
    ensures Parse(py, stem, Render(n)) != Parsed(Canonical(n))
  {
    ReorderedOk(py, n);
    GetIsEntry(n.fields, ID);
    if e.key == ID {
      IdSurvives(e.value);
    }
    hide Reorder, FIELDS, SECTIONS, ID, FieldOk, NameOk, Clean, IdOk, Parse, Render, NormAll;
    ParsedRecords(py, stem, Render(n));
    assert e in Canonical(n).fields;
  }

  lemma UnreadableSection(py: Numbers, stem: string, n: Need, e: Entry<string>)
    requires WellFormed(py, n) && e in n.sections && !SectionSurvives(e)
    ensures Parse(py, stem, Render(n)) != Parsed(Canonical(n))
  {
    ReorderedOk(py, n);
    hide Reorder, FIELDS, SECTIONS, ID, FieldOk, NameOk, Clean, IdOk, Parse, Render, Plain, Norm;
    ParsedRecords(py, stem, Render(n));
    var sections := Reorder(SECTIONS, n.sections);
    var i :| 0 <= i < |sections| && sections[i] == e;
    NormAllAre(sections);
    assert NormAll(sections)[i] in Canonical(n).sections;
    assert !BodyRead(Norm(e.value));
  }

  /** Main result: a well-formed record is parsed back, in canonical order with trimmed bodies, exactly
      when no string holds an unescaped line break, every list splits, and no trimmed body holds a
      carriage return or a heading line. */
  lemma RecordRoundTrip(py: Numbers, stem: string, n: Need)
    requires WellFormed(py, n)
    ensures Parse(py, stem, Render(n)) == Parsed(Canonical(n)) <==> Survives(n)
  {
    hide WellFormed, Clean, Splits, SectionSurvives, Parse, Render, Canonical;
    if e :| e in n.fields && !Clean(e.value) {
      UncleanField(py, stem, n, e);
    } else if e :| e in n.sections && !SectionSurvives(e) {
      UnreadableSection(py, stem, n, e);
    } else {
      LegibleRecord(py, stem, n);
    }
  }

  // ---------- byte stability ----------

  lemma {:induction false} NormAllTwice(d: Dict<string>)
    ensures AllSectionLines(NormAll(d)) == AllSectionLines(d)
  {
    if d != [] {
      NormAllTwice(d[1..]);
      NormIsNorm(d[0].value);
      NormBetweenBlankLines(Norm(d[0].value));
      hide Norm, Split;
    }
  }

  lemma {:induction false} NormAllGet(d: Dict<string>, key: string)
    ensures Get(NormAll(d), key) == match Get(d, key) case None => None case Some(b) => Some(Norm(b))
  {
    if d != [] {
      hide Norm;
      NormAllGet(d[1..], key);
    }
  }

  lemma NormAllCons(e: Entry<string>, d: Dict<string>)
    ensures NormAll([e] + d) == [Entry(e.key, Norm(e.value))] + NormAll(d)
  {
    assert ([e] + d)[1..] == d;
  }

  lemma {:induction false} NormAllOrdered(known: seq<string>, d: Dict<string>)
    ensures Ordered(known, NormAll(d)) == NormAll(Ordered(known, d))
  {
    if known != [] {
      hide Norm;
      NormAllGet(d, known[0]);
      NormAllOrdered(known[1..], d);
      var got := Get(d, known[0]);
      if got.Some? {
        NormAllCons(Entry(known[0], got.value), Ordered(known[1..], d));
      } else {
        assert [] + Ordered(known[1..], d) == Ordered(known[1..], d);
      }
    }
  }

  lemma {:induction false} NormAllOthers(known: seq<string>, d: Dict<string>)
    ensures Others(known, NormAll(d)) == NormAll(Others(known, d))
  {
    if d != [] {
      hide Norm;
      NormAllOthers(known, d[1..]);
      NormAllCons(d[0], Others(known, d[1..]));
      assert [] + Others(known, d[1..]) == Others(known, d[1..]);
    }
  }

  lemma {:induction false} NormAllAppend(a: Dict<string>, b: Dict<string>)
    ensures NormAll(a + b) == NormAll(a) + NormAll(b)
  {
    if a == [] {
      assert a + b == b;
    } else {
      hide Norm;
      assert (a + b)[1..] == a[1..] + b;
      NormAllAppend(a[1..], b);
    }
  }

  lemma NormAllReorder(known: seq<string>, d: Dict<string>)
    ensures Reorder(known, NormAll(d)) == NormAll(Reorder(known, d))
  {
    hide NormAll, Ordered, Others;
    NormAllOrdered(known, d);
    NormAllOthers(known, d);
    NormAllAppend(Ordered(known, d), Others(known, d));
  }

  lemma CanonicalPrintsTheSame(py: Numbers, n: Need)
    requires WellFormed(py, n)
    ensures Render(Canonical(n)) == Render(n)
  {
    hide FIELDS, SECTIONS, FieldOk, NameOk, IdOk, ID, Reorder, NormAll, AllSectionLines, FieldLines, Join;
    KnownFields();
    KnownSections();
    ReorderTwice(FIELDS, n.fields);
    ReorderTwice(SECTIONS, n.sections);
    NormAllReorder(SECTIONS, Reorder(SECTIONS, n.sections));
    NormAllTwice(Reorder(SECTIONS, n.sections));
  }

  /** A surviving record, written, parsed and written again, is the same file byte for byte. */
  lemma RewriteIsStable(py: Numbers, stem: string, n: Need)
    requires WellFormed(py, n) && Survives(n)
    ensures Parse(py, stem, Render(n)).Parsed?
    ensures Render(Parse(py, stem, Render(n)).need) == Render(n)
  {
    hide WellFormed, Survives, Parse, Render, Canonical;
    RecordRoundTrip(py, stem, n);
    CanonicalPrintsTheSame(py, n);
  }
}
