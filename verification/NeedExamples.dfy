/** Inputs on which the need records of scripts/repipe/needs.py do not do what their documentation says: a
    filing that changes the file the second time, because of a list that does not split or of a heading in a
    body; a list that does not split and yet settles; and a pull request name that overwrites a status. */
module NeedExamples {
  import opened NeedValues
  import opened NeedText
  import opened NeedRecord
  import opened NeedRoundTrip
  import opened NeedParsed
  import opened NeedBacklog
  import opened NeedMerge
  import opened NeedFiling
  import opened NeedAcceptance
  import opened NeedStray

  // ---------- a list that does not split ----------

  const OPEN: string := "a\"b"

  lemma OpenIsOpen()
    ensures !MustQuote(OPEN, true) && !QuotesClosed(Str(OPEN)) && ',' !in OPEN && '"' in OPEN
  {
    assert OPEN == ['a', '"', 'b'];
    OpenQuoteIsBare(OPEN);
    OpenQuoteScan(OPEN);
    hide MustQuote, Scan;
    assert EmitScalar(Str(OPEN), true) == OPEN;
  }

  lemma ChallengesAreAList()
    ensures "challenges" in LIST_FIELDS && !Plainly("challenges") && !IsCounter("challenges") && "challenges" != FIRST
  {
    assert LIST_FIELDS[0] == "challenges";
    KeyKinds("challenges");
  }

  lemma OpenIsKept(env: Env, store: Store, f: Need, x: Entry<Value>)
    requires FilingOk(env, store, f) && !Stored(env, store, f) && x in f.fields
    ensures x in Front(Kept(env, store, f)) && StringsApart(env.same)
  {
    FilingUpserts(env, store, f);
    FilingDistinct(env, store, f);
    assert StringsApart(env.same);
    hide FilingOk, Kept, Front, Upsert, Stored, Shaped, Legible, StringsApart;
    GetEntry(f.fields, x);
    NewKept(env, store, f, x.key);
    GetIsEntry(Kept(env, store, f).fields, x.key);
    KeptFront(env, store, f);
  }

  function OpenList(): Entry<Value> { Entry("challenges", List([Str(OPEN), Str("c")])) }

  lemma OpenListFacts(env: Env, f: Dict<Value>)
    requires StringsApart(env.same)
    ensures !Rereads(f, OpenList()) && SelfMergedField(env, "challenges", OpenList().value)
    ensures forall s | s in OpenList().value.items :: !QuotedComma(s)
  {
    OpenIsOpen();
    ChallengesAreAList();
    TwoApart(env.same, OPEN, "c");
    assert ',' !in "c";
    hide OPEN, LIST_FIELDS, FIRST, IsCounter, StringsApart, QuotesClosed;
    assert OpenList().value.items[0] == Str(OPEN);
  }

  /** Every new need whose challenges are a"b and c is merged with itself, and yet changes when it is filed a second
      time: the printed list [a"b, c] is read as one item, and the union then has three. */
  lemma OpenListFiledTwice(env: Env, store: Store, f: Need)
    requires FilingOk(env, store, f) && !Stored(env, store, f) && OpenList() in f.fields
    ensures SelfMergedField(env, "challenges", OpenList().value)
    ensures var once := Upsert(env, store, f).value; Upsert(env, once, f) != Ok(once)
  {
    FilingUpserts(env, store, f);
    hide FilingOk, Kept, Front, Upsert, Stored, SelfMergedField, Rereads, QuotedComma, Settles, StringsApart;
    OpenIsKept(env, store, f, OpenList());
    OpenListFacts(env, f.fields);
    OpenUnsettled(env, store, f, OpenList());
    Settling(env, store, f);
  }

  lemma TwoApart(same: Scalar -> Scalar, a: string, b: string)
    requires StringsApart(same) && a != b
    ensures DupFree(same, [Str(a), Str(b)])
  {
    assert [Str(a), Str(b)][1..] == [Str(b)] && [Str(b)][1..] == [];
    assert Keys(same, [Str(b)]) == {same(Str(b))};
    assert Keys(same, []) == {};
  }

  // ---------- a list that settles without splitting ----------

  /** The list of a"b, c and a"b and c, its first item holding both a quote and a comma, does not split either. It is
      read as twice its first item, and the union with what is filed makes it whole again. */
  lemma ListSettlesUnsplit(env: Env)
    requires StringsApart(env.same)
    ensures var u := [Str(OPEN + ", c"), Str(OPEN), Str("c")];
      && !Splits(List(u)) && QuotedComma(u[0])
      && Union(env.same, ParseValue(env.py, EmitValue(List(u))).items, u) == u
  {
    var x, o, c := Str(OPEN + ", c"), Str(OPEN), Str("c");
    var u := [x, o, c];
    OpenIsOpen();
    assert !Splits(List(u)) by { assert u[1] == o; }
    assert ',' in x.s by { assert x.s[|OPEN|] == ','; }
    assert '"' in x.s;
    ReadsAsTwo(env.py, u);
    UnionRepairs(env.same, x, o, c) by {
      assert |x.s| == 6 && |o.s| == 3 && |c.s| == 1;
    }
  }

  lemma UnionRepairs(same: Scalar -> Scalar, x: Scalar, o: Scalar, c: Scalar)
    requires StringsApart(same) && x.Str? && o.Str? && c.Str? && x != o && x != c && o != c
    ensures Union(same, [x, x], [x, o, c]) == [x, o, c]
  {
    assert same(x) != same(o) && same(x) != same(c) && same(o) != same(c);
    hide StringsApart;
    var items := [x, x] + [x, o, c];
    assert items[1..] == [x, x, o, c] && items[1..][1..] == [x, o, c] && items[1..][1..][1..] == [o, c];
    assert [o, c][1..] == [c] && [c][1..] == [];
    var k := {} + {same(x)};
    assert Dedupe(same, [c], k + {same(o)}) == [c] + Dedupe(same, [], k + {same(o)} + {same(c)}) == [c];
    assert Dedupe(same, [o, c], k) == [o] + Dedupe(same, [c], k + {same(o)}) == [o, c];
    assert Dedupe(same, [x, o, c], k) == [o, c] && Dedupe(same, [x, x, o, c], k) == [o, c];
    assert Dedupe(same, items, {}) == [x] + [o, c];
  }

  lemma ReadsAsTwo(py: Numbers, u: seq<Scalar>)
    requires u == [Str(OPEN + ", c"), Str(OPEN), Str("c")]
    ensures ParseValue(py, EmitValue(List(u))) == List([u[0], u[0]])
  {
    hide ParseScalar, Strip, EmitScalar, NoSplit, Scan, NonBlank, Parts, ParseParts, ParseValue, EmitValue, OPEN;
    var e, rest := EmitScalar(u[0], true), ListText(u[1..]);
    EmitListText(u);
    BracketsRead(py, ListText(u));
    FirstCloses(u[0].s);
    ItemScan(py, u[0]);
    BufferedItem(py, u[0], "");
    assert "" + e == e;
    PartsSkip(e, ", " + rest, "", OUTSIDE);
    CommaBlank(rest, e);
    ReadCons(py, e, Parts(rest, " ", false, false));
    assert u[1..] == [Str(OPEN), Str("c")];
    OpenRestRead(py, OPEN, rest);
    assert [u[0]] + [u[0]] == [u[0], u[0]];
  }

  lemma EmitListText(u: seq<Scalar>)
    ensures EmitValue(List(u)) == "[" + ListText(u) + "]"
  {
    JoinIsListText(u);
    hide EmitItems, Join, ListText;
  }

  lemma FirstCloses(s: string)
    requires ',' in s
    ensures QuotesClosed(Str(s)) && EmitScalar(Str(s), true) == "\"" + Escape(s) + "\""
  {
    QuotedScan(s);
    hide Escape, Strip, IntText, FloatText;
    assert MustQuote(s, true);
  }

  /** The rest of the text, a"b and c with the blank before them, is one part. */
  lemma OpenRestRead(py: Numbers, o: string, rest: string)
    requires o == OPEN && rest == ListText([Str(o), Str("c")])
    ensures ParseParts(py, NonBlank(Parts(rest, " ", false, false))) == [Str(o + ", c")]
  {
    OpenIsOpen();
    var tail, f := ", c", Flags(true, false);
    OpenText(o);
    OpenQuoteScan(o);
    ItemScan(py, Str(o));
    TailScan(tail);
    BareItem(o);
    hide Scan, NoSplit, MustQuote, OPEN, EmitScalar, Parts, NonBlank, ParseParts, ParseScalar, Strip, Trimmed, ListText;
    PartsSkip(o, tail, " ", OUTSIDE);
    assert tail + "" == tail;
    PartsSkip(tail, "", " " + o, f);
    var part := " " + o + tail;
    PartIs(o, part);
    CommaIsText(py, part, o + tail, |o|);
    LastPart(py, part, f);
  }

  lemma OpenText(o: string)
    requires o == OPEN
    ensures ListText([Str(o), Str("c")]) == o + ", c" && EmitScalar(Str(o), true) == o
  {
    OpenIsOpen();
    WordIsBare("c", true);
    hide MustQuote, OPEN, Trimmed;
    assert [Str(o), Str("c")][1..] == [Str("c")];
    assert ListText([Str("c")]) == "c";
    assert ", " + "c" == ", c";
  }

  /** A word of lower-case letters that is no keyword is printed bare. */
  lemma WordIsBare(s: string, inList: bool)
    requires s != "" && (forall c | c in s :: 'a' <= c <= 'z') && s != "null" && s != "true" && s != "false"
    requires !NumberChar(s[0]) && s[0] !in SIGILS
    ensures EmitScalar(Str(s), inList) == s && Trimmed(s)
  {
    LettersTrimmed(s);
    StripTrimmed(s);
    NotNumber(s, 0);
    hide Strip, IntText, FloatText, IsSpace;
    assert '~' !in s;
  }

  lemma LettersTrimmed(s: string)
    requires s != "" && forall c | c in s :: 'a' <= c <= 'z'
    ensures Trimmed(s)
  {
    assert s[0] in s && s[|s| - 1] in s;
    forall c: char | 'a' <= c <= 'z' ensures !IsSpace(c) {
      assert 0x61 <= c as int <= 0x7a by { assert 'a' as int == 0x61 && 'z' as int == 0x7a; }
    }
    hide IsSpace;
  }

  lemma TailScan(tail: string)
    requires tail == [',', ' ', 'c']
    ensures NoSplit(tail, Flags(true, false)) && Scan(tail, Flags(true, false)) == Flags(true, false)
  {
    assert tail[1..] == [' ', 'c'] && [' ', 'c'][1..] == ['c'] && ['c'][1..] == "";
    var f := Flags(true, false);
    assert Scan(['c'], f) == f && Scan([' ', 'c'], f) == f;
    assert NoSplit(['c'], f) && NoSplit([' ', 'c'], f);
  }

  lemma PartIs(o: string, part: string)
    requires Trimmed(o) && part == " " + o + ", c"
    ensures Strip(part) == o + ", c"
  {
    assert !IsSpace('c') by { assert 'c' as int == 0x63; }
    assert part == " " + (o + ", c");
    StripTrimmed(o + ", c");
  }

  // ---------- a status overwritten by a pull request ----------

  /** A pull request name with a line separator in it. */
  const STRAY: string := "x\U{2028}status: open"

  lemma StrayLine(line: string)
    requires line == "closing_pr: " + STRAY
    ensures Pieces(line) == ["closing_pr: x", "status: open"]
  {
    var a, b := "closing_pr: x", "status: open";
    assert line == a + ['\U{2028}'] + b;
    assert NoBreaks(a) && NoBreaks(b);
    PiecesOfTwo(a, '\U{2028}', b) by { assert IsBreak('\U{2028}'); }
  }

  lemma {:induction false} PiecesOfTwo(a: string, c: char, b: string)
    requires NoBreaks(a) && NoBreaks(b) && IsBreak(c)
    ensures Pieces(a + [c] + b) == [a, b]
  {
    hide IsBreak;
    var s := a + [c] + b;
    if a == "" {
      assert s[0] == c && s[1..] == b;
      PiecesOfOneLine(b);
    } else {
      assert s[1..] == a[1..] + [c] + b && a[0] in a && a == [a[0]] + a[1..];
      PiecesOfTwo(a[1..], c, b);
      assert [a[1..], b][1..] == [b];
    }
  }

  /** So is a text that starts with x and holds none of the characters that ask for quotes. */
  lemma TextIsBare(s: string)
    requires Trimmed(s) && s[0] == 'x' && '#' !in s && '\n' !in s && '\r' !in s && '\t' !in s
    ensures EmitScalar(Str(s), false) == s
  {
    StripTrimmed(s);
    NotNumber(s, 0) by { assert !NumberChar('x'); }
    assert 'x' !in SIGILS;
    assert s !in ["null", "~", "true", "false"] by {
      assert "null"[0] == 'n' && "true"[0] == 't' && "false"[0] == 'f' && "~"[0] == '~';
    }
    hide Strip, IntText, FloatText, IsSpace, SIGILS, Escape;
  }

  lemma StrayIsBare()
    ensures EmitScalar(Str(STRAY), false) == STRAY
  {
    var s := STRAY;
    var a, b := "x", "status: open";
    assert s == a + ['\U{2028}'] + b;
    assert Trimmed(s) by {
      assert s[0] == 'x' && s[|s| - 1] == 'n' && 'x' as int == 0x78 && 'n' as int == 0x6e;
    }
    assert '#' !in b && '\n' !in b && '\r' !in b && '\t' !in b;
    hide STRAY, Trimmed;
    TextIsBare(s);
  }

  /** One more line, of a printed word. */
  lemma WordRead(py: Numbers, key: string, word: string, fields: Dict<Value>)
    requires KeyOk(key) && Plainly(key) && key !in FLOAT_FIELDS && key !in INT_FIELDS
    requires word != "" && (forall c | c in word :: 'a' <= c <= 'z') && word != "null" && word != "true" && word != "false"
    requires !NumberChar(word[0]) && word[0] !in SIGILS
    ensures ReadField(py, key + ": " + word, fields) == Put(fields, key, Str1(word))
  {
    WordIsBare(word, false);
    KeyAndRestOf(key, word);
    LineNotSkipped(key, word);
    ScalarNotBracketed(py, Str(word));
    ScalarRoundTrip(py, Str(word), false);
    hide KeyOk, EmitScalar, ParseScalar, Skipped, KeyAndRest, Strip, LIST_FIELDS, INT_FIELDS, FLOAT_FIELDS, Put,
      Trimmed;
    assert Strip(word) == word && !Bracketed(word);
  }

  lemma TwoKeys()
    ensures forall key | key == "status" || key == "closing_pr" ::
      KeyOk(key) && Plainly(key) && key !in FLOAT_FIELDS && key !in INT_FIELDS
  {
    assert Word("status") && Word("closing_pr");
    assert "status"[0] == 's' && "closing_pr"[2] == 'o' && |"closing_pr"| == 10 && |"closed_in_round"| == 15;
    assert |"challenges"| == 10 && "challenges"[0] == 'c' && "challenges"[1] == 'h' && "closing_pr"[1] == 'l';
    assert "rounds"[0] == 'r' && "touches"[0] == 't' && "instances"[0] == 'i' && "first_seen_round"[0] == 'f' && "attempts"[0] == 'a';
    assert |"credibility"| == 11;
  }

  lemma TwoLinesRead(py: Numbers, a: string, b: string, d: Dict<Value>)
    ensures ReadFields(py, [a, b], d) == ReadField(py, b, ReadField(py, a, d))
  {
    hide ReadField;
    assert [a, b][1..] == [b] && [b][1..] == [];
    assert ReadFields(py, [b], ReadField(py, a, d)) == ReadFields(py, [], ReadField(py, b, ReadField(py, a, d)));
  }

  lemma ClosingLine()
    ensures FieldLine(Entry(CLOSING, Str1(STRAY))) == "closing_pr" + ": " + STRAY
    ensures Pieces("closing_pr" + ": " + STRAY) == ["closing_pr: x", "status: open"]
  {
    StrayIsBare();
    assert "closing_pr" + ": " == "closing_pr: ";
    StrayLine("closing_pr: " + STRAY);
    hide STRAY, Pieces, EmitScalar;
  }

  /** A need closed by that pull request is open again when it is loaded. */
  lemma StatusOverwritten(py: Numbers)
    ensures StrayStatus(py, STRAY) == Str1("open")
  {
    var d := [Entry(STATUS, CLOSED)];
    assert Get(d, STATUS) == Some(CLOSED);
    ClosingLine();
    hide *;
    TwoLinesRead(py, "closing_pr: x", "status: open", d);
    LinesSetRead(py, STATUS, ["closing_pr: x", "status: open"], d);
    TwoKeys();
    StatusRead(py, d);
    StrayIs(py);
  }

  lemma StrayIs(py: Numbers)
    ensures Some(StrayStatus(py, STRAY)) == LinesSet(py, STATUS, Pieces(FieldLine(Entry(CLOSING, Str1(STRAY)))), Some(CLOSED))
  {
    hide LinesSet, Pieces, FieldLine, STRAY, STATUS, CLOSED, CLOSING;
  }

  lemma StatusRead(py: Numbers, d: Dict<Value>)
    requires forall key | key == "status" || key == "closing_pr" ::
      KeyOk(key) && Plainly(key) && key !in FLOAT_FIELDS && key !in INT_FIELDS
    ensures Get(ReadField(py, "status: open", ReadField(py, "closing_pr: x", d)), STATUS) == Some(Str1("open"))
  {
    hide KeyOk, Plainly, FLOAT_FIELDS, INT_FIELDS, ReadField;
    assert "closing_pr" + ": " + "x" == "closing_pr: x" && "status" + ": " + "open" == "status: open";
    WordRead(py, "closing_pr", "x", d);
    WordRead(py, "status", "open", Put(d, "closing_pr", Str1("x")));
    GetPut(Put(d, "closing_pr", Str1("x")), "status", Str1("open"), "status");
  }

  // ---------- a heading in a body ----------

  const SYMPTOM: string := "Symptom"
  const BODY: string := "x\n## Zed"

  lemma BodyParts()
    ensures Norm(BODY) == BODY && Split(BODY) == ["x", "## Zed"] && Strip(BODY) == BODY
  {
    var s := BODY;
    assert s == "x" + "\n" + "## Zed";
    assert OneLine("x") && OneLine("## Zed");
    SplitLine("x", "## Zed");
    SplitLine("## Zed", "");
    assert Trimmed(s) by {
      assert s[0] == 'x' && s[|s| - 1] == 'd' && 'd' as int == 0x64 && 'x' as int == 0x78;
    }
    StripTrimmed(s);
    NormBetweenBlankLines(s);
  }

  function Bodied(): Dict<string> { [Entry(SYMPTOM, BODY)] }

  function Headed(): Dict<string> { [Entry(SYMPTOM, BODY), Entry("Zed", "")] }

  lemma BodySectionLines()
    ensures SectionLines(Entry(SYMPTOM, BODY)) == ["", "## Symptom", "", "x", "## Zed"]
    ensures SectionLines(Entry("Zed", "")) == ["", "## Zed"]
  {
    BodyParts();
    assert Norm("") == "";
    assert "## " + SYMPTOM == "## Symptom" && "## " + "Zed" == "## Zed";
    hide Norm, Split, BODY;
  }

  lemma BodiedLines()
    ensures AllSectionLines(Bodied()) == ["", "## Symptom", "", "x", "## Zed"]
    ensures AllSectionLines(Headed()) == ["", "## Symptom", "", "x", "## Zed", "", "## Zed"]
  {
    BodySectionLines();
    hide SectionLines, BODY, SYMPTOM;
    var a, b := Entry(SYMPTOM, BODY), Entry("Zed", "");
    assert Bodied() == [a] && Headed() == [a, b];
    assert [a][1..] == [] && [a, b][1..] == [b] && [b][1..] == [];
    assert AllSectionLines([b]) == SectionLines(b) + AllSectionLines([]);
    assert AllSectionLines([a]) == SectionLines(a) + AllSectionLines([]);
    assert AllSectionLines([a, b]) == SectionLines(a) + AllSectionLines([b]);
  }

  lemma {:induction false} OrderedNone<T(!new)>(known: seq<string>, d: Dict<T>)
    requires forall e | e in d :: e.key !in known
    ensures Ordered(known, d) == []
  {
    if known != [] {
      GetIsEntry(d, known[0]);
      OrderedNone(known[1..], d);
    }
  }

  lemma SymptomFirst()
    ensures SECTIONS[0] == SYMPTOM && SYMPTOM !in SECTIONS[1..] && "Zed" !in SECTIONS && "Zed" != SYMPTOM
  {
    assert forall i | 0 <= i < |SECTIONS| :: |SECTIONS[i]| > 3;
    assert forall i | 1 <= i < |SECTIONS| :: SECTIONS[i][0] != 'S';
  }

  lemma OthersOne<T(!new)>(known: seq<string>, e: Entry<T>)
    ensures Others(known, [e]) == if e.key in known then [] else [e]
  {
    assert [e][1..] == [];
    assert Others<T>(known, []) == [];
  }

  lemma OthersTwo<T(!new)>(known: seq<string>, a: Entry<T>, b: Entry<T>)
    requires a.key in known && b.key !in known
    ensures Others(known, [a, b]) == [b]
  {
    assert [a, b][1..] == [b];
    OthersOne(known, b);
    assert [] + [b] == [b];
  }

  /** Symptom is printed first, an unknown name after it. */
  lemma BodiedOrder()
    ensures Reorder(SECTIONS, Bodied()) == Bodied() && Reorder(SECTIONS, Headed()) == Headed()
  {
    SymptomFirst();
    var a, b := Entry(SYMPTOM, BODY), Entry("Zed", "");
    var known := SECTIONS;
    assert known == [SYMPTOM] + known[1..];
    hide SECTIONS, SYMPTOM, BODY, Ordered, Others;
    assert Bodied() == [a] && Headed() == [a, b];
    assert [a][1..] == [] && [a, b][1..] == [b];
    SymptomOrdered(known, [a], a);
    SymptomOrdered(known, [a, b], a);
    OthersOne(known, a);
    OthersTwo(known, a, b);
    assert [a] + [] == [a] && [a] + [b] == [a, b];
  }

  lemma SymptomOrdered(known: seq<string>, d: Dict<string>, a: Entry<string>)
    requires known != [] && d != [] && d[0] == a && known[0] == a.key
    requires (forall e | e in d[1..] :: e.key !in known) && a.key !in known[1..]
    ensures Ordered(known, d) == [a]
  {
    assert forall e | e in d :: e == a || e in d[1..];
    OrderedNone(known[1..], d);
  }

  /** One section read. */
  lemma OneRead(name: string, body: seq<string>, rest: seq<string>, sections: Dict<string>)
    requires NameOk(name) && (forall l | l in body :: !Heading(l)) && (rest == [] || Heading(rest[0]))
    ensures ReadSections(["## " + name] + body + rest, sections)
         == ReadSections(rest, Put(sections, name, Norm(Join(body, "\n"))))
  {
    HeadingOfName(name);
    BodyLengthOf(body, rest);
    hide NameOk, Heading, HeadingName, Norm, Join, Put, BodyLength;
    var lines, n := ["## " + name] + body + rest, |body|;
    assert lines[1..] == body + rest && lines[1..1 + n] == body && lines[1 + n..] == rest;
  }

  lemma BodiedNames()
    ensures NameOk(SYMPTOM) && NameOk("Zed") && "## " + SYMPTOM == "## Symptom" && "## " + "Zed" == "## Zed"
    ensures !Heading("") && !Heading("x") && Heading("## Zed")
  {
  }

  lemma PutBoth()
    ensures Put(Put([], SYMPTOM, "x"), "Zed", "") == [Entry(SYMPTOM, "x"), Entry("Zed", "")]
  {
    SymptomFirst();
    hide SYMPTOM, SECTIONS;
    var d := [Entry(SYMPTOM, "x")];
    assert d[1..] == [] && Put([], SYMPTOM, "x") == d;
  }

  lemma ReadNothing(d: Dict<string>)
    ensures ReadSections([], d) == d
  {
  }

  /** What is read of the printed body: its heading has become a section. */
  lemma BodiedRead()
    ensures ReadSections(["", "## Symptom", "", "x", "## Zed", ""], []) == [Entry(SYMPTOM, "x"), Entry("Zed", "")]
  {
    hide *;
    BodiedNames();
    BodiesRead();
    PutBoth();
    var d := Put([], SYMPTOM, "x");
    OneRead("Zed", [""], [], d);
    OneRead(SYMPTOM, ["", "x"], ["## Zed", ""], []);
    ReadNothing(Put(d, "Zed", ""));
    assert ["## " + "Zed"] + [""] + [] == ["## Zed", ""];
    var lines := ["## " + SYMPTOM] + ["", "x"] + ["## Zed", ""];
    BlankLineSkipped(lines);
    assert [""] + lines == ["", "## Symptom", "", "x", "## Zed", ""];
  }

  lemma BodiesRead()
    ensures Norm(Join(["", "x"], "\n")) == "x" && Norm(Join([""], "\n")) == ""
  {
    assert ["", "x"][1..] == ["x"] && Join(["", "x"], "\n") == "\n" + "x";
    assert IsNorm("x") by { assert 'x' as int == 0x78; }
    var s := "\n" + "x";
    assert RTrimLines(s) == s && s[1..] == "x" && LTrimLines(s) == LTrimLines("x") == "x";
    hide IsSpace;
    assert RStrip("x") == "x";
  }

  lemma BodiedBack(n: Need)
    requires n.sections == Bodied() || n.sections == Headed()
    ensures n.sections == Bodied() ==> BackText(n) == Join(["", "## Symptom", "", "x", "## Zed"], "\n") + "\n"
    ensures n.sections == Headed() ==>
      BackText(n) == Join(["", "## Symptom", "", "x", "## Zed", "", "## Zed"], "\n") + "\n"
  {
    BodiedOrder();
    BodiedLines();
    hide Reorder, SECTIONS, AllSectionLines, Join, BODY, SYMPTOM, Bodied, Headed;
  }

  lemma BodiedSplit()
    ensures Split(Newlines(Join(["", "## Symptom", "", "x", "## Zed"], "\n") + "\n"))
         == ["", "## Symptom", "", "x", "## Zed", ""]
  {
    var lines := ["", "## Symptom", "", "x", "## Zed"];
    forall l | l in lines ensures OneLine(l) && '\r' !in l {
    }
    hide OneLine, Split, Newlines, Join;
    JoinChars(lines, '\r');
    NewlinesHasNoReturn(Join(lines, "\n") + "\n");
    SplitPrinted(lines);
    assert lines + [""] == ["", "## Symptom", "", "x", "## Zed", ""];
  }

  /** The texts end differently. */
  lemma EndsDiffer(a: string, b: string)
    ensures a + (Join(["", "## Symptom", "", "x", "## Zed"], "\n") + "\n")
         != b + (Join(["", "## Symptom", "", "x", "## Zed", "", "## Zed"], "\n") + "\n")
  {
    var p, z := ["", "## Symptom", ""], "## Zed";
    assert ["", "## Symptom", "", "x", "## Zed"] == p + ["x", z];
    assert ["", "## Symptom", "", "x", "## Zed", "", "## Zed"] == (p + ["x", z]) + ["", z];
    JoinAppend(p, ["x", z]);
    JoinAppend(p + ["x", z], ["", z]);
    assert ["x", z][1..] == [z] && ["", z][1..] == [z];
    var u, v := Join(p, "\n") + "\n", Join(p + ["x", z], "\n") + "\n";
    assert Join(["x", z], "\n") == "x\n## Zed" && Join(["", z], "\n") == "\n## Zed";
    hide Join;
    var s, t := a + (u + "x\n## Zed" + "\n"), b + (v + "\n## Zed" + "\n");
    assert s[|s| - 9] == 'x';
    assert t[|t| - 9] == '\n';
  }

  lemma SectionsMerged()
    ensures MergeSections(Bodied(), [Entry(SYMPTOM, "x"), Entry("Zed", "")]) == Headed()
  {
    BodyParts();
    hide SYMPTOM, BODY, Strip;
    assert Bodied()[1..] == [];
    var d := [Entry(SYMPTOM, "x"), Entry("Zed", "")];
    assert BODY != "" by { BodySome(); }
    assert Put(d, SYMPTOM, BODY) == [Entry(SYMPTOM, BODY)] + d[1..];
    assert MergeSections([], Headed()) == Headed();
  }

  lemma BodySome()
    ensures BODY != ""
  {
  }

  lemma NewFront(env: Env, f: Need)
    requires Lawful(env.py) && Shaped(env.py, f) && (forall x | x in f.fields :: Clean(x.value))
    requires IdOk(Get(FillUp(DEFAULTS, f.fields), ID))
    ensures FrontOk(Reorder(FIELDS, FillUp(DEFAULTS, f.fields))) && FillUp(DEFAULTS, f.fields) != []
  {
    var d := FillUp(DEFAULTS, f.fields);
    assert env.py.canon("0.0") == "0.0";
    hide Lawful, IdOk, ID, EntriesOk, FillUp, DEFAULTS, Distinct, FiniteValue, Clean, StoredScalar, LineOk, FieldOk,
      NameOk, FIELDS, Reorder;
    ShapedEntries(env, f);
    DefaultsOk(env);
    FilledEntries(env, StoredScalar(env.py), f.fields);
    EntriesLegible(env, d);
    forall x | x in d ensures LineOk(x) {
      FieldOkLine(env.py, x);
    }
    ReorderedFront(d);
    IdIsOne(d);
    GetIsEntry(d, ID);
  }

  /** A new need whose Symptom holds the line "## Zed" is filed: the line is read back as a section of its own,
      which a second filing of the same need adds to the file. */
  lemma HeadingFiledTwice(env: Env, f: Need)
    requires Lawful(env.py) && Shaped(env.py, f) && (forall x | x in f.fields :: Clean(x.value))
    requires f.sections == [Entry("Symptom", "x\n## Zed")] && Upsert(env, map[], f).Ok?
    ensures var once := Upsert(env, map[], f).value; Upsert(env, once, f) != Ok(once)
  {
    UpsertOk(env, map[], f);
    var r, id := Kept(env, map[], f), FileName(env, f.fields);
    var once := Upsert(env, map[], f).value;
    assert f.sections == Bodied();
    assert r == Need(FillUp(DEFAULTS, f.fields), Bodied()) && once == map[id := Render(r)] && once[id] == Render(r);
    NewFront(env, f);
    hide *;
    BodiedBack(r);
    FrontParses(env.py, id, r);
    BodiedSplit();
    BodiedRead();
    HeadingAgain(env, once, id, f, r, Named(ReadBacks(env.py, Reorder(FIELDS, r.fields)), id));
  }

  lemma HeadingAgain(env: Env, once: Store, id: string, f: Need, r: Need, fields: Dict<Value>)
    requires id == FileName(env, f.fields) && id in once && once[id] == Render(r)
    requires f.sections == Bodied() && r.sections == Bodied()
    requires Parse(env.py, id, once[id]) == Parsed(Need(fields, [Entry(SYMPTOM, "x"), Entry("Zed", "")]))
    ensures Upsert(env, once, f) != Ok(once)
  {
    hide Parse, Render, FileName, Valid, MergeFields, MergeSections, SYMPTOM, Bodied, Headed;
    SectionsMerged();
    var m := MergeFields(env, fields, f.fields, fields);
    if Upsert(env, once, f).Ok? {
      var again := Need(m.value, Headed());
      assert Upsert(env, once, f) == Ok(once[id := Render(again)]);
      assert once[id := Render(again)][id] == Render(again);
      BodiedBack(r);
      BodiedBack(again);
      RenderParts(r);
      RenderParts(again);
      EndsDiffer(Join(FrontLines(r), "\n") + "\n", Join(FrontLines(again), "\n") + "\n");
    }
  }
}
