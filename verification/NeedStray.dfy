/** What a closed need is loaded with, whatever its pull request is called: scripts/repipe/needs.py prints
    closing_pr after status and escapes only some line breaks in it, so the rest of its line can be read as a
    field of its own. */
module NeedStray {
  import opened NeedValues
  import opened NeedText
  import opened NeedRecord
  import opened NeedRoundTrip
  import opened NeedParsed
  import opened NeedBacklog
  import opened NeedMerge
  import opened NeedAcceptance

  // ---------- the last line that sets a field ----------

  function LineSets(py: Numbers, key: string, line: string, was: Option<Value>): (r: Option<Value>)
    ensures was.Some? ==> r.Some?
  {
    if Skipped(line) then was
    else
      var kv := KeyAndRest(line);
      if kv.None? || kv.value.0 != key then was else Some(Coerce(py, key, ParseValue(py, kv.value.1)))
  }

  /** What the lines make of one field. */
  function LinesSet(py: Numbers, key: string, lines: seq<string>, was: Option<Value>): (r: Option<Value>)
    ensures was.Some? ==> r.Some?
    decreases |lines|
  {
    if lines == [] then was else LinesSet(py, key, lines[1..], LineSets(py, key, lines[0], was))
  }

  lemma LineSetsRead(py: Numbers, key: string, line: string, d: Dict<Value>)
    ensures Get(ReadField(py, line, d), key) == LineSets(py, key, line, Get(d, key))
  {
    hide Skipped, KeyAndRest, Coerce, ParseValue;
    if !Skipped(line) && KeyAndRest(line).Some? {
      var k, v := KeyAndRest(line).value.0, Coerce(py, KeyAndRest(line).value.0, ParseValue(py, KeyAndRest(line).value.1));
      GetPut(d, k, v, key);
    }
  }

  lemma {:induction false} LinesSetRead(py: Numbers, key: string, lines: seq<string>, d: Dict<Value>)
    ensures Get(ReadFields(py, lines, d), key) == LinesSet(py, key, lines, Get(d, key))
    decreases |lines|
  {
    hide ReadField, LineSets;
    if lines != [] {
      LineSetsRead(py, key, lines[0], d);
      LinesSetRead(py, key, lines[1..], ReadField(py, lines[0], d));
    }
  }

  lemma {:induction false} LinesSetAppend(py: Numbers, key: string, a: seq<string>, b: seq<string>, was: Option<Value>)
    ensures LinesSet(py, key, a + b, was) == LinesSet(py, key, b, LinesSet(py, key, a, was))
    decreases |a|
  {
    hide LineSets;
    if a == [] {
      assert a + b == b;
    } else {
      assert (a + b)[1..] == a[1..] + b;
      LinesSetAppend(py, key, a[1..], b, LineSets(py, key, a[0], was));
    }
  }

  lemma FieldLineSets(py: Numbers, key: string, x: Entry<Value>, was: Option<Value>)
    requires LineOk(x)
    ensures LineSets(py, key, FieldLine(x), was) == if x.key == key then Some(ReadBack(py, x).value) else was
  {
    hide KeyOk, EmitValue, ParseValue, Coerce, Skipped, KeyAndRest, Trimmed, NoBreaks;
    KeyAndRestOf(x.key, EmitValue(x.value));
    LineNotSkipped(x.key, EmitValue(x.value));
  }

  /** Whole lines set a field to what is read back for it. */
  lemma {:induction false} FieldLinesSet(py: Numbers, key: string, d: Dict<Value>, was: Option<Value>)
    requires FrontOk(d)
    ensures LinesSet(py, key, FieldLines(d), was) ==
      match Get(d, key) case None => was case Some(v) => Some(ReadBack(py, Entry(key, v)).value)
    decreases |d|
  {
    hide LineOk, ReadBack, FieldLine, LineSets;
    if d != [] {
      var x := d[0];
      assert x in d;
      FieldLineSets(py, key, x, was);
      assert FieldLines(d)[1..] == FieldLines(d[1..]);
      FrontOkParts(d);
      FieldLinesSet(py, key, d[1..], LineSets(py, key, FieldLine(x), was));
      GetIsEntry(d[1..], key);
    }
  }

  // ---------- the printed order ----------

  lemma Joined<T>(a: Dict<T>, b: Dict<T>, c: Dict<T>)
    ensures a + (b + c) == (a + b) + c
  {
  }

  lemma {:induction false} OrderedAppend<T(!new)>(a: seq<string>, b: seq<string>, d: Dict<T>)
    ensures Ordered(a + b, d) == Ordered(a, d) + Ordered(b, d)
  {
    hide Get;
    if a == [] {
      assert a + b == b;
      assert [] + Ordered(b, d) == Ordered(b, d);
    } else {
      assert (a + b)[1..] == a[1..] + b && (a + b)[0] == a[0];
      OrderedAppend(a[1..], b, d);
      var first := match Get(d, a[0]) case Some(v) => [Entry(a[0], v)] case None => [];
      Joined(first, Ordered(a[1..], d), Ordered(b, d));
    }
  }

  lemma {:induction false} FieldLinesAppend(a: Dict<Value>, b: Dict<Value>)
    ensures FieldLines(a + b) == FieldLines(a) + FieldLines(b)
  {
    hide FieldLine;
    if a == [] {
      assert a + b == b;
    } else {
      assert (a + b)[1..] == a[1..] + b;
      FieldLinesAppend(a[1..], b);
    }
  }

  lemma {:induction false} AllPiecesAppend(a: seq<string>, b: seq<string>)
    ensures AllPieces(a + b) == AllPieces(a) + AllPieces(b)
  {
    hide Pieces;
    if a == [] {
      assert a + b == b;
    } else {
      assert (a + b)[1..] == a[1..] + b;
      AllPiecesAppend(a[1..], b);
    }
  }

  const BEFORE: seq<string> := FIELDS[..20]
  const LAST: string := "reject_reason"

  /** closing_pr stands between the status and the last of the known fields. */
  lemma FieldOrder()
    ensures FIELDS == BEFORE + [CLOSING] + [LAST] && STATUS in BEFORE && CLOSING !in BEFORE
    ensures CLOSING != LAST && STATUS != LAST && STATUS != CLOSING
  {
    assert FIELDS[20] == CLOSING && FIELDS[21] == LAST && |FIELDS| == 22 && BEFORE[3] == STATUS;
    assert CLOSING[0] == 'c' && LAST[0] == 'r' && STATUS[0] == 's';
    KnownFields();
    forall i | 0 <= i < |BEFORE| ensures BEFORE[i] != CLOSING {
      assert FIELDS[i] == BEFORE[i];
    }
  }

  lemma BeforeApart()
    ensures NoRepeats(BEFORE)
  {
    KnownFields();
    var known := FIELDS;
    assert BEFORE == known[..20] && |known| == 22;
    hide FIELDS, BEFORE;
    forall i, j | 0 <= i < j < |BEFORE| ensures BEFORE[i] != BEFORE[j] {
      assert known[i] == BEFORE[i] && known[j] == BEFORE[j];
    }
  }

  function Until(d: Dict<Value>): Dict<Value> { Ordered(BEFORE, d) }

  function From(d: Dict<Value>): Dict<Value> { Ordered([LAST], d) + Others(FIELDS, d) }

  lemma PrintedOrder(d: Dict<Value>, v: Value)
    requires Get(d, CLOSING) == Some(v)
    ensures Reorder(FIELDS, d) == Until(d) + [Entry(CLOSING, v)] + From(d)
  {
    FieldOrder();
    hide FIELDS, BEFORE, LAST, CLOSING, Others;
    OrderedAppend(BEFORE + [CLOSING], [LAST], d);
    OrderedAppend(BEFORE, [CLOSING], d);
    assert [CLOSING][1..] == [];
    assert Ordered([CLOSING], d) == [Entry(CLOSING, v)] + Ordered([], d);
  }

  /** The status is printed before closing_pr, and nothing after it is a status. */
  lemma StatusBefore(d: Dict<Value>)
    requires Distinct(d)
    ensures Distinct(Until(d)) && Distinct(From(d))
    ensures Get(Until(d), STATUS) == Get(d, STATUS) && Get(From(d), STATUS) == None
    ensures (forall x | x in Until(d) :: x in d && x.key != CLOSING) && (forall x | x in From(d) :: x in d && x.key != CLOSING)
  {
    FieldOrder();
    BeforeApart();
    hide FIELDS, BEFORE, LAST, CLOSING, STATUS, Ordered, Others;
    assert CLOSING in FIELDS && STATUS in FIELDS && LAST in FIELDS;
    OrderedAre(BEFORE, d);
    OrderedAre([LAST], d);
    OthersAre(FIELDS, d);
    var a, b := Ordered([LAST], d), Others(FIELDS, d);
    forall i, j | 0 <= i < |a| && 0 <= j < |b| ensures a[i].key != b[j].key {
      assert a[i] in a && b[j] in b;
    }
    GetIsEntry(d, STATUS);
    GetIsEntry(Until(d), STATUS);
    GetIsEntry(From(d), STATUS);
  }

  // ---------- a front with one stray line ----------

  predicate LineKept(l: string) { OneLine(l) && '\r' !in l && !StartsFence(l) }

  lemma {:induction false} EscapedKept(s: string)
    ensures '\n' !in EscapeChars(s) && '\r' !in EscapeChars(s)
  {
    if s != "" {
      EscapedKept(s[1..]);
      assert '\n' !in EscapeChar(s[0]) && '\r' !in EscapeChar(s[0]);
    }
  }

  lemma EmittedKept(pr: string)
    ensures var text := EmitScalar(Str(pr), false); '\n' !in text && '\r' !in text
  {
    if MustQuote(pr, false) {
      EscapeIsCharwise(pr);
      EscapedKept(pr);
      hide MustQuote, Escape;
    } else {
      hide Strip, IntText, FloatText;
    }
  }

  /** The line of closing_pr is one line of the file, whatever it holds. */
  lemma StrayKept(pr: string)
    ensures LineKept(FieldLine(Entry(CLOSING, Str1(pr))))
  {
    EmittedKept(pr);
    hide EmitScalar;
    var text := EmitScalar(Str(pr), false);
    var line := CLOSING + ": " + text;
    assert line[0] == 'c' && FENCE[0] == '-';
    assert '\n' !in CLOSING && '\r' !in CLOSING;
    assert '\n' !in ": " && '\r' !in ": ";
  }

  lemma FrontCut(py: Numbers, stem: string, n: Need)
    requires n.fields != [] && forall l | l in FieldLines(Reorder(FIELDS, n.fields)) :: LineKept(l)
    ensures var r := Parse(py, stem, Render(n));
      r.Parsed? && r.need.fields == Named(ReadFields(py, AllPieces(FieldLines(Reorder(FIELDS, n.fields))), []), stem)
  {
    var front := FieldLines(Reorder(FIELDS, n.fields));
    assert forall l | l in front :: OneLine(l) && '\r' !in l && !StartsFence(l);
    hide *;
    ReorderSome(FIELDS, n.fields);
    FieldLinesSome(Reorder(FIELDS, n.fields));
    FrontLinesAre(n);
    EmptyOneLine();
    forall l | l in FrontLines(n) ensures OneLine(l) && '\r' !in l {
      assert l == FENCE || l in front;
    }
    RenderParts(n);
    var text := Join(FrontLines(n), "\n") + "\n";
    JoinChars(FrontLines(n), '\r');
    assert '\r' !in text;
    NewlinesAfter(text, BackText(n));
    SplitPrefix(FrontLines(n), Newlines(BackText(n)));
    var rest := Split(Newlines(BackText(n)));
    FenceLines(front, rest);
    ParseIs(py, stem, Render(n), [FENCE] + front + [FENCE] + rest, 1 + |front|);
  }

  lemma FieldLinesSome(d: Dict<Value>)
    requires d != []
    ensures FieldLines(d) != []
  {
    hide FieldLine;
  }

  lemma NamedKeeps(fields: Dict<Value>, stem: string)
    ensures Get(Named(fields, stem), STATUS) == Get(fields, STATUS)
  {
    assert STATUS[0] == 's' && ID[0] == 'n';
    hide Truthy, ID, STATUS;
    GetPut(fields, ID, One(Str(stem)), STATUS);
  }

  /** The status that is read from a closed status followed by the line of closing_pr. */
  function StrayStatus(py: Numbers, pr: string): Value {
    LinesSet(py, STATUS, Pieces(FieldLine(Entry(CLOSING, Str1(pr)))), Some(CLOSED)).value
  }

  lemma MiddleLines(a: Dict<Value>, x: Entry<Value>, b: Dict<Value>)
    ensures FieldLines(a + [x] + b) == FieldLines(a) + [FieldLine(x)] + FieldLines(b)
  {
    hide FieldLine;
    FieldLinesAppend(a + [x], b);
    FieldLinesAppend(a, [x]);
    assert [x][1..] == [];
    assert FieldLines([x]) == [FieldLine(x)] + FieldLines([]);
  }

  lemma MiddlePieces(a: seq<string>, l: string, b: seq<string>)
    ensures AllPieces(a + [l] + b) == AllPieces(a) + Pieces(l) + AllPieces(b)
  {
    hide Pieces;
    AllPiecesAppend(a + [l], b);
    AllPiecesAppend(a, [l]);
    assert [l][1..] == [];
    assert AllPieces([l]) == Pieces(l) + AllPieces([]);
  }

  /** The lines of a dictionary with that line in its middle. */
  lemma StrayRead(py: Numbers, a: Dict<Value>, x: Entry<Value>, b: Dict<Value>)
    requires FrontOk(a) && FrontOk(b) && Get(a, STATUS) == Some(CLOSED) && Get(b, STATUS) == None
    ensures LinesSet(py, STATUS, AllPieces(FieldLines(a + [x] + b)), None)
         == LinesSet(py, STATUS, Pieces(FieldLine(x)), Some(CLOSED))
    ensures forall l | l in FieldLines(a + [x] + b) :: l == FieldLine(x) || LineKept(l)
  {
    hide LineOk, FieldLine, ReadBack, STATUS, CLOSED, LinesSet, Pieces, AllPieces, FieldLines, Get;
    FieldLinesWhole(a);
    FieldLinesWhole(b);
    hide FrontOk;
    FieldLinesSet(py, STATUS, a, None);
    FieldLinesSet(py, STATUS, b, LinesSet(py, STATUS, Pieces(FieldLine(x)), Some(CLOSED)));
    StatusReads(py, CLOSED);
    MiddleLines(a, x, b);
    MiddlePieces(FieldLines(a), FieldLine(x), FieldLines(b));
    LinesSetAppend(py, STATUS, FieldLines(a) + Pieces(FieldLine(x)), FieldLines(b), None);
    LinesSetAppend(py, STATUS, FieldLines(a), Pieces(FieldLine(x)), None);
  }

  /** A closed record, read back from its file. */
  lemma StrayFront(env: Env, id: string, r: Need, pr: string)
    requires EntriesOk(env, FileScalar(env.py, CLOSING), r.fields) && IdOk(Get(r.fields, ID))
    requires Get(r.fields, STATUS) == Some(CLOSED) && Get(r.fields, CLOSING) == Some(Str1(pr))
    ensures var p := Parse(env.py, id, Render(r)); p.Parsed? && StatusOf(p.need) == StrayStatus(env.py, pr)
  {
    var d := r.fields;
    var x := Entry(CLOSING, Str1(pr));
    StatusBefore(d);
    PrintedOrder(d, Str1(pr));
    forall y | y in Until(d) || y in From(d) ensures LineOk(y) {
      FileLine(env, d, y, CLOSING);
    }
    assert FrontOk(Until(d)) && FrontOk(From(d));
    StrayRead(env.py, Until(d), x, From(d));
    StrayKept(pr);
    var front := Reorder(FIELDS, d);
    hide *;
    LinesSetRead(env.py, STATUS, AllPieces(FieldLines(front)), []);
    GetNothing(STATUS);
    FrontCut(env.py, id, r) by { SomeField(d, CLOSING); }
    NamedKeeps(ReadFields(env.py, AllPieces(FieldLines(front)), []), id);
    StatusIs(Parse(env.py, id, Render(r)).need, env.py, pr);
  }

  lemma GetNothing(key: string)
    ensures Get<Value>([], key) == None
  {
  }

  lemma SomeField(d: Dict<Value>, key: string)
    requires Get(d, key).Some?
    ensures d != []
  {
  }

  lemma StatusIs(n: Need, py: Numbers, pr: string)
    requires Get(n.fields, STATUS) == LinesSet(py, STATUS, Pieces(FieldLine(Entry(CLOSING, Str1(pr)))), Some(CLOSED))
    ensures StatusOf(n) == StrayStatus(py, pr)
  {
    hide LinesSet, Pieces, FieldLine, DEFAULTS, STATUS, CLOSED, CLOSING;
  }

  lemma ClosingFiled(env: Env, n: Need, suite: Suite)
    requires suite.closingPr != ""
    ensures Get(ClosedRecord(env, n, suite).fields, CLOSING) == Some(Str1(suite.closingPr))
  {
    hide CLOSING, STATUS, CLOSED, Strip, RStrip, AcceptanceName;
    var f0 := Put(n.fields, STATUS, CLOSED);
    var f1 := if suite.round.Some? then Put(f0, "closed_in_round", One(Int(suite.round.value))) else f0;
    GetPut(f1, CLOSING, Str1(suite.closingPr), CLOSING);
  }

  lemma ClosingIsKept(env: Env, store: Store, id: string, suite: Suite)
    requires Lawful(env.py) && Load(env, store, id).Found? && FileName(env, Load(env, store, id).need.fields) == id
    requires suite.closingPr != "" && Upsert(env, store, ClosedRecord(env, Load(env, store, id).need, suite)).Ok?
    ensures var r := Kept(env, store, ClosedRecord(env, Load(env, store, id).need, suite));
      Get(r.fields, CLOSING) == Some(Str1(suite.closingPr))
  {
    var e := Load(env, store, id).need;
    var f := ClosedRecord(env, e, suite);
    var pr := Str1(suite.closingPr);
    ClosingFiled(env, e, suite);
    LoadedFields(env, store, id, CLOSING);
    assert Edited(env, e, suite, Closed) == f;
    EditedFields(env, e, suite, Closed, CLOSING);
    ThreeKeys(env, pr);
    ClosingPlain();
    UpsertOk(env, store, f);
    SameName(env, f.fields, e.fields);
    hide ClosedRecord, Edited, EntryOk, FileScalar, ID, STATUS, CLOSED, CLOSING, Render, MergeField, MergeFields,
      MergeSections, Lawful, Valid, IdOk, DEFAULTS, FileName, Load, Write, Distinct, Coerce, Plainly, Str1;
    Merged(env, e.fields, f.fields);
    MergePlain(env, CLOSING, Get(e.fields, CLOSING), pr) by { NotNull(suite.closingPr); }
    assert After(env, e.fields, f.fields, CLOSING) == Ok(Get(Kept(env, store, f).fields, CLOSING));
    NotNull(suite.closingPr);
  }

  lemma NotNull(s: string)
    ensures Str1(s) != One(Null)
  {
  }

  lemma ClosingPlain()
    ensures Plainly(CLOSING)
  {
  }

  /** Main result: after a closing by any pull request the need is loaded with the status that is read from the
      closed status and the line of closing_pr. So it is loaded as closed exactly when that line sets none,
      or closed again. */
  lemma ClosedIsLoaded(env: Env, store: Store, id: string, suite: Suite)
    requires Lawful(env.py) && Load(env, store, id).Found? && FileName(env, Load(env, store, id).need.fields) == id
    requires suite.closingPr != "" && Upsert(env, store, ClosedRecord(env, Load(env, store, id).need, suite)).Ok?
    ensures var s := Upsert(env, store, ClosedRecord(env, Load(env, store, id).need, suite)).value;
      Load(env, s, id).Found? && StatusAt(env, s, id) == StrayStatus(env.py, suite.closingPr)
  {
    var f := ClosedRecord(env, Load(env, store, id).need, suite);
    assert Edited(env, Load(env, store, id).need, suite, Closed) == f;
    hide *;
    EditedIsKept(env, store, id, suite, Closed, CLOSING);
    ClosingIsKept(env, store, id, suite);
    var r := Kept(env, store, f);
    StrayFront(env, id, r, suite.closingPr);
    LoadWritten(env, store, id, Render(r));
    StatusAtIs(env, Upsert(env, store, f).value, id);
  }

  lemma StatusAtIs(env: Env, s: Store, id: string)
    requires Load(env, s, id).Found?
    ensures StatusAt(env, s, id) == StatusOf(Load(env, s, id).need)
  {
  }

  /** A name without exotic line breaks sets none. */
  lemma CleanIsClosed(py: Numbers, pr: string)
    requires CleanScalar(Str(pr))
    ensures StrayStatus(py, pr) == CLOSED
  {
    var x := Entry(CLOSING, Str1(pr));
    ValueLine(py, x.value);
    assert KeyOk(CLOSING) && CLOSING != STATUS by { ClosingKey(); }
    hide KeyOk, EmitValue, NoBreaks, Trimmed, CLOSED, CLOSING, STATUS, CleanScalar;
    assert LineOk(x);
    FieldLineNoBreaks(x);
    PiecesOfOneLine(FieldLine(x));
    hide LineOk, FieldLine, ReadBack, LineSets, Pieces;
    FieldLineSets(py, STATUS, x, Some(CLOSED)) by { assert LineOk(x); }
    assert [FieldLine(x)][1..] == [];
    assert LinesSet(py, STATUS, [FieldLine(x)], Some(CLOSED)) == LineSets(py, STATUS, FieldLine(x), Some(CLOSED));
  }

  lemma ClosingKey()
    ensures KeyOk(CLOSING) && CLOSING != STATUS
  {
    assert Word("closing_pr");
    assert CLOSING[0] == 'c' && STATUS[0] == 's';
  }
}
