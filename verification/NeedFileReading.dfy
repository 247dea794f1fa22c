/** What scripts/repipe/needs.py reads out of a file that anyone may have written, in literal terms: the front matter
    and the text of each section, the lines that set a field, and the types of the fields. Nothing here supposes that
    the printer wrote the file. */
module NeedFileReading {
  import opened NeedValues
  import opened NeedText
  import opened NeedRecord
  import opened NeedRoundTrip
  import opened NeedParsed
  import opened NeedReading

  // ---------- white space and line breaks ----------

  /** The characters that strip() removes and those that splitlines() breaks at, one by one. */
  lemma CharactersAre(c: char)
    ensures IsSpace(c) <==> c as int in {9, 10, 11, 12, 13, 28, 29, 30, 31, 32, 0x85, 0xa0, 0x1680, 0x2000, 0x2001, 0x2002,
      0x2003, 0x2004, 0x2005, 0x2006, 0x2007, 0x2008, 0x2009, 0x200a, 0x2028, 0x2029, 0x202f, 0x205f, 0x3000}
    ensures IsBreak(c) <==> c as int in {10, 11, 12, 13, 28, 29, 30, 0x85, 0x2028, 0x2029}
  {
  }

  lemma PiecesCons(s: string)
    requires s != ""
    ensures Pieces(s) == if IsBreak(s[0]) then [""] + Pieces(s[1..]) else OntoFirst(s[0], Pieces(s[1..]))
  {
  }

  /** A line of the front matter is cut once more at every line break there is. */
  lemma {:induction false} LineCut(l: string, c: char, rest: string)
    requires (forall d | d in l :: !IsBreak(d)) && IsBreak(c)
    ensures Pieces(l) == [l] && Pieces(l + [c] + rest) == [l] + Pieces(rest)
  {
    hide IsBreak, Pieces;
    if l == "" {
      NoPieces();
      assert l + [c] + rest == [c] + rest && ([c] + rest)[1..] == rest;
      PiecesCons([c] + rest);
    } else {
      assert l[0] in l && forall d | d in l[1..] :: d in l;
      LineCut(l[1..], c, rest);
      assert (l + [c] + rest)[1..] == l[1..] + [c] + rest && (l + [c] + rest)[0] == l[0];
      PiecesCons(l);
      PiecesCons(l + [c] + rest);
      assert [l[0]] + l[1..] == l;
      assert ([l[1..]] + Pieces(rest))[1..] == Pieces(rest);
    }
  }

  lemma NoPieces()
    ensures Pieces("") == [""]
  {
  }

  // ---------- a line of the front matter ----------

  /** The name of a field: letters, digits, underscores and dashes, not starting with a digit or a dash. */
  predicate FieldName(k: string) {
    && k != ""
    && (forall c | c in k :: 'A' <= c <= 'Z' || 'a' <= c <= 'z' || '0' <= c <= '9' || c == '_' || c == '-')
    && !('0' <= k[0] <= '9') && k[0] != '-'
  }

  predicate Blanks(s: string) { forall c | c in s :: c == ' ' || c == '\t' }

  /** line is the name k, a colon, and then nothing, or at least one blank and the value v. */
  ghost predicate Sets(line: string, k: string, v: string) {
    FieldName(k) &&
    ((line == k + ":" && v == "") ||
     exists gap :: gap != "" && Blanks(gap) && line == k + ":" + gap + v && (v == "" || (v[0] != ' ' && v[0] != '\t')))
  }

  lemma {:induction false} DropBlanksIs(gap: string, v: string)
    requires Blanks(gap) && (v == "" || (v[0] != ' ' && v[0] != '\t'))
    ensures DropBlanks(gap + v) == v
  {
    if gap == "" {
      assert gap + v == v;
    } else {
      assert gap[0] in gap && (gap + v)[1..] == gap[1..] + v;
      assert forall c | c in gap[1..] :: c in gap;
      DropBlanksIs(gap[1..], v);
    }
  }

  lemma {:induction false} DroppedBlanks(s: string) returns (gap: string)
    ensures s == gap + DropBlanks(s) && Blanks(gap)
    ensures s != "" && Blank(s[0]) ==> gap != ""
    ensures DropBlanks(s) == "" || !Blank(DropBlanks(s)[0])
  {
    gap := "";
    if s != "" && Blank(s[0]) {
      var more := DroppedBlanks(s[1..]);
      gap := [s[0]] + more;
    }
  }

  lemma SetsIsRead(line: string, k: string, v: string)
    requires Sets(line, k, v)
    ensures KeyAndRest(line) == Some((k, v))
  {
    if line == k + ":" && v == "" {
      NameEnds(k, "");
      assert k + ":" + "" == line;
    } else {
      var gap :| gap != "" && Blanks(gap) && line == k + ":" + gap + v && (v == "" || (v[0] != ' ' && v[0] != '\t'));
      assert k + ":" + (gap + v) == line;
      assert gap[0] in gap && (gap + v)[0] == gap[0];
      NameEnds(k, gap + v);
      DropBlanksIs(gap, v);
    }
    hide KeyLength, DropBlanks, FieldName, KeyStart;
  }

  lemma NameEnds(k: string, rest: string)
    requires FieldName(k)
    ensures var line := k + ":" + rest;
      && KeyLength(line) == |k| && line[..|k|] == k && line[|k|] == ':' && line[|k| + 1..] == rest && KeyStart(line[0])
      && (rest != "" ==> line[|k| + 1] == rest[0])
  {
    assert k[0] in k;
    KeyLengthOf(k, rest);
    hide KeyLength;
  }

  /** A line sets a field exactly when it has that form. */
  lemma FieldLineIs(line: string, k: string, v: string)
    ensures KeyAndRest(line) == Some((k, v)) <==> Sets(line, k, v)
  {
    if Sets(line, k, v) {
      SetsIsRead(line, k, v);
    }
    if KeyAndRest(line) == Some((k, v)) {
      var n := KeyLength(line);
      KeyLengthChars(line);
      assert k == line[..n] && k[0] == line[0];
      if n + 1 == |line| {
        assert line == k + ":";
      } else {
        var gap := DroppedBlanks(line[n + 1..]);
        assert line == k + ":" + gap + v;
      }
    }
  }

  lemma {:induction false} LStripFront(s: string) returns (a: string)
    ensures s == a + LStrip(s) && Spaces(a)
  {
    a := "";
    if s != "" && IsSpace(s[0]) {
      var more := LStripFront(s[1..]);
      a := [s[0]] + more;
    }
  }

  /** Blank lines, and lines whose first visible character is #, say nothing. */
  lemma SkippedAre(line: string)
    ensures Skipped(line) <==> Spaces(line) || exists a, rest :: Spaces(a) && line == a + "#" + rest
  {
    BlankIsSpaces(line);
    hide Strip, LStrip, Spaces, IsSpace;
    if Skipped(line) && Strip(line) != "" {
      var a := LStripFront(line);
      var t := LStrip(line);
      assert t == "#" + t[1..] && line == a + "#" + t[1..];
    }
    if exists a, rest :: Spaces(a) && line == a + "#" + rest {
      var a, rest :| Spaces(a) && line == a + "#" + rest;
      HashFirst(a, rest);
    }
  }

  lemma HashFirst(a: string, rest: string)
    requires Spaces(a)
    ensures LStrip(a + "#" + rest) == "#" + rest
  {
    assert a + "#" + rest == a + ("#" + rest);
    hide Spaces;
    LStripAfter(a, "#" + rest);
    HashIsNoSpace();
  }

  lemma HashIsNoSpace()
    ensures !IsSpace('#')
  {
  }

  lemma SettingIsNotSkipped(line: string, k: string, v: string)
    requires Sets(line, k, v)
    ensures !Skipped(line)
  {
    assert k[0] in k && line[0] == k[0] && k[0] != '#';
    assert !IsSpace(k[0]);
    hide IsSpace, Skipped, Sets, FieldName;
    SkippedAre(line);
    assert line[0] in line;
    forall a, rest | Spaces(a) ensures line != a + "#" + rest {
      if a == "" {
        assert (a + "#" + rest)[0] == '#';
      } else {
        assert a[0] in a && (a + "#" + rest)[0] == a[0];
      }
    }
  }

  lemma {:induction false} ReadFieldsAppend(py: Numbers, a: seq<string>, b: seq<string>, d: Dict<Value>)
    ensures ReadFields(py, a + b, d) == ReadFields(py, b, ReadFields(py, a, d))
    decreases |a|
  {
    hide ReadField;
    if a == [] {
      assert a + b == b;
    } else {
      assert (a + b)[1..] == a[1..] + b;
      ReadFieldsAppend(py, a[1..], b, ReadField(py, a[0], d));
    }
  }

  /** Main result: a line that sets k gives k its value and leaves the other fields; any other line leaves all. */
  lemma LineIsRead(py: Numbers, lines: seq<string>, line: string, d: Dict<Value>, other: string)
    ensures forall k, v | Sets(line, k, v) ::
      Get(ReadFields(py, lines + [line], d), other) ==
        if other == k then Some(Coerce(py, k, ParseValue(py, v))) else Get(ReadFields(py, lines, d), other)
    ensures (forall k, v :: !Sets(line, k, v)) ==> ReadFields(py, lines + [line], d) == ReadFields(py, lines, d)
  {
    ReadFieldsAppend(py, lines, [line], d);
    var was := ReadFields(py, lines, d);
    LineReads(py, line, was);
    forall k, v | Sets(line, k, v)
      ensures ReadField(py, line, was) == Put(was, k, Coerce(py, k, ParseValue(py, v)))
      ensures Get(ReadField(py, line, was), other) ==
        if other == k then Some(Coerce(py, k, ParseValue(py, v))) else Get(was, other)
    {
      SettingIsNotSkipped(line, k, v);
      FieldLineIs(line, k, v);
      hide Skipped, KeyAndRest, Sets;
      GetPut(was, k, Coerce(py, k, ParseValue(py, v)), other);
    }
    if forall k, v :: !Sets(line, k, v) {
      var kv := KeyAndRest(line);
      if kv.Some? {
        FieldLineIs(line, kv.value.0, kv.value.1);
      }
    }
  }

  lemma LineReads(py: Numbers, line: string, d: Dict<Value>)
    ensures ReadFields(py, [line], d) == ReadField(py, line, d)
  {
    hide ReadField;
    assert [line][1..] == [];
  }

  predicate Typed(key: string) {
    || key in ["challenges", "rounds", "touches", "credibility"]
    || key in ["instances", "first_seen_round", "attempts", "closed_in_round"]
  }

  /** The types that a few fields have: lists, whole numbers and a float; every other field keeps what was read. */
  lemma FieldTypes(py: Numbers, key: string, x: Scalar, items: seq<Scalar>)
    ensures key == "challenges" || key == "rounds" || key == "touches" ==>
      && Coerce(py, key, One(x)) == List(if x == Null then [] else [x])
      && Coerce(py, key, List(items)) == List(items)
    ensures key == "instances" || key == "first_seen_round" || key == "attempts" || key == "closed_in_round" ==>
      && Coerce(py, key, One(Bool(true))) == One(Int(1)) && Coerce(py, key, One(Bool(false))) == One(Int(0))
      && (x.Float? ==> Coerce(py, key, One(x)) == One(Int(py.intOfFloat(x.repr))))
      && (x.Str? && py.intOfText(x.s).Some? ==> Coerce(py, key, One(x)) == One(Int(py.intOfText(x.s).value)))
      && (x.Str? && py.intOfText(x.s).None? ==> Coerce(py, key, One(x)) == One(x))
      && (x.Int? || x.Null? ==> Coerce(py, key, One(x)) == One(x))
      && Coerce(py, key, List(items)) == List(items)
    ensures key == "credibility" ==>
      && (x.Int? ==> Coerce(py, key, One(x)) == One(Float(py.floatOfInt(x.n))))
      && (x.Str? && py.floatOfText(x.s).Some? ==> Coerce(py, key, One(x)) == One(Float(py.floatOfText(x.s).value)))
      && (x.Str? && py.floatOfText(x.s).None? ==> Coerce(py, key, One(x)) == One(x))
      && (x.Float? || x.Null? || x.Bool? ==> Coerce(py, key, One(x)) == One(x))
      && Coerce(py, key, List(items)) == List(items)
    ensures !Typed(key) ==> Coerce(py, key, One(x)) == One(x) && Coerce(py, key, List(items)) == List(items)
  {
    assert "instances"[0] == 'i' && "first_seen_round"[0] == 'f' && "attempts"[0] == 'a' && "closed_in_round"[1] == 'l';
    assert "challenges"[1] == 'h' && "rounds"[0] == 'r' && "touches"[0] == 't' && "credibility"[1] == 'r';
  }

  // ---------- the text of the file ----------

  /** Every \r\n and every other \r is read as one newline. */
  lemma ReturnsRead(a: string, b: string)
    requires '\r' !in a
    ensures Newlines(a + "\r\n" + b) == a + "\n" + Newlines(b)
    ensures b == "" || b[0] != '\n' ==> Newlines(a + "\r" + b) == a + "\n" + Newlines(b)
    ensures Newlines(a) == a
  {
    hide Newlines;
    NewlinesAfter(a, "\r\n" + b);
    NewlinesAfter(a, "\r" + b);
    NewlinesHasNoReturn(a);
    ReturnFirst(b);
    assert a + "\r\n" + b == a + ("\r\n" + b);
    assert a + "\r" + b == a + ("\r" + b);
    assert a + ("\n" + Newlines(b)) == a + "\n" + Newlines(b);
  }

  lemma ReturnFirst(b: string)
    ensures Newlines("\r\n" + b) == "\n" + Newlines(b)
    ensures b == "" || b[0] != '\n' ==> Newlines("\r" + b) == "\n" + Newlines(b)
  {
    var s, t := "\r\n" + b, "\r" + b;
    assert s[0] == '\r' && s[1] == '\n' && s[2..] == b && t[0] == '\r' && t[1..] == b;
    assert |t| > 1 ==> t[1] == b[0];
  }

  /** mark occurs in s at i. */
  predicate At(s: string, i: nat, mark: string) { i + |mark| <= |s| && s[i..i + |mark|] == mark }

  lemma {:induction false} SplitAppend(a: string, b: string)
    ensures Split(a + "\n" + b) == Split(a) + Split(b)
  {
    hide Split;
    var s := a + "\n" + b;
    SplitCons(s);
    EmptySplit();
    if a == "" {
      assert s == "\n" + b && s[1..] == b;
    } else {
      assert s[1..] == a[1..] + "\n" + b && s[0] == a[0];
      SplitAppend(a[1..], b);
      SplitCons(a);
      FirstGrows(a[0], Split(a[1..]), Split(b));
    }
  }

  lemma FirstGrows(c: char, lines: seq<string>, more: seq<string>)
    requires lines != []
    ensures OntoFirst(c, lines + more) == OntoFirst(c, lines) + more
  {
    assert (lines + more)[1..] == lines[1..] + more;
  }

  lemma SplitCons(s: string)
    requires s != ""
    ensures Split(s) == if s[0] == '\n' then [""] + Split(s[1..]) else OntoFirst(s[0], Split(s[1..]))
  {
  }

  /** The lines after the first are those that follow a newline. */
  lemma {:induction false} LaterLine(s: string, i: nat) returns (p: nat)
    requires 1 <= i < |Split(s)|
    ensures p < |s| && s[p] == '\n' && Split(s)[i] <= s[p + 1..]
  {
    SplitCons(s);
    var rest := Split(s[1..]);
    if s[0] == '\n' {
      if i == 1 {
        FirstLine(s[1..]);
        p := 0;
      } else {
        var q := LaterLine(s[1..], i - 1);
        p := q + 1;
        assert s[1..][q + 1..] == s[p + 1..];
      }
    } else {
      var q := LaterLine(s[1..], i);
      p := q + 1;
      assert s[1..][q + 1..] == s[p + 1..];
    }
  }

  lemma {:induction false} FirstLine(s: string)
    ensures Split(s)[0] <= s
  {
    if s != "" && s[0] != '\n' {
      FirstLine(s[1..]);
    }
  }

  lemma StartOfLine(s: string, mark: string)
    requires '\n' !in mark
    ensures mark <= Split(s)[0] <==> mark <= s
  {
    FirstLine(s);
    if mark <= s {
      StartKept(mark, s[|mark|..]);
      assert s == mark + s[|mark|..];
    }
  }

  lemma {:induction false} StartKept(mark: string, rest: string)
    requires '\n' !in mark
    ensures Split(mark + rest) == [mark + Split(rest)[0]] + Split(rest)[1..]
  {
    if mark == "" {
      assert mark + rest == rest && mark + Split(rest)[0] == Split(rest)[0];
    } else {
      assert (mark + rest)[1..] == mark[1..] + rest && mark[0] in mark;
      assert forall c | c in mark[1..] :: c in mark;
      StartKept(mark[1..], rest);
      assert [mark[0]] + (mark[1..] + Split(rest)[0]) == mark + Split(rest)[0];
    }
  }

  /** A text cut before its first newline. */
  lemma {:induction false} FirstBreak(s: string) returns (l: string, rest: string)
    ensures Split(s)[0] == l && '\n' !in l
    ensures |Split(s)| == 1 ==> s == l && rest == ""
    ensures |Split(s)| > 1 ==> s == l + "\n" + rest && Split(s)[1..] == Split(rest)
  {
    if s == "" {
      l, rest := "", "";
    } else if s[0] == '\n' {
      l, rest := "", s[1..];
      assert s == l + "\n" + rest;
    } else {
      var l', r := FirstBreak(s[1..]);
      l, rest := [s[0]] + l', r;
      assert s == [s[0]] + s[1..];
      if |Split(s)| > 1 {
        assert s == l + "\n" + rest;
      }
    }
  }

  lemma {:induction false} FenceAtIs(lines: seq<string>, k: nat, f: nat)
    requires k <= f <= |lines| && (forall i | k <= i < f :: !StartsFence(lines[i])) && (f < |lines| ==> StartsFence(lines[f]))
    ensures FenceAt(lines, k) == f
    decreases f - k
  {
    if k < f {
      FenceAtIs(lines, k + 1, f);
    }
  }

  lemma AllOneLine(s: string, i: nat)
    requires i < |Split(s)|
    ensures '\n' !in Split(s)[i]
  {
    SplitOneLine(s);
    assert OneLine(Split(s)[i]);
  }

  lemma MarkAt(s: string, p: nat, l: string)
    requires p < |s| && s[p] == '\n' && l <= s[p + 1..]
    ensures StartsFence(l) ==> At(s, p, "\n---")
  {
    if StartsFence(l) {
      assert s[p + 1..][..3] == l[..3] && l[..3] == "---";
      assert s[p..p + 4] == [s[p]] + s[p + 1..][..3];
    }
  }

  /** An occurrence in a part of s is one in s. */
  lemma AtShift(s: string, k: nat, n: nat, j: nat, mark: string)
    requires k <= n <= |s| && At(s[k..n], j, mark)
    ensures At(s, k + j, mark)
  {
    var u, m := s[k..n], |mark|;
    forall i | 0 <= i < m ensures s[k + j..k + j + m][i] == mark[i] {
      assert s[k + j + i] == u[j + i] && u[j + i] == u[j..j + m][i];
    }
  }

  lemma NoFenceWithin(front: string, i: nat)
    requires 1 <= i < |Split(front)|
    requires forall j | 0 <= j < |front| :: !At(front, j, "\n---")
    ensures !StartsFence(Split(front)[i])
  {
    var p := LaterLine(front, i);
    var l := Split(front)[i];
    hide Split;
    MarkAt(front, p, l);
    assert StartsFence(l) ==> At(front, p, "\n---");
  }

  /** The body after the fence: a newline right after the dashes does not belong to it. */
  function AfterFence(rest: string): string { if rest != "" && rest[0] == '\n' then rest[1..] else rest }

  lemma TailIsRead(rest: string, lines: seq<string>, k: nat)
    requires k < |lines| && lines[k..] == Split("---" + rest)
    ensures StartsFence(lines[k]) && ReadSections(Tail(lines, k), []) == ReadSections(Split(AfterFence(rest)), [])
  {
    hide ReadSections, Split;
    assert lines[k] == lines[k..][0] && lines[k + 1..] == lines[k..][1..];
    assert '\n' !in "---";
    StartKept("---", rest);
    var first := Split(rest)[0];
    assert lines[k] == "---" + first && lines[k][3..] == first;
    if rest == "" {
      EmptySplit();
      NothingRead();
      assert first == "" && "---" + first == "---";
      assert lines[k] == FENCE && lines[k + 1..] == [];
      assert Tail(lines, k) == [];
    } else if rest[0] == '\n' {
      SplitCons(rest);
      assert first == "" && "---" + first == "---";
      assert lines[k] == FENCE && Split(rest)[1..] == Split(rest[1..]);
      assert Tail(lines, k) == Split(rest[1..]);
    } else {
      SplitCons(rest);
      assert |first| > 0 && lines[k] != FENCE;
      assert Split(rest) == [first] + Split(rest)[1..];
      assert Tail(lines, k) == Split(rest);
    }
  }

  lemma EmptySplit()
    ensures Split("") == [""]
  {
  }

  lemma NothingRead()
    ensures ReadSections([""], []) == ReadSections([], [])
  {
  }

  lemma ThreeParts(front: string, rest: string)
    ensures Split("---\n" + front + "\n---" + rest) == ["---"] + (Split(front) + Split("---" + rest))
  {
    assert "---\n" + front + "\n---" + rest == "---" + "\n" + (front + "\n" + ("---" + rest));
    SplitLine("---", "");
    hide Split;
    SplitAppend("---", front + "\n" + ("---" + rest));
    SplitAppend(front, "---" + rest);
  }

  lemma FrontIsCut(front: string, rest: string) returns (k: nat)
    requires forall j | 0 <= j < |front| :: !At(front, j, "\n---")
    ensures var lines := Split("---\n" + front + "\n---" + rest);
      && 2 <= k < |lines| && lines[0] == FENCE && FenceAt(lines, 2) == k
      && lines[1..k] == Split(front) && lines[k..] == Split("---" + rest)
  {
    var t := "---\n" + front + "\n---" + rest;
    hide Split;
    ThreeParts(front, rest);
    var lines := Split(t);
    k := 1 + |Split(front)|;
    assert '\n' !in "---";
    StartKept("---", rest);
    assert lines[k] == Split("---" + rest)[0];
    forall i | 2 <= i < k ensures !StartsFence(lines[i]) {
      NoFenceWithin(front, i - 1);
      assert lines[i] == Split(front)[i - 1];
    }
    hide FENCE;
    assert StartsFence(lines[k]) by { FenceIs(); assert lines[k] == "---" + Split(rest)[0]; }
    FenceIs();
    FenceAtIs(lines, 2, k);
  }

  lemma FenceIs()
    ensures FENCE == "---"
  {
  }

  /** Main result: a file that starts with a line of three dashes has as its front matter the text up to the first
      newline with three dashes after it; the fields come from its lines and the sections from the text after the
      dashes. */
  lemma FileRead(py: Numbers, stem: string, front: string, rest: string)
    requires '\r' !in front && '\r' !in rest && forall j | 0 <= j < |front| :: !At(front, j, "\n---")
    ensures Parse(py, stem, "---\n" + front + "\n---" + rest) ==
      Parsed(Need(Named(ReadFields(py, AllPieces(Split(front)), []), stem), ReadSections(Split(AfterFence(rest)), [])))
  {
    var t := "---\n" + front + "\n---" + rest;
    assert '\r' !in t;
    NewlinesHasNoReturn(t);
    var k := FrontIsCut(front, rest);
    TailIsRead(rest, Split(t), k);
    hide Split, Newlines, FENCE, FenceAt, Tail, Named, ReadFields, ReadSections, AllPieces, AfterFence, StartsFence;
  }

  /** Any other file is refused. */
  lemma NoFence(py: Numbers, stem: string, t: string)
    requires '\r' !in t
    ensures Parse(py, stem, t) == NoFrontMatter <==> !("---\n" <= t) || forall j | 4 <= j < |t| :: !At(t, j, "\n---")
  {
    hide Named, ReadFields, ReadSections, AllPieces, AfterFence, Tail, Parse;
    if !("---\n" <= t) {
      NoStart(py, stem, t);
    } else if j :| 4 <= j < |t| && At(t, j, "\n---") {
      var i := FirstAt(t, j);
      var front, rest := t[4..i], t[i + 4..];
      forall p | 0 <= p < |front| ensures !At(front, p, "\n---") {
        if At(front, p, "\n---") {
          AtShift(t, 4, i, p, "\n---");
        }
      }
      assert t == "---\n" + front + "\n---" + rest;
      assert forall c | c in front + rest :: c in t;
      FileRead(py, stem, front, rest);
    } else {
      NoEnd(py, stem, t);
    }
  }

  lemma {:induction false} FirstAt(t: string, j: nat) returns (i: nat)
    requires 4 <= j < |t| && At(t, j, "\n---")
    ensures 4 <= i < |t| && At(t, i, "\n---") && forall p | 4 <= p < i :: !At(t, p, "\n---")
  {
    i := j;
    if p :| 4 <= p < j && At(t, p, "\n---") {
      i := FirstAt(t, p);
    }
  }

  lemma NoStart(py: Numbers, stem: string, t: string)
    requires '\r' !in t && !("---\n" <= t)
    ensures Parse(py, stem, t) == NoFrontMatter
  {
    NewlinesHasNoReturn(t);
    hide Named, ReadFields, ReadSections, AllPieces, AfterFence, Tail, Newlines, FenceAt;
    FenceIs();
    var lines := Split(t);
    var l, rest := FirstBreak(t);
    hide Split;
    assert l == "---" ==> "---\n" <= l + "\n" + rest by {
      assert "---\n" + rest == "---" + "\n" + rest;
    }
  }

  lemma NoEnd(py: Numbers, stem: string, t: string)
    requires '\r' !in t && "---\n" <= t && forall j | 4 <= j < |t| :: !At(t, j, "\n---")
    ensures Parse(py, stem, t) == NoFrontMatter
  {
    NewlinesHasNoReturn(t);
    var u := t[4..];
    assert t == "---" + "\n" + u;
    SplitAppend("---", u);
    SplitLine("---", "");
    var lines := Split(t);
    assert lines == ["---"] + Split(u);
    forall j | 0 <= j < |u| ensures !At(u, j, "\n---") {
      if At(u, j, "\n---") {
        assert t[4..|t|] == u;
        AtShift(t, 4, |t|, j, "\n---");
      }
    }
    hide Split;
    forall i | 2 <= i < |lines| ensures !StartsFence(lines[i]) {
      NoFenceWithin(u, i - 1);
    }
    hide Named, ReadFields, ReadSections, AllPieces, AfterFence, Tail, Newlines, StartsFence;
    FenceAtIs(lines, 2, |lines|);
  }

  // ---------- sections ----------

  /** A heading is two hashes, at least one blank, and a name, with any blanks after it. */
  lemma HeadingRead(gap: string, name: string, tail: string)
    requires gap != "" && Blanks(gap) && Blanks(tail) && name != "" && !Blank(name[0]) && !Blank(name[|name| - 1])
    ensures Heading("##" + gap + name + tail) && HeadingName("##" + gap + name + tail) == name
  {
    var line := "##" + gap + name + tail;
    assert line[2..] == gap + (name + tail) && gap[0] in gap && line[2] == gap[0];
    DropBlanksIs(gap, name + tail);
    DropEndBlanksIs(name, tail);
  }

  lemma BlanksPart(s: string)
    requires s != "" && Blanks(s)
    ensures Blanks(s[..|s| - 1]) && Blank(s[|s| - 1])
  {
    var t := s[..|s| - 1];
    assert s[|s| - 1] in s;
    forall c | c in t ensures c == ' ' || c == '\t' {
      assert c in s;
    }
  }

  lemma {:induction false} DropEndBlanksIs(name: string, tail: string)
    requires Blanks(tail) && name != "" && !Blank(name[|name| - 1])
    ensures DropEndBlanks(name + tail) == name
    decreases |tail|
  {
    if tail == "" {
      assert name + tail == name;
    } else {
      var s := name + tail;
      assert tail[|tail| - 1] in tail && s[..|s| - 1] == name + tail[..|tail| - 1];
      BlanksPart(tail);
      DropEndBlanksIs(name, tail[..|tail| - 1]);
    }
  }

  /** Two hashes and at least two blanks name a section by the last blank; no other line is a heading. */
  lemma HeadingsAre(line: string)
    ensures Heading(line) <==> exists gap, rest :: gap != "" && Blanks(gap) && rest != "" && line == "##" + gap + rest
    ensures |line| >= 4 && line[..2] == "##" && Blanks(line[2..]) ==> Heading(line) && HeadingName(line) == [line[|line| - 1]]
  {
    if Heading(line) {
      assert line == "##" + [line[2]] + line[3..];
    }
    if exists gap, rest :: gap != "" && Blanks(gap) && rest != "" && line == "##" + gap + rest {
      var gap, rest :| gap != "" && Blanks(gap) && rest != "" && line == "##" + gap + rest;
      assert gap[0] in gap && line[2] == gap[0];
    }
    if |line| >= 4 && line[..2] == "##" && Blanks(line[2..]) {
      assert line[2] in line[2..] && line[0] == line[..2][0] && line[1] == line[..2][1];
      assert line[2..] + "" == line[2..];
      DropBlanksIs(line[2..], "");
      assert line[|line| - 1..] == [line[|line| - 1]];
    }
  }

  /** strip("\n").rstrip(): the newlines in front and the white space at the end are taken off, and nothing else. */
  lemma NormIs(a: string, body: string, z: string)
    requires (forall c | c in a :: c == '\n') && IsNorm(body) && Spaces(z)
    ensures Norm(a + body + z) == body
  {
    var s := a + body + z;
    var n := RTrimLinesCut(s);
    NewlineIsSpace();
    hide IsSpace, RTrimLines;
    var t := RTrimLines(s);
    if |a + body| <= n {
      var z' := z[..n - |a + body|];
      assert t == a + (body + z');
      assert forall c | c in z' :: c in z;
      if body != "" {
        LTrimIs(a, body + z');
        RStripAfter(body, z');
      } else {
        assert body + z' == z';
        AllSpaceNorm(a, z');
      }
    } else {
      TrimmedNothing(a, body, z, n);
    }
  }

  lemma TrimmedNothing(a: string, body: string, z: string, n: nat)
    requires (forall c | c in a :: c == '\n') && IsNorm(body) && n < |a + body|
    requires forall i | n <= i < |a + body + z| :: (a + body + z)[i] == '\n'
    ensures body == "" && RStrip(LTrimLines((a + body + z)[..n])) == ""
  {
    var s := a + body + z;
    NewlineIsSpace();
    hide IsSpace;
    assert s[|a + body| - 1] == (a + body)[|a + body| - 1] == '\n';
    assert s[..n] == a[..n] && forall c | c in a[..n] :: c in a;
    assert a[..n] + "" == a[..n];
    LTrimIs(a[..n], "");
  }

  lemma {:induction false} LTrimIs(a: string, s: string)
    requires (forall c | c in a :: c == '\n') && (s == "" || s[0] != '\n')
    ensures LTrimLines(a + s) == s
  {
    if a == "" {
      assert a + s == s;
    } else {
      assert a[0] in a && (a + s)[1..] == a[1..] + s;
      assert forall c | c in a[1..] :: c in a;
      LTrimIs(a[1..], s);
    }
  }

  lemma {:induction false} AllSpaceNorm(a: string, z: string)
    requires (forall c | c in a :: c == '\n') && Spaces(z)
    ensures RStrip(LTrimLines(a + z)) == ""
  {
    LTrimLinesStart(a + z);
    var t := LTrimLines(a + z);
    NewlineIsSpace();
    hide IsSpace, LTrimLines;
    assert forall c | c in t :: IsSpace(c);
    assert "" + t == t;
    RStripAfter("", t);
  }

  lemma {:induction false} RTrimLinesCut(s: string) returns (n: nat)
    ensures n <= |s| && RTrimLines(s) == s[..n] && forall i | n <= i < |s| :: s[i] == '\n'
  {
    n := |s|;
    if s != "" && s[|s| - 1] == '\n' {
      n := RTrimLinesCut(s[..|s| - 1]);
    }
  }

  lemma {:induction false} IntroIgnored(intro: seq<string>, rest: seq<string>, d: Dict<string>)
    requires forall l | l in intro :: !Heading(l)
    ensures ReadSections(intro + rest, d) == ReadSections(rest, d)
  {
    if intro == [] {
      assert intro + rest == rest;
    } else {
      assert intro[0] in intro && (intro + rest)[1..] == intro[1..] + rest;
      IntroIgnored(intro[1..], rest, d);
    }
  }

  /** Main result: what stands before the first heading belongs to no section; a heading takes the text up to the next
      one, trimmed, and a later section of the same name replaces an earlier one. */
  lemma SectionRead(intro: seq<string>, head: string, body: seq<string>, rest: seq<string>, d: Dict<string>, name: string)
    requires (forall l | l in intro + body :: !Heading(l)) && Heading(head) && (rest == [] || Heading(rest[0]))
    ensures var after := ReadSections(intro + [head] + body, d);
      && ReadSections(intro + [head] + body + rest, d) == ReadSections(rest, after)
      && Get(after, name) == if name == HeadingName(head) then Some(Norm(Join(body, "\n"))) else Get(d, name)
  {
    var text := Norm(Join(body, "\n"));
    assert (forall l | l in intro :: l in intro + body) && forall l | l in body :: l in intro + body;
    assert intro + [head] + body + rest == intro + ([head] + (body + rest));
    assert intro + [head] + body == intro + ([head] + body);
    IntroIgnored(intro, [head] + (body + rest), d);
    IntroIgnored(intro, [head] + body, d);
    HeadTaken(head, body, rest, d);
    HeadTaken(head, body, [], d);
    assert body + [] == body;
    NoSections(Put(d, HeadingName(head), text));
    GetPut(d, HeadingName(head), text, name);
    hide Norm, Join, HeadingName;
  }

  lemma HeadTaken(head: string, body: seq<string>, rest: seq<string>, d: Dict<string>)
    requires Heading(head) && (forall l | l in body :: !Heading(l)) && (rest == [] || Heading(rest[0]))
    ensures ReadSections([head] + (body + rest), d) ==
      ReadSections(rest, Put(d, HeadingName(head), Norm(Join(body, "\n"))))
  {
    hide Norm, Join, HeadingName, Heading;
    BodyLengthOf(body, rest);
    var lines := [head] + (body + rest);
    assert lines[1..] == body + rest && lines[1..1 + |body|] == body && lines[1 + |body|..] == rest;
  }

  lemma NoSections(d: Dict<string>)
    ensures ReadSections([], d) == d
  {
  }

  /** No need_id, or one that is empty, null, false or zero. */
  predicate NoName(id: Option<Value>) {
    id.None? || id.value in [One(Null), One(Bool(false)), One(Int(0)), One(Float("0.0")), One(Float("-0.0")), One(Str("")), List([])]
  }

  /** A file that names no need is called after itself. */
  lemma NamedAfterFile(fields: Dict<Value>, stem: string, key: string)
    ensures Get(Named(fields, stem), key) ==
      if key == "need_id" && NoName(Get(fields, "need_id")) then Some(One(Str(stem))) else Get(fields, key)
  {
    assert ID == "need_id";
    GetPut(fields, ID, One(Str(stem)), key);
    hide Get, Put;
  }
}
