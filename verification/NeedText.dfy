/** Lines, line ends and blank margins, as the record reader and printer of scripts/repipe/needs.py
    use them: splitting at newlines and joining again, the newline translation of text-mode reading,
    the trimming of section bodies, and the heading pattern.

    The lemmas say what survives each of these: lines without newlines survive join and split, a
    trimmed body survives the blank lines that are printed around it, and no line becomes a heading
    by trimming. NeedRoundTrip puts them together. */
module NeedText {
  import opened NeedValues

  // ---------- split and join ----------

  /** s.split("\n") */
  function Split(s: string): (lines: seq<string>)
    ensures lines != []
  {
    if s == "" then [""]
    else
      var rest := Split(s[1..]);
      if s[0] == '\n' then [""] + rest else OntoFirst(s[0], rest)
  }

  predicate OneLine(s: string) { '\n' !in s }

  lemma {:induction false} SplitLine(l: string, rest: string)
    requires OneLine(l)
    ensures Split(l) == [l] && Split(l + "\n" + rest) == [l] + Split(rest)
  {
    if l == "" {
      assert ("\n" + rest)[1..] == rest && l + "\n" + rest == "\n" + rest;
    } else {
      SplitLine(l[1..], rest);
      assert (l + "\n" + rest)[1..] == l[1..] + "\n" + rest;
      assert l == [l[0]] + l[1..];
      assert ([l[1..]] + Split(rest))[1..] == Split(rest);
    }
  }

  lemma {:induction false} SplitJoin(lines: seq<string>)
    requires lines != [] && forall l | l in lines :: OneLine(l)
    ensures Split(Join(lines, "\n")) == lines
  {
    SplitLine(lines[0], "");
    if |lines| > 1 {
      assert OneLine(lines[0]);
      SplitLine(lines[0], Join(lines[1..], "\n"));
      SplitJoin(lines[1..]);
    }
  }

  lemma JoinOntoFirst(c: char, lines: seq<string>)
    requires lines != []
    ensures Join(OntoFirst(c, lines), "\n") == [c] + Join(lines, "\n")
  {
    assert OntoFirst(c, lines)[1..] == lines[1..];
    var rest := Join(lines[1..], "\n");
    assert [c] + lines[0] + "\n" + rest == [c] + (lines[0] + "\n" + rest);
  }

  lemma {:induction false} JoinSplit(s: string)
    ensures Join(Split(s), "\n") == s
  {
    if s != "" {
      JoinSplit(s[1..]);
      var rest := Split(s[1..]);
      assert s == [s[0]] + s[1..];
      if s[0] == '\n' {
        assert ([""] + rest)[1..] == rest;
      } else {
        hide OntoFirst;
        JoinOntoFirst(s[0], rest);
      }
    }
  }

  lemma {:induction false} SplitOneLine(s: string)
    ensures forall l | l in Split(s) :: OneLine(l)
  {
    if s != "" {
      SplitOneLine(s[1..]);
      var rest := Split(s[1..]);
      assert OneLine(rest[0]);
    }
  }

  lemma {:induction false} JoinEnd(lines: seq<string>)
    requires lines != []
    ensures Join(lines + [""], "\n") == Join(lines, "\n") + "\n"
  {
    if |lines| == 1 {
      assert (lines + [""])[1..] == [""];
      assert lines[0] + "\n" + "" == lines[0] + "\n";
    } else {
      assert (lines + [""])[1..] == lines[1..] + [""];
      JoinEnd(lines[1..]);
    }
  }

  /** Printed lines are read back as themselves, with an empty last one. */
  lemma SplitPrinted(lines: seq<string>)
    requires lines != [] && forall l | l in lines :: OneLine(l)
    ensures Split(Join(lines, "\n") + "\n") == lines + [""]
  {
    JoinEnd(lines);
    assert OneLine("");
    SplitJoin(lines + [""]);
  }

  lemma Regrouped(a: string, b: string, c: string)
    ensures a + "\n" + b + "\n" + c == a + "\n" + (b + "\n" + c)
  {
  }

  lemma FirstAnd(lines: seq<string>, more: seq<string>)
    requires lines != []
    ensures [lines[0]] + (lines[1..] + more) == lines + more
  {
  }

  lemma JoinFirst(lines: seq<string>, sep: string)
    requires lines != []
    ensures Join(lines, sep) == if |lines| == 1 then lines[0] else lines[0] + sep + Join(lines[1..], sep)
  {
  }

  /** Printed lines and any text after them. */
  lemma {:induction false} SplitPrefix(lines: seq<string>, rest: string)
    requires lines != [] && forall l | l in lines :: OneLine(l)
    ensures Split(Join(lines, "\n") + "\n" + rest) == lines + Split(rest)
  {
    assert OneLine(lines[0]);
    hide *;
    JoinFirst(lines, "\n");
    if |lines| == 1 {
      SplitLine(lines[0], rest);
      assert lines == [lines[0]];
    } else {
      var more := Join(lines[1..], "\n");
      Regrouped(lines[0], more, rest);
      SplitLine(lines[0], more + "\n" + rest);
      SplitPrefix(lines[1..], rest);
      FirstAnd(lines, Split(rest));
    }
  }

  lemma {:induction false} JoinAppend(a: seq<string>, b: seq<string>)
    requires a != [] && b != []
    ensures Join(a + b, "\n") == Join(a, "\n") + "\n" + Join(b, "\n")
  {
    if |a| == 1 {
      assert (a + b)[1..] == b;
    } else {
      assert (a + b)[1..] == a[1..] + b;
      JoinAppend(a[1..], b);
      var x, y := Join(a[1..], "\n"), Join(b, "\n");
      assert a[0] + "\n" + (x + "\n" + y) == (a[0] + "\n" + x) + "\n" + y;
    }
  }

  function OntoFirst(c: char, lines: seq<string>): seq<string>
    requires lines != []
  {
    [[c] + lines[0]] + lines[1..]
  }

  function OntoLast(lines: seq<string>, c: char): seq<string>
    requires lines != []
  {
    if c == '\n' then lines + [""] else lines[..|lines| - 1] + [lines[|lines| - 1] + [c]]
  }

  lemma EndsCommute(a: char, lines: seq<string>, c: char)
    requires lines != []
    ensures OntoLast(OntoFirst(a, lines), c) == OntoFirst(a, OntoLast(lines, c))
  {
    if |lines| == 1 && c != '\n' {
      assert [a] + (lines[0] + [c]) == ([a] + lines[0]) + [c];
    }
  }

  lemma {:induction false} SplitSnoc(t: string, c: char)
    ensures Split(t + [c]) == OntoLast(Split(t), c)
  {
    if t == "" {
      assert t + [c] == [c] && [c][1..] == "" && Split("") == [""];
      assert OntoLast([""], c) == (if c == '\n' then ["", ""] else [[c]]) by { assert "" + [c] == [c]; }
      assert OntoFirst(c, [""]) == [[c]] by { assert [c] + "" == [c]; }
    } else {
      assert (t + [c])[1..] == t[1..] + [c] && (t + [c])[0] == t[0];
      SplitSnoc(t[1..], c);
      if t[0] == '\n' {
        assert OntoLast([""] + Split(t[1..]), c) == [""] + OntoLast(Split(t[1..]), c);
      } else {
        EndsCommute(t[0], Split(t[1..]), c);
        hide OntoLast;
      }
    }
  }

  lemma {:induction false} JoinChars(lines: seq<string>, bad: char)
    requires bad != '\n' && forall l | l in lines :: bad !in l
    ensures bad !in Join(lines, "\n")
  {
    if |lines| == 1 {
      assert lines[0] in lines;
    } else if lines != [] {
      assert lines[0] in lines;
      JoinChars(lines[1..], bad);
    }
  }

  lemma {:induction false} SplitChars(s: string, bad: char)
    requires bad !in s
    ensures forall l | l in Split(s) :: bad !in l
  {
    if s != "" {
      assert forall c | c in s[1..] :: c in s;
      SplitChars(s[1..], bad);
      var rest := Split(s[1..]);
      assert rest[0] in rest;
    }
  }

  // ---------- universal newlines ----------

  /** Text-mode reading: every \r\n and every \r becomes \n. */
  function Newlines(s: string): string {
    if s == "" then ""
    else if s[0] == '\r' then "\n" + Newlines(if |s| > 1 && s[1] == '\n' then s[2..] else s[1..])
    else [s[0]] + Newlines(s[1..])
  }

  lemma {:induction false} NewlinesHasNoReturn(s: string)
    ensures '\r' !in Newlines(s)
    ensures '\r' !in s ==> Newlines(s) == s
    decreases |s|
  {
    if s != "" {
      assert forall c | c in s[1..] :: c in s;
      assert s == [s[0]] + s[1..];
      NewlinesHasNoReturn(s[1..]);
      if |s| > 1 {
        NewlinesHasNoReturn(s[2..]);
      }
    }
  }

  lemma {:induction false} NewlinesAfter(a: string, b: string)
    requires '\r' !in a
    ensures Newlines(a + b) == a + Newlines(b)
  {
    if a == "" {
      assert a + b == b;
    } else {
      assert (a + b)[1..] == a[1..] + b && a[0] in a;
      NewlinesAfter(a[1..], b);
    }
  }

  // ---------- section bodies ----------

  function LTrimLines(s: string): string {
    if s != "" && s[0] == '\n' then LTrimLines(s[1..]) else s
  }

  function RTrimLines(s: string): string {
    if s != "" && s[|s| - 1] == '\n' then RTrimLines(s[..|s| - 1]) else s
  }

  /** body.strip("\n").rstrip() */
  function Norm(s: string): string { RStrip(LTrimLines(RTrimLines(s))) }

  /** Already in the form Norm gives. */
  predicate IsNorm(s: string) { s == "" || (s[0] != '\n' && !IsSpace(s[|s| - 1])) }

  lemma NewlineIsSpace()
    ensures IsSpace('\n')
  {
    assert '\n' as int == 0x0a;
  }

  lemma {:induction false} LTrimLinesStart(s: string)
    ensures LTrimLines(s) == "" || LTrimLines(s)[0] != '\n'
    ensures forall c | c in LTrimLines(s) :: c in s
  {
    if s != "" && s[0] == '\n' {
      LTrimLinesStart(s[1..]);
    }
  }

  lemma {:induction false} RTrimLinesChars(s: string)
    ensures forall c | c in RTrimLines(s) :: c in s
  {
    if s != "" && s[|s| - 1] == '\n' {
      RTrimLinesChars(s[..|s| - 1]);
    }
  }

  lemma NormIsNorm(s: string)
    ensures IsNorm(Norm(s)) && forall c | c in Norm(s) :: c in s
  {
    hide IsSpace, LTrimLines, RTrimLines, RStrip;
    var t := LTrimLines(RTrimLines(s));
    RTrimLinesChars(s);
    LTrimLinesStart(RTrimLines(s));
    RStripPrefix(t);
  }

  /** A normal body, alone or between the blank lines the printer puts around it, is unchanged. */
  lemma NormBetweenBlankLines(b: string)
    requires IsNorm(b)
    ensures Norm(b) == b && Norm("\n" + b + "\n") == b
  {
    hide IsSpace;
    NewlineIsSpace();
    if b == "" {
      assert "\n" + b + "\n" == "\n\n" && "\n\n"[..1] == "\n" && "\n"[..0] == "";
      assert RTrimLines("\n\n") == RTrimLines("\n") == RTrimLines("") == "";
    } else {
      var s := "\n" + b + "\n";
      assert s[..|s| - 1] == "\n" + b && ("\n" + b)[1..] == b;
      assert RTrimLines(s) == RTrimLines("\n" + b) == "\n" + b;
      assert LTrimLines("\n" + b) == LTrimLines(b) == b;
    }
  }

  // ---------- headings ----------

  predicate Blank(c: char) { c == ' ' || c == '\t' }

  /** ^##[ \t]+(.+?)[ \t]*$ on one line: the second blank of an all-blank rest serves as the name. */
  predicate Heading(line: string) {
    |line| >= 4 && line[0] == '#' && line[1] == '#' && Blank(line[2])
  }

  function DropBlanks(s: string): string {
    if s != "" && Blank(s[0]) then DropBlanks(s[1..]) else s
  }

  function DropEndBlanks(s: string): string {
    if s != "" && Blank(s[|s| - 1]) then DropEndBlanks(s[..|s| - 1]) else s
  }

  function HeadingName(line: string): string
    requires Heading(line)
  {
    var name := DropEndBlanks(DropBlanks(line[2..]));
    if name == "" then line[|line| - 1..] else name
  }

  /** A section name as the heading pattern yields it: without blanks at its ends, or a single blank. */
  predicate NameOk(name: string) {
    || name == " " || name == "\t"
    || (name != "" && '\n' !in name && '\r' !in name && !Blank(name[0]) && !Blank(name[|name| - 1]))
  }

  lemma HeadingOfName(name: string)
    requires NameOk(name)
    ensures Heading("## " + name) && HeadingName("## " + name) == name
  {
    var line := "## " + name;
    assert line[2..] == " " + name && (" " + name)[1..] == name;
    assert DropBlanks(" " + name) == DropBlanks(name);
    if name == " " || name == "\t" {
      assert name[1..] == "" && DropBlanks(name) == DropBlanks("") == "";
      assert line[|line| - 1..] == name;
    } else {
      assert DropBlanks(name) == name;
    }
  }

  lemma {:induction false} DropBlanksAre(s: string)
    ensures DropBlanks(s) == "" || !Blank(DropBlanks(s)[0])
    ensures forall c | c in DropBlanks(s) :: c in s
    ensures DropBlanks(s) == "" ==> forall c | c in s :: Blank(c)
  {
    if s != "" && Blank(s[0]) {
      DropBlanksAre(s[1..]);
      assert forall c | c in s :: c == s[0] || c in s[1..];
    }
  }

  lemma {:induction false} DropEndBlanksAre(s: string)
    ensures var r := DropEndBlanks(s); r == "" || (!Blank(r[|r| - 1]) && r[0] == s[0])
    ensures forall c | c in DropEndBlanks(s) :: c in s
    ensures s != "" && !Blank(s[0]) ==> DropEndBlanks(s) != ""
  {
    if s != "" && Blank(s[|s| - 1]) {
      var t := s[..|s| - 1];
      DropEndBlanksAre(t);
      assert forall c | c in t :: c in s;
    }
  }

  /** Every heading yields such a name. */
  lemma HeadingNameOk(line: string)
    requires Heading(line) && '\n' !in line && '\r' !in line
    ensures NameOk(HeadingName(line))
  {
    hide Blank, DropBlanks, DropEndBlanks;
    var d := DropBlanks(line[2..]);
    DropBlanksAre(line[2..]);
    DropEndBlanksAre(d);
    var name := DropEndBlanks(d);
    assert forall c | c in line[2..] :: c in line;
    if name == "" {
      assert d == "" && line[|line| - 1] in line[2..];
      assert Blank(line[|line| - 1]);
      assert line[|line| - 1..] == [line[|line| - 1]];
      BlankIs(line[|line| - 1]);
    }
  }

  lemma BlankIs(c: char)
    requires Blank(c)
    ensures c == ' ' || c == '\t'
  {
  }

  /** No line of the text is a heading. */
  predicate Plain(s: string) { forall l | l in Split(s) :: !Heading(l) }

  lemma {:induction false} PlainDropFirst(s: string)
    requires Plain(s)
    ensures Plain(LTrimLines(s))
  {
    if s != "" && s[0] == '\n' {
      assert Split(s) == [""] + Split(s[1..]);
      PlainDropFirst(s[1..]);
    }
  }

  lemma PlainDropLast(s: string)
    requires s != "" && Plain(s)
    ensures Plain(s[..|s| - 1])
  {
    var t, c := s[..|s| - 1], s[|s| - 1];
    assert s == t + [c];
    SplitSnoc(t, c);
    var lines, longer := Split(t), Split(s);
    forall l | l in lines ensures !Heading(l) {
      var i :| 0 <= i < |lines| && lines[i] == l;
      assert longer[i] in longer && |l| <= |longer[i]| && l == longer[i][..|l|];
    }
  }

  lemma {:induction false} PlainRTrimLines(s: string)
    requires Plain(s)
    ensures Plain(RTrimLines(s))
  {
    if s != "" && s[|s| - 1] == '\n' {
      PlainDropLast(s);
      PlainRTrimLines(s[..|s| - 1]);
    }
  }

  lemma {:induction false} PlainRStrip(s: string)
    requires Plain(s)
    ensures Plain(RStrip(s))
  {
    hide IsSpace, Plain;
    if s != "" && IsSpace(s[|s| - 1]) {
      PlainDropLast(s);
      PlainRStrip(s[..|s| - 1]);
    }
  }

  /** Trimming a body never makes a heading of one of its lines. */
  lemma PlainNorm(s: string)
    requires Plain(s)
    ensures Plain(Norm(s))
  {
    hide Plain;
    PlainRTrimLines(s);
    PlainDropFirst(RTrimLines(s));
    PlainRStrip(LTrimLines(RTrimLines(s)));
  }
}
