/** The printed form of a need record of scripts/repipe/needs.py in literal terms: the text of every kind of value,
    when a string is quoted, the lines of a file and their order. */
module NeedPrinting {
  import opened NeedValues
  import opened NeedText
  import opened NeedRecord
  import opened NeedRoundTrip
  import opened NeedParsed

  // ---------- values ----------

  predicate AllDigits(s: string) { s != "" && forall c | c in s :: '0' <= c <= '9' }

  /** A text that \d+ with an optional sign matches. */
  ghost predicate Whole(s: string) {
    exists sign, d :: (sign == "" || sign == "+" || sign == "-") && AllDigits(d) && s == sign + d
  }

  lemma DigitsAre(s: string)
    ensures Digits(s) <==> AllDigits(s)
  {
    assert forall i | 0 <= i < |s| :: s[i] in s;
  }

  lemma IntTextIs(s: string)
    ensures IntText(s) <==> Whole(s)
  {
    DigitsAre(Unsigned(s));
    if IntText(s) {
      var sign := if s[0] == '+' || s[0] == '-' then s[..1] else "";
      assert s == sign + Unsigned(s);
    }
    if Whole(s) {
      var sign, d :| (sign == "" || sign == "+" || sign == "-") && AllDigits(d) && s == sign + d;
      assert d[0] in d;
      if sign == "" {
        assert s == d;
      } else {
        assert s[1..] == d;
      }
    }
  }

  /** The marks that a bare string may not start with. */
  predicate Sigil(c: char) { c in ['"', '\'', '[', ']', '{', '}', '&', '*', '!', '|', '>', '%', '@', '`', '#', '-', '?', ':', ','] }

  /** A string that is printed without quotes: not empty, without white space at its ends, no keyword and no number, not
      starting with a mark, without #, newline, return or tab, and in a list without comma and brackets. */
  predicate Bare(s: string, inList: bool) {
    && s != "" && !IsSpace(s[0]) && !IsSpace(s[|s| - 1])
    && s != "null" && s != "~" && s != "true" && s != "false" && !IntText(s) && !FloatText(s)
    && !Sigil(s[0])
    && (forall c | c in s :: c != '#' && c != '\n' && c != '\r' && c != '\t')
    && (inList ==> forall c | c in s :: c != ',' && c != '[' && c != ']')
  }

  lemma SigilsAre(c: char)
    ensures c in SIGILS <==> Sigil(c)
  {
    assert SIGILS == ['"', '\'', '[', ']', '{', '}', '&', '*', '!', '|', '>', '%', '@', '`', '#', '-', '?', ':', ','];
  }

  lemma TrimmedIs(s: string)
    requires s != ""
    ensures s == Strip(s) <==> !IsSpace(s[0]) && !IsSpace(s[|s| - 1])
  {
    StripFacts(s);
    if Trimmed(s) {
      StripTrimmed(s);
    }
    hide Strip, IsSpace;
  }

  lemma BareIs(s: string, inList: bool)
    ensures Bare(s, inList) <==> !MustQuote(s, inList)
  {
    if s != "" {
      TrimmedIs(s);
      SigilsAre(s[0]);
    }
    hide Strip, IsSpace, IntText, FloatText, SIGILS, Sigil;
  }

  /** The text of every scalar. */
  lemma ScalarTexts(n: int, r: string, s: string, inList: bool)
    ensures EmitScalar(Null, inList) == "null"
    ensures EmitScalar(Bool(true), inList) == "true" && EmitScalar(Bool(false), inList) == "false"
    ensures EmitScalar(Float(r), inList) == r
    ensures EmitScalar(Str(s), inList) == if Bare(s, inList) then s else "\"" + Escape(s) + "\""
    ensures TextToInt(EmitScalar(Int(n), inList)) == n && (n >= 0 <==> EmitScalar(Int(n), inList)[0] != '-')
  {
    BareIs(s, inList);
    IntRoundTrip(n);
    hide MustQuote, Bare, Escape;
    if n >= 0 {
      assert IsDigit(Decimal(n)[0]);
    }
  }

  /** No text of a number has a leading zero. */
  lemma {:induction false} DecimalShape(n: nat)
    ensures n > 0 ==> Decimal(n)[0] != '0'
    ensures n == 0 ==> Decimal(n) == "0"
  {
    if n >= 10 {
      DecimalShape(n / 10);
    }
  }

  /** Inside the quotes there is no newline, return or tab, and each quote and backslash of the string has a backslash
      before it. */
  lemma {:induction false} QuotedText(s: string)
    ensures Escape(s) == if s == "" then "" else
      (if s[0] == '\\' then "\\\\" else if s[0] == '"' then "\\\"" else if s[0] == '\n' then "\\n"
       else if s[0] == '\r' then "\\r" else if s[0] == '\t' then "\\t" else [s[0]]) + Escape(s[1..])
    ensures forall c | c in Escape(s) :: c != '\n' && c != '\r' && c != '\t'
  {
    EscapeIsCharwise(s);
    if s != "" {
      EscapeIsCharwise(s[1..]);
      QuotedText(s[1..]);
      hide Escape;
    }
  }

  /** A list stands in brackets, its items separated by a comma and a blank. */
  lemma ListTexts(items: seq<Scalar>, x: Scalar)
    ensures EmitValue(List([])) == "[]" && EmitValue(List([x])) == "[" + EmitScalar(x, true) + "]"
    ensures items != [] ==>
      EmitValue(List([x] + items)) == "[" + EmitScalar(x, true) + ", " + EmitValue(List(items))[1..]
    ensures EmitValue(One(x)) == EmitScalar(x, false)
  {
    hide EmitScalar;
    assert EmitItems([x] + items) == [EmitScalar(x, true)] + EmitItems(items);
    if items != [] {
      var e, rest := EmitScalar(x, true), Join(EmitItems(items), ", ");
      assert ([e] + EmitItems(items))[1..] == EmitItems(items);
      assert "[" + (e + ", " + rest) + "]" == "[" + e + ", " + (rest + "]");
      assert ("[" + rest + "]")[1..] == rest + "]";
    }
  }

  // ---------- the file ----------

  function FieldsText(d: Dict<Value>): string {
    if d == [] then "" else d[0].key + ": " + EmitValue(d[0].value) + "\n" + FieldsText(d[1..])
  }

  function SectionText(name: string, body: string): string {
    "\n## " + name + "\n" + if Norm(body) == "" then "" else "\n" + Norm(body) + "\n"
  }

  function SectionsText(d: Dict<string>): string {
    if d == [] then "" else SectionText(d[0].key, d[0].value) + SectionsText(d[1..])
  }

  /** Lines, each with its newline. */
  function Lined(lines: seq<string>): string { if lines == [] then "" else lines[0] + "\n" + Lined(lines[1..]) }

  lemma {:induction false} LinedJoin(lines: seq<string>)
    requires lines != []
    ensures Join(lines, "\n") + "\n" == Lined(lines)
  {
    if |lines| == 1 {
      assert lines[1..] == [] && lines[0] + "\n" + "" == lines[0] + "\n";
    } else {
      LinedJoin(lines[1..]);
      assert lines[0] + "\n" + Join(lines[1..], "\n") + "\n" == lines[0] + "\n" + (Join(lines[1..], "\n") + "\n");
    }
  }

  lemma {:induction false} LinedAppend(a: seq<string>, b: seq<string>)
    ensures Lined(a + b) == Lined(a) + Lined(b)
  {
    if a == [] {
      assert a + b == b;
    } else {
      assert (a + b)[1..] == a[1..] + b && (a + b)[0] == a[0];
      LinedAppend(a[1..], b);
      assert a[0] + "\n" + (Lined(a[1..]) + Lined(b)) == (a[0] + "\n" + Lined(a[1..])) + Lined(b);
    }
  }

  lemma LinedOne(l: string)
    ensures Lined([l]) == l + "\n"
  {
    assert [l][1..] == [] && l + "\n" + "" == l + "\n";
  }

  lemma {:induction false} FieldsLined(d: Dict<Value>)
    ensures Lined(FieldLines(d)) == FieldsText(d)
  {
    hide EmitValue;
    if d != [] {
      FieldsLined(d[1..]);
      assert FieldLines(d)[1..] == FieldLines(d[1..]);
    }
  }

  lemma SectionLined(e: Entry<string>)
    ensures Lined(SectionLines(e)) == SectionText(e.key, e.value)
  {
    hide Norm, Split, Lined;
    var body := Norm(e.value);
    LinedOne("");
    LinedOne("## " + e.key);
    LinedAppend([""], ["## " + e.key]);
    assert ["", "## " + e.key] == [""] + ["## " + e.key];
    LinedAppend(["", "## " + e.key], if body == "" then [] else [""] + Split(body));
    assert "" + "\n" + ("## " + e.key + "\n") == "\n## " + e.key + "\n";
    if body == "" {
      LinedNothing();
    } else {
      LinedAppend([""], Split(body));
      LinedJoin(Split(body));
      JoinSplit(body);
      assert "" + "\n" + (body + "\n") == "\n" + body + "\n";
    }
  }

  lemma LinedNothing()
    ensures Lined([]) == ""
  {
  }

  lemma {:induction false} SectionsLined(d: Dict<string>)
    ensures Lined(AllSectionLines(d)) == SectionsText(d)
  {
    hide SectionLines, SectionText;
    if d != [] {
      SectionsLined(d[1..]);
      SectionLined(d[0]);
      LinedAppend(SectionLines(d[0]), AllSectionLines(d[1..]));
    }
  }

  /** Main result: the file is the front matter between two lines of dashes, a line "key: value" for each field, and then
      for each section an empty line, its heading, and, if it has a body, an empty line and the body without the empty
      lines around it; everything in the printer's order. */
  lemma FileText(n: Need)
    ensures Render(n) ==
      "---\n" + FieldsText(Reorder(FIELDS, n.fields)) + "---\n" + SectionsText(Reorder(SECTIONS, n.sections))
  {
    var fields, back := Reorder(FIELDS, n.fields), AllSectionLines(Reorder(SECTIONS, n.sections));
    assert FENCE == "---" && FENCE + "\n" == "---\n";
    hide Reorder, FIELDS, SECTIONS, AllSectionLines, FieldLines, Join, Lined, FENCE;
    RenderIs(n, [FENCE] + FieldLines(fields) + [FENCE] + back);
    LinedJoin([FENCE] + FieldLines(fields) + [FENCE] + back);
    LinedAppend([FENCE] + FieldLines(fields) + [FENCE], back);
    LinedAppend([FENCE] + FieldLines(fields), [FENCE]);
    LinedAppend([FENCE], FieldLines(fields));
    LinedOne(FENCE);
    FieldsLined(fields);
    SectionsLined(Reorder(SECTIONS, n.sections));
  }

  // ---------- the order ----------

  lemma KnownNames()
    ensures FIELDS == ["need_id", "title", "track", "status", "severity", "probe_id", "acceptance_id", "hypothesis_status",
      "credibility", "instances", "challenges", "rounds", "first_seen_round", "attempts", "covered_by_option", "touches",
      "scope", "regression_of", "pr", "closed_in_round", "closing_pr", "reject_reason"]
    ensures SECTIONS == ["Symptom", "Reproduction", "Acceptance", "Hypothesis", "Refutation", "Reference", "Instances",
      "Decision log"]
  {
  }

  lemma OrderedStep<T(!new)>(known: seq<string>, d: Dict<T>)
    requires known != [] && NoRepeats(known)
    ensures NoRepeats(known[1..])
    ensures var o, rest := Ordered(known, d), Ordered(known[1..], d);
      o == rest || exists e: Entry<T> :: e.key == known[0] && o == [e] + rest
  {
    hide Get;
    var got := Get(d, known[0]);
    if got.Some? {
      assert Ordered(known, d) == [Entry(known[0], got.value)] + Ordered(known[1..], d);
    }
  }

  lemma KeyAmong<T(!new)>(known: seq<string>, d: Dict<T>, j: nat) returns (b: nat)
    requires Distinct(d) && NoRepeats(known) && j < |Ordered(known, d)|
    ensures b < |known| && known[b] == Ordered(known, d)[j].key
  {
    OrderedAre(known, d);
    hide Ordered, Distinct, NoRepeats;
    assert Ordered(known, d)[j] in Ordered(known, d);
    b :| 0 <= b < |known| && known[b] == Ordered(known, d)[j].key;
  }

  lemma {:induction false} OrderedByKnown<T(!new)>(known: seq<string>, d: Dict<T>, i: nat, j: nat) returns (a: nat, b: nat)
    requires Distinct(d) && NoRepeats(known) && i < j < |Ordered(known, d)|
    ensures a < b < |known| && known[a] == Ordered(known, d)[i].key && known[b] == Ordered(known, d)[j].key
  {
    assert known != [];
    OrderedStep(known, d);
    hide *;
    var o, rest := Ordered(known, d), Ordered(known[1..], d);
    if o == rest {
      a, b := OrderedByKnown(known[1..], d, i, j);
      a, b := a + 1, b + 1;
    } else if i > 0 {
      a, b := OrderedByKnown(known[1..], d, i - 1, j - 1);
      a, b := a + 1, b + 1;
    } else {
      b := KeyAmong(known[1..], d, j - 1);
      a, b := 0, b + 1;
    }
  }

  /** Known names come first, in the order of the documentation; the others after them, as the record has them. */
  lemma NamesInOrder<T(!new)>(known: seq<string>, d: Dict<T>, i: nat, j: nat)
    requires Distinct(d) && NoRepeats(known) && i < j < |Reorder(known, d)|
    ensures var x, y := Reorder(known, d)[i].key, Reorder(known, d)[j].key;
      && (y in known ==> x in known && exists a, b | 0 <= a < b < |known| :: known[a] == x && known[b] == y)
      && (x !in known ==> y !in known && exists a, b | 0 <= a < b < |d| :: d[a].key == x && d[b].key == y)
  {
    var o, r := Ordered(known, d), Others(known, d);
    OrderedAre(known, d);
    OthersAre(known, d);
    assert (forall k | 0 <= k < |o| :: o[k] in o) && forall k | 0 <= k < |r| :: r[k] in r;
    hide Ordered, Others, Distinct;
    if j < |o| {
      var a, b := OrderedByKnown(known, d, i, j);
      assert known[a] == o[i].key && known[b] == o[j].key;
    } else if i >= |o| {
      OthersInOrder(known, d, i - |o|, j - |o|);
    }
  }

  lemma {:induction false} OthersInOrder<T(!new)>(known: seq<string>, d: Dict<T>, i: nat, j: nat)
    requires i < j < |Others(known, d)|
    ensures exists a, b | 0 <= a < b < |d| :: d[a] == Others(known, d)[i] && d[b] == Others(known, d)[j]
  {
    var rest := Others(known, d[1..]);
    var off := |Others(known, d)| - |rest|;
    if i >= off {
      OthersInOrder(known, d[1..], i - off, j - off);
      var a, b :| 0 <= a < b < |d[1..]| && d[1..][a] == rest[i - off] && d[1..][b] == rest[j - off];
      assert d[a + 1] == rest[i - off] && d[b + 1] == rest[j - off];
    } else {
      OthersAre(known, d[1..]);
      assert rest[j - off] in rest;
      var b :| 0 <= b < |d[1..]| && d[1..][b] == rest[j - off];
      assert d[0] == Others(known, d)[i] && d[b + 1] == rest[j - off];
    }
  }
}
