/** A need record of scripts/repipe/needs.py: its printer and its parser.

    The parser looks for the front-matter fence and for headings with regular expressions over the whole
    text. Both patterns match whole lines, so the parser is written here over the lines of the text: the
    fence is the first line from the third on that starts with three dashes, and a section runs from its
    heading line to the next. */
module NeedRecord {
  import opened NeedValues
  import opened NeedText

  // ---------- ordered dictionaries ----------

  datatype Entry<T> = Entry(key: string, value: T)

  type Dict<T> = seq<Entry<T>>

  function Get<T>(d: Dict<T>, key: string): Option<T> {
    if d == [] then None else if d[0].key == key then Some(d[0].value) else Get(d[1..], key)
  }

  function Put<T>(d: Dict<T>, key: string, value: T): Dict<T> {
    if d == [] then [Entry(key, value)]
    else if d[0].key == key then [Entry(key, value)] + d[1..]
    else [d[0]] + Put(d[1..], key, value)
  }

  predicate Distinct<T>(d: Dict<T>) {
    forall i, j | 0 <= i < j < |d| :: d[i].key != d[j].key
  }

  /** The entries of known keys, in the order of known. */
  function Ordered<T>(known: seq<string>, d: Dict<T>): Dict<T> {
    if known == [] then []
    else
      var got := Get(d, known[0]);
      (if got.Some? then [Entry(known[0], got.value)] else []) + Ordered(known[1..], d)
  }

  /** The other entries, in their own order. */
  function Others<T>(known: seq<string>, d: Dict<T>): Dict<T> {
    if d == [] then []
    else (if d[0].key in known then [] else [d[0]]) + Others(known, d[1..])
  }

  function Reorder<T>(known: seq<string>, d: Dict<T>): Dict<T> { Ordered(known, d) + Others(known, d) }

  // ---------- the record ----------

  datatype Need = Need(fields: Dict<Value>, sections: Dict<string>)

  datatype Parsed = Parsed(need: Need) | NoFrontMatter

  const FIELDS: seq<string> := [
    "need_id", "title", "track", "status", "severity",
    "probe_id", "acceptance_id", "hypothesis_status", "credibility",
    "instances", "challenges", "rounds", "first_seen_round", "attempts",
    "covered_by_option", "touches", "scope", "regression_of",
    "pr", "closed_in_round", "closing_pr", "reject_reason"]

  const SECTIONS: seq<string> := [
    "Symptom", "Reproduction", "Acceptance", "Hypothesis", "Refutation", "Reference", "Instances", "Decision log"]

  const LIST_FIELDS: seq<string> := ["challenges", "rounds", "touches"]
  const INT_FIELDS: seq<string> := ["instances", "first_seen_round", "attempts", "closed_in_round"]
  const FLOAT_FIELDS: seq<string> := ["credibility"]

  function Coerce(py: Numbers, key: string, v: Value): Value {
    if key in LIST_FIELDS then
      match v
      case One(Null) => List([])
      case One(s) => List([s])
      case List(_) => v
    else if key in INT_FIELDS then
      match v
      case One(Str(s)) => if py.intOfText(s).Some? then One(Int(py.intOfText(s).value)) else v
      case One(Float(r)) => One(Int(py.intOfFloat(r)))
      case One(Bool(b)) => One(Int(if b then 1 else 0))
      case _ => v
    else if key in FLOAT_FIELDS then
      match v
      case One(Str(s)) => if py.floatOfText(s).Some? then One(Float(py.floatOfText(s).value)) else v
      case One(Int(n)) => One(Float(py.floatOfInt(n)))
      case _ => v
    else v
  }

  // ---------- printing ----------

  function FieldLine(e: Entry<Value>): string { e.key + ": " + EmitValue(e.value) }

  function FieldLines(d: Dict<Value>): seq<string> {
    if d == [] then [] else [FieldLine(d[0])] + FieldLines(d[1..])
  }

  function SectionLines(e: Entry<string>): seq<string> {
    ["", "## " + e.key] + if Norm(e.value) == "" then [] else [""] + Split(Norm(e.value))
  }

  function AllSectionLines(d: Dict<string>): seq<string> {
    if d == [] then [] else SectionLines(d[0]) + AllSectionLines(d[1..])
  }

  const FENCE: string := "---"

  function RenderLines(n: Need): seq<string> {
    [FENCE] + FieldLines(Reorder(FIELDS, n.fields)) + [FENCE] + AllSectionLines(Reorder(SECTIONS, n.sections))
  }

  function Render(n: Need): string { Join(RenderLines(n), "\n") + "\n" }

  method RenderLoop(n: Need) returns (text: string)
    ensures text == Render(n)
  {
    hide *;
    var lines := [FENCE];
    var fields := Reorder(FIELDS, n.fields);
    for i := 0 to |fields|
      invariant lines + FieldLines(fields[i..]) == [FENCE] + FieldLines(fields)
    {
      FieldLinesStep(fields, i);
      lines := lines + [FieldLine(fields[i])];
    }
    FieldLinesEnd(fields);
    assert lines == [FENCE] + FieldLines(fields);
    lines := lines + [FENCE];
    ghost var front := lines;
    var names := Reorder(SECTIONS, n.sections);
    for i := 0 to |names|
      invariant lines + AllSectionLines(names[i..]) == front + AllSectionLines(names)
    {
      SectionLinesStep(names, i);
      lines := lines + SectionLines(names[i]);
    }
    SectionLinesEnd(names);
    assert lines == front + AllSectionLines(names);
    RenderIs(n, lines);
    text := Join(lines, "\n") + "\n";
  }

  lemma RenderIs(n: Need, lines: seq<string>)
    requires lines ==
      [FENCE] + FieldLines(Reorder(FIELDS, n.fields)) + [FENCE] + AllSectionLines(Reorder(SECTIONS, n.sections))
    ensures Render(n) == Join(lines, "\n") + "\n"
  {
    hide FieldLines, AllSectionLines, Reorder, FIELDS, SECTIONS, FENCE, Join;
  }

  lemma FieldLinesStep(d: Dict<Value>, i: nat)
    requires i < |d|
    ensures FieldLines(d[i..]) == [FieldLine(d[i])] + FieldLines(d[i + 1..])
  {
    assert d[i..][1..] == d[i + 1..];
  }

  lemma FieldLinesEnd(d: Dict<Value>)
    ensures FieldLines(d[|d|..]) == []
  {
  }

  lemma SectionLinesStep(d: Dict<string>, i: nat)
    requires i < |d|
    ensures AllSectionLines(d[i..]) == SectionLines(d[i]) + AllSectionLines(d[i + 1..])
  {
    assert d[i..][1..] == d[i + 1..];
  }

  lemma SectionLinesEnd(d: Dict<string>)
    ensures AllSectionLines(d[|d|..]) == []
  {
  }

  // ---------- parsing ----------

  /** line.splitlines(); a piece after the last break that is empty is a blank line and is skipped
      by the reader anyway. */
  function Pieces(line: string): (pieces: seq<string>)
    ensures pieces != []
  {
    if line == "" then [""]
    else
      var rest := Pieces(line[1..]);
      if IsBreak(line[0]) then [""] + rest else OntoFirst(line[0], rest)
  }

  function AllPieces(lines: seq<string>): seq<string> {
    if lines == [] then [] else Pieces(lines[0]) + AllPieces(lines[1..])
  }

  predicate KeyStart(c: char) { 'A' <= c <= 'Z' || 'a' <= c <= 'z' || c == '_' }

  predicate KeyChar(c: char) { KeyStart(c) || IsDigit(c) || c == '-' }

  function KeyLength(s: string): (n: nat)
    ensures n <= |s|
  {
    if s != "" && KeyChar(s[0]) then 1 + KeyLength(s[1..]) else 0
  }

  /** ^([A-Za-z_][A-Za-z0-9_-]*):(?:[ \t]+(.*))?$ */
  function KeyAndRest(line: string): Option<(string, string)> {
    var k := KeyLength(line);
    if k == 0 || !KeyStart(line[0]) || k == |line| || line[k] != ':' then None
    else if k + 1 == |line| then Some((line[..k], ""))
    else if Blank(line[k + 1]) then Some((line[..k], DropBlanks(line[k + 1..])))
    else None
  }

  predicate Skipped(line: string) { Strip(line) == "" || (LStrip(line) != "" && LStrip(line)[0] == '#') }

  /** What one front-matter line does to the fields read so far. */
  function ReadField(py: Numbers, line: string, fields: Dict<Value>): Dict<Value> {
    if Skipped(line) then fields
    else
      var kv := KeyAndRest(line);
      if kv.None? then fields
      else Put(fields, kv.value.0, Coerce(py, kv.value.0, ParseValue(py, kv.value.1)))
  }

  function ReadFields(py: Numbers, lines: seq<string>, fields: Dict<Value>): Dict<Value> {
    if lines == [] then fields else ReadFields(py, lines[1..], ReadField(py, lines[0], fields))
  }

  /** How many lines there are before the next heading. */
  function BodyLength(lines: seq<string>): (n: nat)
    ensures n <= |lines|
  {
    if lines == [] || Heading(lines[0]) then 0 else 1 + BodyLength(lines[1..])
  }

  function ReadSections(lines: seq<string>, sections: Dict<string>): Dict<string>
    decreases |lines|
  {
    if lines == [] then sections
    else if !Heading(lines[0]) then ReadSections(lines[1..], sections)
    else
      var n := BodyLength(lines[1..]);
      ReadSections(lines[1 + n..], Put(sections, HeadingName(lines[0]), Norm(Join(lines[1..1 + n], "\n"))))
  }

  predicate StartsFence(line: string) { FENCE <= line }

  /** The first line at or after k that starts with the fence. */
  function FenceAt(lines: seq<string>, k: nat): (f: nat)
    requires k <= |lines|
    ensures k <= f <= |lines|
    ensures f < |lines| ==> StartsFence(lines[f])
    decreases |lines| - k
  {
    if k == |lines| || StartsFence(lines[k]) then k else FenceAt(lines, k + 1)
  }

  /** The text after the fence: what the fence line holds beyond the dashes belongs to the body. */
  function Tail(lines: seq<string>, k: nat): seq<string>
    requires k < |lines| && StartsFence(lines[k])
  {
    (if lines[k] == FENCE then [] else [lines[k][3..]]) + lines[k + 1..]
  }

  predicate Truthy(v: Option<Value>) {
    match v
    case None => false
    case Some(One(Null)) => false
    case Some(One(Bool(b))) => b
    case Some(One(Int(n))) => n != 0
    case Some(One(Float(r))) => r != "0.0" && r != "-0.0"
    case Some(One(Str(s))) => s != ""
    case Some(List(items)) => items != []
  }

  const ID: string := "need_id"

  /** stem is the file name without its extension. */
  function Named(fields: Dict<Value>, stem: string): Dict<Value> {
    if Truthy(Get(fields, ID)) then fields else Put(fields, ID, One(Str(stem)))
  }

  function ParseLines(py: Numbers, stem: string, lines: seq<string>): Parsed {
    if |lines| < 2 || lines[0] != FENCE then NoFrontMatter
    else
      var k := FenceAt(lines, 2);
      if k == |lines| then NoFrontMatter
      else
        var fields := ReadFields(py, AllPieces(lines[1..k]), []);
        Parsed(Need(Named(fields, stem), ReadSections(Tail(lines, k), [])))
  }

  /** parse(path) on the file's characters. */
  function Parse(py: Numbers, stem: string, file: string): Parsed {
    ParseLines(py, stem, Split(Newlines(file)))
  }

  method ReadFieldsLoop(py: Numbers, lines: seq<string>) returns (fields: Dict<Value>)
    ensures fields == ReadFields(py, lines, [])
  {
    hide Skipped, KeyAndRest, Coerce, ParseValue, Put;
    fields := [];
    for i := 0 to |lines|
      invariant ReadFields(py, lines[i..], fields) == ReadFields(py, lines, [])
    {
      var line := lines[i];
      assert lines[i..][1..] == lines[i + 1..];
      assert ReadFields(py, lines[i..], fields) == ReadFields(py, lines[i + 1..], ReadField(py, line, fields));
      if Skipped(line) {
        continue;
      }
      var kv := KeyAndRest(line);
      if kv.None? {
        continue;
      }
      fields := Put(fields, kv.value.0, Coerce(py, kv.value.0, ParseValue(py, kv.value.1)));
    }
  }

  method ReadSectionsLoop(lines: seq<string>) returns (sections: Dict<string>)
    ensures sections == ReadSections(lines, [])
  {
    hide Heading, HeadingName, Norm, Join, Put;
    sections := [];
    var i := 0;
    while i < |lines|
      invariant i <= |lines| && ReadSections(lines[i..], sections) == ReadSections(lines, [])
    {
      assert lines[i..][1..] == lines[i + 1..];
      if Heading(lines[i]) {
        var n := BodyLength(lines[i + 1..]);
        assert lines[i..][1..1 + n] == lines[i + 1..i + 1 + n] && lines[i..][1 + n..] == lines[i + 1 + n..];
        sections := Put(sections, HeadingName(lines[i]), Norm(Join(lines[i + 1..i + 1 + n], "\n")));
        i := i + 1 + n;
      } else {
        i := i + 1;
      }
    }
  }

  method ParseLoop(py: Numbers, stem: string, file: string) returns (r: Parsed)
    ensures r == Parse(py, stem, file)
  {
    hide Split, Newlines, FENCE, ID, ReadFields, ReadSections, AllPieces, Truthy, Put;
    var lines := Split(Newlines(file));
    if |lines| < 2 || lines[0] != FENCE {
      return NoFrontMatter;
    }
    var k := 2;
    while k < |lines| && !StartsFence(lines[k])
      invariant 2 <= k <= |lines| && FenceAt(lines, k) == FenceAt(lines, 2)
    {
      k := k + 1;
    }
    if k == |lines| {
      return NoFrontMatter;
    }
    var fields := ReadFieldsLoop(py, AllPieces(lines[1..k]));
    var sections := ReadSectionsLoop(Tail(lines, k));
    if !Truthy(Get(fields, ID)) {
      fields := Put(fields, ID, One(Str(stem)));
    }
    r := Parsed(Need(fields, sections));
  }
}
