/** The scalar and flow-list dialect of scripts/repipe/needs.py: printer, parser, and exactly when
    the parser gives back what the printer wrote. */
module NeedValues {

  datatype Scalar = Null | Bool(b: bool) | Int(n: int) | Float(repr: string) | Str(s: string)

  datatype Value = One(scalar: Scalar) | List(items: seq<Scalar>)

  /** Python's number conversions. A float is known by its repr: `canon(text)` is repr(float(text)). */
  datatype Numbers = Numbers(
    canon: string -> string,
    intOfText: string -> Option<int>,
    intOfFloat: string -> int,
    floatOfText: string -> Option<string>,
    floatOfInt: int -> string)

  datatype Option<+T> = None | Some(value: T)

  // ---------- characters ----------

  /** The characters str.strip() removes. */
  predicate IsSpace(c: char) {
    var n := c as int;
    || 0x09 <= n <= 0x0d || 0x1c <= n <= 0x20 || n == 0x85 || n == 0xa0 || n == 0x1680
    || 0x2000 <= n <= 0x200a || n == 0x2028 || n == 0x2029 || n == 0x202f || n == 0x205f || n == 0x3000
  }

  /** The characters str.splitlines() breaks at. */
  predicate IsBreak(c: char) {
    var n := c as int;
    0x0a <= n <= 0x0d || 0x1c <= n <= 0x1e || n == 0x85 || n == 0x2028 || n == 0x2029
  }

  /** The line breaks the printer does not escape. */
  predicate IsExotic(c: char) { IsBreak(c) && c != '\n' && c != '\r' }

  predicate IsDigit(c: char) { '0' <= c <= '9' }

  predicate NumberChar(c: char) { IsDigit(c) || c in "+-.eE" }

  const SIGILS: string := "\"'[]{}&*!|>%@`#-?:,"

  // ---------- strip ----------

  function LStrip(s: string): string {
    if s != "" && IsSpace(s[0]) then LStrip(s[1..]) else s
  }

  function RStrip(s: string): string {
    if s != "" && IsSpace(s[|s| - 1]) then RStrip(s[..|s| - 1]) else s
  }

  function Strip(s: string): string { LStrip(RStrip(s)) }

  /** Text with nothing to strip at either end. */
  predicate Trimmed(s: string) {
    s != "" && !IsSpace(s[0]) && !IsSpace(s[|s| - 1])
  }

  lemma StripTrimmed(s: string)
    requires Trimmed(s)
    ensures Strip(s) == s && Strip(" " + s) == s
  {
    hide IsSpace;
    assert IsSpace(' ') by { assert (' ' as int) == 0x20; SpaceIsSpace(); }
    assert (" " + s)[1..] == s;
    assert LStrip(" " + s) == LStrip(s) == s;
  }

  lemma SpaceIsSpace()
    ensures IsSpace(' ')
  {
  }

  lemma {:induction false} RStripPrefix(s: string)
    ensures RStrip(s) <= s && (RStrip(s) == "" || !IsSpace(RStrip(s)[|RStrip(s)| - 1]))
    ensures forall c | c in RStrip(s) :: c in s
    ensures s != "" && !IsSpace(s[0]) ==> RStrip(s) != ""
  {
    hide IsSpace;
    if s != "" && IsSpace(s[|s| - 1]) {
      var t := s[..|s| - 1];
      RStripPrefix(t);
      assert forall c | c in t :: c in s;
    }
  }

  lemma {:induction false} LStripSuffix(s: string)
    ensures LStrip(s) != "" ==> s != ""
    ensures LStrip(s) == "" || (!IsSpace(LStrip(s)[0]) && LStrip(s)[|LStrip(s)| - 1] == s[|s| - 1])
    ensures forall c | c in LStrip(s) :: c in s
  {
    hide IsSpace;
    if s != "" && IsSpace(s[0]) {
      LStripSuffix(s[1..]);
      assert forall c | c in s[1..] :: c in s;
    }
  }

  lemma StripFacts(s: string)
    ensures Strip(s) == "" || Trimmed(Strip(s))
    ensures forall c | c in Strip(s) :: c in s
  {
    hide IsSpace, LStrip, RStrip;
    RStripPrefix(s);
    LStripSuffix(RStrip(s));
  }

  // ---------- escapes ----------

  function Meaning(c: char): char {
    if c == 'n' then '\n' else if c == 't' then '\t' else if c == 'r' then '\r' else c
  }

  function Unescape(s: string): string {
    if s == "" then ""
    else if s[0] == '\\' && |s| > 1 then [Meaning(s[1])] + Unescape(s[2..])
    else [s[0]] + Unescape(s[1..])
  }

  lemma UnescapeStep(s: string, i: nat)
    requires i < |s|
    ensures Unescape(s[i..]) ==
      if s[i] == '\\' && i + 1 < |s| then [Meaning(s[i + 1])] + Unescape(s[i + 2..]) else [s[i]] + Unescape(s[i + 1..])
  {
    assert s[i..][1..] == s[i + 1..];
    if i + 1 < |s| {
      assert s[i..][2..] == s[i + 2..];
    }
  }

  method UnescapeLoop(s: string) returns (out: string)
    ensures out == Unescape(s)
  {
    hide *;
    out := "";
    var i := 0;
    assert s[0..] == s;
    while i < |s|
      invariant 0 <= i <= |s| && out + Unescape(s[i..]) == Unescape(s)
    {
      var c := s[i];
      UnescapeStep(s, i);
      if c == '\\' && i + 1 < |s| {
        i := i + 1;
        MoveOver(out, Meaning(s[i]), Unescape(s[i + 1..]));
        out := out + [Meaning(s[i])];
      } else {
        MoveOver(out, c, Unescape(s[i + 1..]));
        out := out + [c];
      }
      i := i + 1;
    }
    assert s[i..] == "" && Unescape("") == "" by { UnescapeNothing(); }
  }

  lemma MoveOver(a: string, c: char, b: string)
    ensures a + ([c] + b) == (a + [c]) + b
  {
  }

  lemma UnescapeNothing()
    ensures Unescape("") == ""
  {
  }

  /** s.replace(c, t) for a single character c. */
  function Replace(s: string, c: char, t: string): string {
    if s == "" then "" else (if s[0] == c then t else [s[0]]) + Replace(s[1..], c, t)
  }

  /** The printer's chain of replacements. */
  function Escape(s: string): string {
    var a := Replace(Replace(s, '\\', "\\\\"), '"', "\\\"");
    Replace(Replace(Replace(a, '\n', "\\n"), '\r', "\\r"), '\t', "\\t")
  }

  /** What the chain does to one character. */
  function EscapeChar(c: char): string {
    if c == '\\' then "\\\\"
    else if c == '"' then "\\\""
    else if c == '\n' then "\\n"
    else if c == '\r' then "\\r"
    else if c == '\t' then "\\t"
    else [c]
  }

  function EscapeChars(s: string): string {
    if s == "" then "" else EscapeChar(s[0]) + EscapeChars(s[1..])
  }

  lemma {:induction false} ReplaceAppend(a: string, b: string, c: char, t: string)
    ensures Replace(a + b, c, t) == Replace(a, c, t) + Replace(b, c, t)
  {
    if a == "" {
      assert a + b == b;
    } else {
      assert (a + b)[1..] == a[1..] + b;
      ReplaceAppend(a[1..], b, c, t);
    }
  }

  lemma ReplaceShort(x: char, y: char, c: char, t: string)
    ensures Replace([x], c, t) == if x == c then t else [x]
    ensures Replace([x, y], c, t) == (if x == c then t else [x]) + (if y == c then t else [y])
  {
    assert [x][1..] == "" && [x, y][1..] == [y] && [y][1..] == "";
  }

  lemma EscapeOne(c: char)
    ensures Escape([c]) == EscapeChar(c)
  {
    hide Replace;
    ReplaceShort(c, c, '\\', "\\\\");
    ReplaceShort(c, c, '"', "\\\"");
    ReplaceShort(c, c, '\n', "\\n");
    ReplaceShort(c, c, '\r', "\\r");
    ReplaceShort(c, c, '\t', "\\t");
    assert "\\\\" == ['\\', '\\'] && "\\\"" == ['\\', '"'] && "\\n" == ['\\', 'n'] && "\\r" == ['\\', 'r'];
    if c == '\\' || c == '"' {
      assert ['\\'] + [c] == ['\\', c];
      ReplaceShort('\\', c, '"', "\\\"");
      ReplaceShort('\\', c, '\n', "\\n");
      ReplaceShort('\\', c, '\r', "\\r");
      ReplaceShort('\\', c, '\t', "\\t");
    } else if c == '\n' {
      assert ['\\'] + ['n'] == "\\n";
      ReplaceShort('\\', 'n', '\r', "\\r");
      ReplaceShort('\\', 'n', '\t', "\\t");
    } else if c == '\r' {
      assert ['\\'] + ['r'] == "\\r";
      ReplaceShort('\\', 'r', '\t', "\\t");
    }
  }

  lemma EscapeAppend(a: string, b: string)
    ensures Escape(a + b) == Escape(a) + Escape(b)
  {
    hide Replace;
    ReplaceAppend(a, b, '\\', "\\\\");
    var a1, b1 := Replace(a, '\\', "\\\\"), Replace(b, '\\', "\\\\");
    ReplaceAppend(a1, b1, '"', "\\\"");
    var a2, b2 := Replace(a1, '"', "\\\""), Replace(b1, '"', "\\\"");
    ReplaceAppend(a2, b2, '\n', "\\n");
    var a3, b3 := Replace(a2, '\n', "\\n"), Replace(b2, '\n', "\\n");
    ReplaceAppend(a3, b3, '\r', "\\r");
    ReplaceAppend(Replace(a3, '\r', "\\r"), Replace(b3, '\r', "\\r"), '\t', "\\t");
  }

  /** The five sequential replacements act character by character. */
  lemma {:induction false} EscapeIsCharwise(s: string)
    ensures Escape(s) == EscapeChars(s)
  {
    if s != "" {
      hide Escape, EscapeChar;
      assert s == [s[0]] + s[1..];
      EscapeAppend([s[0]], s[1..]);
      EscapeOne(s[0]);
      EscapeIsCharwise(s[1..]);
    }
  }

  lemma UnescapeFirst(c: char, rest: string)
    ensures Unescape(EscapeChar(c) + rest) == [c] + Unescape(rest)
  {
    var e := EscapeChar(c);
    if |e| == 2 {
      assert (e + rest)[2..] == rest;
    } else {
      assert (e + rest)[1..] == rest;
    }
  }

  lemma {:induction false} UnescapeCharwise(s: string)
    ensures Unescape(EscapeChars(s)) == s
  {
    if s != "" {
      UnescapeCharwise(s[1..]);
      UnescapeFirst(s[0], EscapeChars(s[1..]));
      hide Unescape, EscapeChar;
    }
  }

  /** Unescape inverts the escape chain, on every string. */
  lemma UnescapeInvertsEscape(s: string)
    ensures Unescape(Escape(s)) == s
  {
    EscapeIsCharwise(s);
    UnescapeCharwise(s);
  }

  // ---------- numbers ----------

  predicate Digits(s: string) { s != "" && forall i | 0 <= i < |s| :: IsDigit(s[i]) }

  function Unsigned(s: string): string {
    if s != "" && (s[0] == '+' || s[0] == '-') then s[1..] else s
  }

  /** ^[+-]?\d+$ */
  predicate IntText(s: string) { Digits(Unsigned(s)) }

  function SkipDigits(s: string): string {
    if s != "" && IsDigit(s[0]) then SkipDigits(s[1..]) else s
  }

  predicate ExponentText(s: string) {
    s == "" || ((s[0] == 'e' || s[0] == 'E') && IntText(s[1..]))
  }

  /** ^[+-]?(\d+\.\d*|\.\d+|\d+)([eE][+-]?\d+)?$ */
  predicate FloatText(s: string) {
    var m := Unsigned(s);
    m != "" &&
    if IsDigit(m[0]) then
      var r := SkipDigits(m);
      ExponentText(if r != "" && r[0] == '.' then SkipDigits(r[1..]) else r)
    else m[0] == '.' && |m| > 1 && IsDigit(m[1]) && ExponentText(SkipDigits(m[1..]))
  }

  lemma {:induction false} SkipDigitsChars(s: string)
    requires forall c | c in SkipDigits(s) :: NumberChar(c)
    ensures forall c | c in s :: NumberChar(c)
  {
    if s != "" && IsDigit(s[0]) {
      SkipDigitsChars(s[1..]);
      assert forall c | c in s :: c == s[0] || c in s[1..];
    }
  }

  lemma IntTextChars(s: string)
    requires IntText(s)
    ensures s != "" && forall c | c in s :: NumberChar(c)
  {
    assert forall c | c in s :: c == s[0] || c in Unsigned(s);
  }

  lemma ExponentChars(s: string)
    requires ExponentText(s)
    ensures forall c | c in s :: NumberChar(c)
  {
    if s != "" {
      IntTextChars(s[1..]);
      assert forall c | c in s :: c == s[0] || c in s[1..];
    }
  }

  lemma FloatTextChars(s: string)
    requires FloatText(s)
    ensures s != "" && forall c | c in s :: NumberChar(c)
  {
    hide ExponentText;
    var m := Unsigned(s);
    if IsDigit(m[0]) {
      var r := SkipDigits(m);
      if r != "" && r[0] == '.' {
        ExponentChars(SkipDigits(r[1..]));
        SkipDigitsChars(r[1..]);
        assert forall c | c in r :: c == r[0] || c in r[1..];
      } else {
        ExponentChars(r);
      }
      SkipDigitsChars(m);
    } else {
      ExponentChars(SkipDigits(m[1..]));
      SkipDigitsChars(m[1..]);
      assert forall c | c in m :: c == m[0] || c in m[1..];
    }
    assert forall c | c in s :: c == s[0] || c in m;
  }

  lemma NumberCharsPlain(c: char)
    requires NumberChar(c)
    ensures !IsSpace(c) && !IsBreak(c) && c !in ",\"[]\\"
  {
  }

  /** str(n) for a natural number. */
  function Decimal(n: nat): (s: string)
    ensures Digits(s)
  {
    if n < 10 then [('0' as int + n) as char] else Decimal(n / 10) + [('0' as int + n % 10) as char]
  }

  function DigitValue(c: char): nat
    requires IsDigit(c)
  {
    c as int - '0' as int
  }

  function DecimalValue(s: string): nat
    requires forall i | 0 <= i < |s| :: IsDigit(s[i])
  {
    if s == "" then 0
    else
      assert IsDigit(s[|s| - 1]);
      10 * DecimalValue(s[..|s| - 1]) + DigitValue(s[|s| - 1])
  }

  lemma {:induction false} DecimalRoundTrip(n: nat)
    ensures DecimalValue(Decimal(n)) == n
  {
    if n < 10 {
      assert Decimal(n)[..0] == "";
    } else {
      DecimalRoundTrip(n / 10);
      assert Decimal(n)[..|Decimal(n)| - 1] == Decimal(n / 10);
    }
  }

  function IntToText(n: int): (s: string)
    ensures IntText(s)
  {
    if n < 0 then
      var s := "-" + Decimal(-n);
      assert s[1..] == Decimal(-n);
      s
    else
      Decimal(n)
  }

  /** int(s) for text the integer pattern accepts. */
  function TextToInt(s: string): int
    requires IntText(s)
  {
    var v: int := DecimalValue(Unsigned(s));
    if s[0] == '-' then -v else v
  }

  lemma IntRoundTrip(n: int)
    ensures TextToInt(IntToText(n)) == n
  {
    if n < 0 {
      DecimalRoundTrip(-n);
      assert ("-" + Decimal(-n))[1..] == Decimal(-n);
    } else {
      DecimalRoundTrip(n);
      assert IsDigit(Decimal(n)[0]);
    }
  }

  // ---------- scalars ----------

  predicate Quoted(s: string) { |s| >= 2 && s[0] == '"' && s[|s| - 1] == '"' }

  function ParseScalar(py: Numbers, raw: string): Scalar {
    var s := Strip(raw);
    if Quoted(s) then Str(Unescape(s[1..|s| - 1]))
    else if s == "" || s == "null" || s == "~" then Null
    else if s == "true" then Bool(true)
    else if s == "false" then Bool(false)
    else if IntText(s) then Int(TextToInt(s))
    else if FloatText(s) then Float(py.canon(s))
    else Str(s)
  }

  predicate MustQuote(s: string, inList: bool) {
    || s == "" || s != Strip(s)
    || s in ["null", "~", "true", "false"]
    || IntText(s) || FloatText(s)
    || s[0] in SIGILS
    || '#' in s || '\n' in s || '\r' in s || '\t' in s
    || (inList && (',' in s || '[' in s || ']' in s))
  }

  function EmitScalar(v: Scalar, inList: bool): string {
    match v
    case Null => "null"
    case Bool(b) => if b then "true" else "false"
    case Int(n) => IntToText(n)
    case Float(repr) => repr
    case Str(s) => if MustQuote(s, inList) then "\"" + Escape(s) + "\"" else s
  }

  /** A finite float: its repr is float text, is not integer text, and names the float exactly. */
  predicate Finite(py: Numbers, v: Scalar) {
    v.Float? ==> FloatText(v.repr) && !IntText(v.repr) && py.canon(v.repr) == v.repr
  }

  const NONFINITE: seq<string> := ["inf", "-inf", "nan"]

  /** Any float there is: a finite one, or one of those that print as a word and come back as text. */
  predicate Known(py: Numbers, v: Scalar) {
    v.Float? ==> Finite(py, v) || v.repr in NONFINITE
  }

  /** The conversions make such floats only, and 0.0 prints as itself. */
  ghost predicate Lawful(py: Numbers) {
    && (forall s | FloatText(s) :: Known(py, Float(py.canon(s))))
    && (forall s :: py.floatOfText(s).Some? ==> Known(py, Float(py.floatOfText(s).value)))
    && (forall n :: Known(py, Float(py.floatOfInt(n))))
    && py.canon("0.0") == "0.0"
  }

  lemma NonfiniteWord(s: string)
    requires s in NONFINITE
    ensures Trimmed(s) && s[0] != '"' && forall c | c in s :: c in "-infa"
  {
    assert s == ['i', 'n', 'f'] || s == ['-', 'i', 'n', 'f'] || s == ['n', 'a', 'n'];
    assert !IsSpace('i') && !IsSpace('f') && !IsSpace('-') && !IsSpace('n') by {
      assert 'i' as int == 0x69 && 'f' as int == 0x66 && '-' as int == 0x2d && 'n' as int == 0x6e;
    }
  }

  lemma NumberTrimmed(s: string)
    requires s != "" && forall c | c in s :: NumberChar(c)
    ensures Trimmed(s) && !Quoted(s) && s != "null" && s != "~" && s != "true" && s != "false"
  {
    hide IsSpace;
    NumberCharsPlain(s[0]);
    NumberCharsPlain(s[|s| - 1]);
    assert 'u' in "null" && 'u' in "true" && 'a' in "false" && !NumberChar('u') && !NumberChar('a') by {
      assert "null"[1] == 'u' && "true"[2] == 'u' && "false"[1] == 'a';
    }
  }

  /** Whatever is printed has no blank at either end. */
  lemma EmittedTrimmed(py: Numbers, v: Scalar, inList: bool)
    requires Known(py, v)
    ensures Trimmed(EmitScalar(v, inList))
  {
    match v
    case Int(n) => IntTextChars(IntToText(n)); NumberTrimmed(IntToText(n));
    case Float(r) =>
      if Finite(py, v) {
        FloatTextChars(r);
        NumberTrimmed(r);
      } else {
        NonfiniteWord(r);
      }
    case Str(s) =>
      if !MustQuote(s, inList) {
        StripFacts(s);
      }
    case _ =>
  }

  lemma NotNumber(s: string, k: nat)
    requires k < |s| && !NumberChar(s[k])
    ensures !IntText(s) && !FloatText(s)
  {
    hide FloatText, IntText;
    assert s[k] in s;
    if IntText(s) {
      IntTextChars(s);
    }
    if FloatText(s) {
      FloatTextChars(s);
    }
  }

  lemma NumberParses(py: Numbers, v: Scalar, raw: string, inList: bool)
    requires (v.Int? || v.Float?) && Finite(py, v) && Strip(raw) == EmitScalar(v, inList)
    ensures ParseScalar(py, raw) == v
  {
    var e := EmitScalar(v, inList);
    if v.Int? {
      IntTextChars(e);
      IntRoundTrip(v.n);
    } else {
      FloatTextChars(e);
    }
    NumberTrimmed(e);
    hide Strip, FloatText, IntText, Trimmed, Unescape, Quoted;
  }

  lemma StringParses(py: Numbers, s: string, raw: string, inList: bool)
    requires Strip(raw) == EmitScalar(Str(s), inList)
    ensures ParseScalar(py, raw) == Str(s)
  {
    if MustQuote(s, inList) {
      var e := "\"" + Escape(s) + "\"";
      UnescapeInvertsEscape(s);
      hide Escape, Unescape, MustQuote, IntText, FloatText, Strip;
      assert e[1..|e| - 1] == Escape(s);
    } else {
      BareParses(s, inList);
      hide Escape, Unescape, MustQuote, IntText, FloatText, Strip;
    }
  }

  lemma BareParses(s: string, inList: bool)
    requires !MustQuote(s, inList)
    ensures s != "" && s != "null" && s != "~" && s != "true" && s != "false" && !IntText(s) && !FloatText(s) && s[0] != '"'
  {
    hide IntText, FloatText, Strip;
    assert SIGILS[0] == '"';
    assert "null" in ["null", "~", "true", "false"] && "~" in ["null", "~", "true", "false"];
    assert "true" in ["null", "~", "true", "false"] && "false" in ["null", "~", "true", "false"];
  }

  /** A scalar printed and parsed, with at most the one blank a list puts before it, is itself. */
  lemma ScalarRoundTrip(py: Numbers, v: Scalar, inList: bool)
    requires Finite(py, v)
    ensures ParseScalar(py, EmitScalar(v, inList)) == v && ParseScalar(py, " " + EmitScalar(v, inList)) == v
  {
    var e := EmitScalar(v, inList);
    EmittedTrimmed(py, v, inList);
    StripTrimmed(e);
    hide Strip, FloatText, IntText, Trimmed, MustQuote, Escape, Unescape;
    forall raw | Strip(raw) == e ensures ParseScalar(py, raw) == v {
      match v
      case Str(s) => StringParses(py, s, raw, inList);
      case Null =>
      case Bool(b) =>
      case _ =>
        hide EmitScalar;
        NumberParses(py, v, raw, inList);
    }
  }

  // ---------- flow lists ----------

  function Join(parts: seq<string>, sep: string): string {
    if parts == [] then "" else if |parts| == 1 then parts[0] else parts[0] + sep + Join(parts[1..], sep)
  }

  function EmitItems(items: seq<Scalar>): seq<string> {
    seq(|items|, i requires 0 <= i < |items| => EmitScalar(items[i], true))
  }

  function EmitValue(v: Value): string {
    match v
    case One(s) => EmitScalar(s, false)
    case List(items) => "[" + Join(EmitItems(items), ", ") + "]"
  }

  /** The parts of a flow-list body, from a scanner that has collected buf. */
  function Parts(s: string, buf: string, quoted: bool, esc: bool): (parts: seq<string>)
    ensures parts != []
    decreases |s|
  {
    if s == "" then [buf]
    else
      var c := s[0];
      if esc then Parts(s[1..], buf + [c], quoted, false)
      else if c == '\\' && quoted then Parts(s[1..], buf + [c], quoted, true)
      else if c == '"' then Parts(s[1..], buf + [c], !quoted, false)
      else if c == ',' && !quoted then [buf] + Parts(s[1..], "", quoted, false)
      else Parts(s[1..], buf + [c], quoted, false)
  }

  function NonBlank(parts: seq<string>): seq<string> {
    if parts == [] then []
    else (if Strip(parts[0]) != "" then [parts[0]] else []) + NonBlank(parts[1..])
  }

  function SplitFlow(inner: string): seq<string> {
    NonBlank(Parts(inner, "", false, false))
  }

  method CollectParts(inner: string) returns (parts: seq<string>)
    ensures parts == Parts(inner, "", false, false)
  {
    parts := [];
    var buf, quoted, esc := "", false, false;
    for i := 0 to |inner|
      invariant parts + Parts(inner[i..], buf, quoted, esc) == Parts(inner, "", false, false)
    {
      var ch := inner[i];
      assert inner[i..][1..] == inner[i + 1..];
      if esc {
        buf, esc := buf + [ch], false;
      } else if ch == '\\' && quoted {
        buf, esc := buf + [ch], true;
      } else if ch == '"' {
        quoted, buf := !quoted, buf + [ch];
      } else if ch == ',' && !quoted {
        parts, buf := parts + [buf], "";
      } else {
        buf := buf + [ch];
      }
    }
    assert inner[|inner|..] == "" && Parts("", buf, quoted, esc) == [buf];
    parts := parts + [buf];
  }

  method SplitFlowLoop(inner: string) returns (r: seq<string>)
    ensures r == SplitFlow(inner)
  {
    hide Strip;
    var parts := CollectParts(inner);
    r := [];
    if |parts| > 1 || Strip(parts[0]) != "" {
      for i := 0 to |parts|
        invariant r + NonBlank(parts[i..]) == NonBlank(parts)
      {
        assert parts[i..][1..] == parts[i + 1..];
        if Strip(parts[i]) != "" {
          r := r + [parts[i]];
        }
      }
      assert parts[|parts|..] == [];
    } else {
      assert parts[1..] == [];
    }
  }

  function ParseParts(py: Numbers, parts: seq<string>): seq<Scalar> {
    seq(|parts|, i requires 0 <= i < |parts| => ParseScalar(py, parts[i]))
  }

  predicate Bracketed(s: string) { |s| >= 1 && s[0] == '[' && s[|s| - 1] == ']' }

  function ParseValue(py: Numbers, raw: string): Value {
    var s := Strip(raw);
    if Bracketed(s) then
      List(ParseParts(py, SplitFlow(if |s| >= 2 then s[1..|s| - 1] else "")))
    else One(ParseScalar(py, s))
  }

  // ---------- when a flow list comes back ----------

  /** The scanner's quote and escape flags after s, when it met no comma outside quotes. */
  datatype Flags = Flags(quoted: bool, esc: bool)

  function Scan(s: string, f: Flags): Flags {
    if s == "" then f
    else if f.esc then Scan(s[1..], f.(esc := false))
    else if s[0] == '\\' && f.quoted then Scan(s[1..], f.(esc := true))
    else if s[0] == '"' then Scan(s[1..], f.(quoted := !f.quoted))
    else Scan(s[1..], f)
  }

  predicate NoSplit(s: string, f: Flags) {
    s == "" ||
    if f.esc then NoSplit(s[1..], f.(esc := false))
    else if s[0] == '\\' && f.quoted then NoSplit(s[1..], f.(esc := true))
    else if s[0] == '"' then NoSplit(s[1..], f.(quoted := !f.quoted))
    else (s[0] != ',' || f.quoted) && NoSplit(s[1..], f)
  }

  const OUTSIDE := Flags(false, false)

  /** The quotes inside a printed list item are closed again at its end. Only a string that is
      printed bare and contains an odd pattern of quotes fails this. */
  predicate QuotesClosed(v: Scalar) { Scan(EmitScalar(v, true), OUTSIDE) == OUTSIDE }

  /** Every item but the last closes its quotes. */
  predicate Splits(v: Value) {
    v.List? ==> forall i | 0 <= i < |v.items| - 1 :: QuotesClosed(v.items[i])
  }

  lemma {:induction false} PartsSkip(a: string, rest: string, buf: string, f: Flags)
    requires NoSplit(a, f)
    ensures Parts(a + rest, buf, f.quoted, f.esc) == Parts(rest, buf + a, Scan(a, f).quoted, Scan(a, f).esc)
    decreases |a|
  {
    if a == "" {
      assert a + rest == rest && buf + a == buf;
    } else {
      assert (a + rest)[1..] == a[1..] + rest && buf + a == (buf + [a[0]]) + a[1..];
      var g := if f.esc then f.(esc := false)
               else if a[0] == '\\' && f.quoted then f.(esc := true)
               else if a[0] == '"' then f.(quoted := !f.quoted)
               else f;
      PartsSkip(a[1..], rest, buf + [a[0]], g);
    }
  }

  lemma {:induction false} ScanAppend(a: string, b: string, f: Flags)
    ensures Scan(a + b, f) == Scan(b, Scan(a, f))
    ensures NoSplit(a + b, f) <==> NoSplit(a, f) && NoSplit(b, Scan(a, f))
    decreases |a|
  {
    if a == "" {
      assert a + b == b;
    } else {
      assert (a + b)[1..] == a[1..] + b;
      var g := if f.esc then f.(esc := false)
               else if a[0] == '\\' && f.quoted then f.(esc := true)
               else if a[0] == '"' then f.(quoted := !f.quoted)
               else f;
      ScanAppend(a[1..], b, g);
    }
  }

  lemma ScanPiece(c: char)
    ensures Scan(EscapeChar(c), Flags(true, false)) == Flags(true, false) && NoSplit(EscapeChar(c), Flags(true, false))
  {
    var e := EscapeChar(c);
    if |e| == 2 {
      var last := e[1..];
      assert last[1..] == "";
      assert Scan(last, Flags(true, true)) == Flags(true, false) && NoSplit(last, Flags(true, true));
    } else {
      assert e[1..] == "";
    }
  }

  lemma {:induction false} ScanEscaped(s: string)
    ensures Scan(EscapeChars(s), Flags(true, false)) == Flags(true, false)
    ensures NoSplit(EscapeChars(s), Flags(true, false))
  {
    if s != "" {
      hide Scan, NoSplit, EscapeChar;
      ScanEscaped(s[1..]);
      ScanPiece(s[0]);
      ScanAppend(EscapeChar(s[0]), EscapeChars(s[1..]), Flags(true, false));
    }
  }

  lemma QuoteScan()
    ensures Scan("\"", OUTSIDE) == Flags(true, false) && Scan("\"", Flags(true, false)) == OUTSIDE
    ensures NoSplit("\"", OUTSIDE) && NoSplit("\"", Flags(true, false))
  {
    assert "\""[1..] == "";
  }

  /** A quoted item never lets its commas or quotes reach the scanner. */
  lemma QuotedScan(s: string)
    ensures Scan("\"" + Escape(s) + "\"", OUTSIDE) == OUTSIDE && NoSplit("\"" + Escape(s) + "\"", OUTSIDE)
  {
    hide Scan, NoSplit;
    EscapeIsCharwise(s);
    ScanEscaped(s);
    QuoteScan();
    ScanAppend("\"", Escape(s), OUTSIDE);
    ScanAppend("\"" + Escape(s), "\"", OUTSIDE);
  }

  lemma {:induction false} NoCommaNoSplit(s: string, f: Flags)
    requires forall c | c in s :: c != ','
    ensures NoSplit(s, f)
    ensures (forall c | c in s :: c != '"') && f == OUTSIDE ==> Scan(s, f) == OUTSIDE
    decreases |s|
  {
    if s != "" {
      assert s[0] in s && forall c | c in s[1..] :: c in s;
      NoCommaNoSplit(s[1..], f.(esc := false));
      NoCommaNoSplit(s[1..], f.(esc := true));
      NoCommaNoSplit(s[1..], f.(quoted := !f.quoted));
      NoCommaNoSplit(s[1..], f);
    }
  }

  lemma NumberScan(s: string)
    requires forall c | c in s :: NumberChar(c)
    ensures NoSplit(s, OUTSIDE) && Scan(s, OUTSIDE) == OUTSIDE
  {
    forall c | c in s ensures c != ',' && c != '"' {
      NumberCharsPlain(c);
    }
    NoCommaNoSplit(s, OUTSIDE);
  }

  /** No printed item is cut, and only a bare string can leave a quote open. */
  lemma ItemScan(py: Numbers, v: Scalar)
    requires Finite(py, v)
    ensures NoSplit(EmitScalar(v, true), OUTSIDE)
    ensures !QuotesClosed(v) ==> v.Str? && !MustQuote(v.s, true)
  {
    hide Scan, NoSplit, MustQuote, FloatText;
    match v
    case Int(n) => IntTextChars(IntToText(n)); NumberScan(IntToText(n));
    case Float(r) => FloatTextChars(r); NumberScan(r);
    case Str(s) =>
      if MustQuote(s, true) {
        QuotedScan(s);
      } else {
        BareItem(s);
        NoCommaNoSplit(s, OUTSIDE);
      }
    case Null => NoCommaNoSplit("null", OUTSIDE);
    case Bool(b) => NoCommaNoSplit("true", OUTSIDE); NoCommaNoSplit("false", OUTSIDE);
  }

  lemma BareItem(s: string)
    requires !MustQuote(s, true)
    ensures Trimmed(s) && s[0] != '"' && forall c | c in s :: c != ','
  {
    StripFacts(s);
  }

  // ---------- lists ----------

  /** The items after the separators, as the scanner sees the text. */
  function ListText(items: seq<Scalar>): string {
    if items == [] then ""
    else if |items| == 1 then EmitScalar(items[0], true)
    else EmitScalar(items[0], true) + (", " + ListText(items[1..]))
  }

  lemma {:induction false} JoinIsListText(items: seq<Scalar>)
    ensures Join(EmitItems(items), ", ") == ListText(items)
  {
    if |items| > 1 {
      assert EmitItems(items)[1..] == EmitItems(items[1..]);
      JoinIsListText(items[1..]);
    }
  }

  /** The parsed items of the text from here on, buf being empty or the blank after a comma. */
  function ReadItems(py: Numbers, s: string, buf: string, f: Flags): seq<Scalar> {
    ParseParts(py, NonBlank(Parts(s, buf, f.quoted, f.esc)))
  }

  lemma ReadCons(py: Numbers, part: string, parts: seq<string>)
    requires Strip(part) != ""
    ensures ParseParts(py, NonBlank([part] + parts)) == [ParseScalar(py, part)] + ParseParts(py, NonBlank(parts))
  {
    assert ([part] + parts)[1..] == parts;
  }

  lemma CommaBlank(rest: string, buf: string)
    ensures Parts(", " + rest, buf, false, false) == [buf] + Parts(rest, " ", false, false)
  {
    assert (", " + rest)[1..] == " " + rest && (" " + rest)[1..] == rest && "" + " " == " ";
  }

  lemma BufferedItem(py: Numbers, v: Scalar, buf: string)
    requires Finite(py, v) && (buf == "" || buf == " ")
    ensures var p := buf + EmitScalar(v, true); Strip(p) != "" && ParseScalar(py, p) == v
  {
    EmittedTrimmed(py, v, true);
    StripTrimmed(EmitScalar(v, true));
    ScalarRoundTrip(py, v, true);
    assert "" + EmitScalar(v, true) == EmitScalar(v, true);
    hide Strip, ParseScalar, EmitScalar;
  }

  lemma {:induction false} ListReadsBack(py: Numbers, items: seq<Scalar>, buf: string)
    requires items != [] && (forall i | 0 <= i < |items| :: Finite(py, items[i])) && (buf == "" || buf == " ")
    requires forall i | 0 <= i < |items| - 1 :: QuotesClosed(items[i])
    ensures ReadItems(py, ListText(items), buf, OUTSIDE) == items
    decreases |items|
  {
    hide ParseScalar, Strip, EmitScalar, NoSplit, Scan, Finite, NonBlank, Parts, ParseParts;
    var e := EmitScalar(items[0], true);
    ItemScan(py, items[0]);
    BufferedItem(py, items[0], buf);
    if |items| == 1 {
      assert e + "" == e;
      PartsSkip(e, "", buf, OUTSIDE);
      LastPart(py, buf + e, Scan(e, OUTSIDE));
    } else {
      var rest := ListText(items[1..]);
      PartsSkip(e, ", " + rest, buf, OUTSIDE);
      CommaBlank(rest, buf + e);
      ReadCons(py, buf + e, Parts(rest, " ", false, false));
      ListReadsBack(py, items[1..], " ");
      assert items == [items[0]] + items[1..];
    }
  }

  lemma LastPart(py: Numbers, p: string, f: Flags)
    requires Strip(p) != ""
    ensures ParseParts(py, NonBlank(Parts("", p, f.quoted, f.esc))) == [ParseScalar(py, p)]
  {
    assert [p][1..] == [];
    assert NonBlank([p]) == [p];
  }

  // ---------- and when it does not ----------

  lemma {:induction false} ScanReachable(s: string, f: Flags)
    requires f.esc ==> f.quoted
    ensures Scan(s, f).esc ==> Scan(s, f).quoted
    decreases |s|
  {
    if s != "" {
      var g := if f.esc then f.(esc := false)
               else if s[0] == '\\' && f.quoted then f.(esc := true)
               else if s[0] == '"' then f.(quoted := !f.quoted)
               else f;
      ScanReachable(s[1..], g);
    }
  }

  lemma {:induction false} FirstPartStarts(s: string, buf: string, quoted: bool, esc: bool)
    ensures buf <= Parts(s, buf, quoted, esc)[0]
    decreases |s|
  {
    if s != "" {
      FirstPartStarts(s[1..], buf + [s[0]], quoted, false);
      FirstPartStarts(s[1..], buf + [s[0]], quoted, true);
      FirstPartStarts(s[1..], buf + [s[0]], !quoted, false);
    }
  }

  lemma {:induction false} RStripKeeps(a: string, c: char, b: string)
    requires !IsSpace(c)
    ensures a + [c] <= RStrip(a + [c] + b)
    decreases |b|
  {
    hide IsSpace;
    var s := a + [c] + b;
    if b == "" {
      assert s == a + [c];
    } else if IsSpace(s[|s| - 1]) {
      assert s[..|s| - 1] == a + [c] + b[..|b| - 1];
      RStripKeeps(a, c, b[..|b| - 1]);
    }
  }

  /** A string that holds both a double quote and a comma. */
  predicate QuotedComma(v: Scalar) { v.Str? && '"' in v.s && ',' in v.s }

  /** Text with a comma in it that does not start with a quote is a string. */
  lemma CommaIsText(py: Numbers, p: string, u: string, k: nat)
    requires Strip(p) == u && k < |u| && u[k] == ',' && u[0] != '"'
    ensures ParseScalar(py, p) == Str(u)
  {
    NotNumber(u, k);
    hide Strip, FloatText, IntText, Unescape;
    assert ',' in u && u != "null" && u != "~" && u != "true" && u != "false";
  }

  lemma BareStart(buf: string, e: string, p: string)
    requires Trimmed(e) && (buf == "" || buf == " ") && buf + e + "," <= p
    ensures e + "," <= Strip(p)
  {
    assert !IsSpace(',') by { assert ',' as int == 0x2c; }
    assert p == (buf + e) + [','] + p[|buf + e| + 1..];
    RStripKeeps(buf + e, ',', p[|buf + e| + 1..]);
    var t := RStrip(p);
    SpaceIsSpace();
    hide IsSpace, RStrip;
    var u := t[|buf|..];
    assert u[0] == e[0] && u[|e|] == ',' && u[..|e|] == e;
    if buf == "" {
      assert t == u;
    } else {
      assert t[0] == ' ' && t[1..] == u;
    }
    assert LStrip(t) == u;
  }

  /** Text that starts, after at most one blank, with a bare item and then has a comma is read as
      a longer string than the item. */
  lemma CommaIsRead(py: Numbers, buf: string, e: string, p: string)
    requires !MustQuote(e, true) && (buf == "" || buf == " ") && buf + e + "," <= p
    ensures Strip(p) != "" && ParseScalar(py, p) != Str(e)
    ensures '"' in e ==> QuotedComma(ParseScalar(py, p))
  {
    BareItem(e);
    BareStart(buf, e, p);
    hide Trimmed, Strip, MustQuote, ParseScalar;
    var u := Strip(p);
    assert u[0] == e[0] && u[|e|] == ',' && u[..|e|] == e;
    CommaIsText(py, p, u, |e|);
    assert ',' in u && ',' !in e;
    assert forall c | c in e :: c in u;
  }

  /** Only a string with a quote in it leaves a quote open. */
  lemma OpenHasQuote(py: Numbers, v: Scalar)
    requires Finite(py, v) && !QuotesClosed(v)
    ensures v.Str? && !MustQuote(v.s, true) && '"' in v.s
  {
    ItemScan(py, v);
    hide Scan, NoSplit, MustQuote;
    BareItem(v.s);
    NoCommaNoSplit(v.s, OUTSIDE);
  }

  /** An item that leaves a quote open swallows the comma after it. */
  lemma OpenItemMisread(py: Numbers, v: Scalar, rest: string, buf: string)
    requires Finite(py, v) && !QuotesClosed(v) && (buf == "" || buf == " ")
    ensures var r := ReadItems(py, EmitScalar(v, true) + (", " + rest), buf, OUTSIDE);
      r != [] && r[0] != v && QuotedComma(r[0])
  {
    hide ParseScalar, Strip, NoSplit, Scan, MustQuote, Finite;
    ItemScan(py, v);
    OpenHasQuote(py, v);
    var e := EmitScalar(v, true);
    assert e == v.s;
    var f := Scan(e, OUTSIDE);
    ScanReachable(e, OUTSIDE);
    PartsSkip(e, ", " + rest, buf, OUTSIDE);
    var parts := Parts(", " + rest, buf + e, f.quoted, f.esc);
    assert (", " + rest)[1..] == " " + rest && (", " + rest)[0] == ',';
    assert parts == Parts(" " + rest, buf + e + [','], f.quoted, false);
    FirstPartStarts(" " + rest, buf + e + [','], f.quoted, false);
    CommaIsRead(py, buf, e, parts[0]);
    assert parts == [parts[0]] + parts[1..];
    ReadCons(py, parts[0], parts[1..]);
  }

  lemma {:induction false} OpenListMisread(py: Numbers, items: seq<Scalar>, buf: string, k: nat)
    requires k < |items| - 1 && (forall i | 0 <= i < |items| :: Finite(py, items[i])) && (buf == "" || buf == " ")
    requires !QuotesClosed(items[k])
    ensures var r := ReadItems(py, ListText(items), buf, OUTSIDE); r != items && exists v | v in r :: QuotedComma(v)
    decreases |items|
  {
    hide ParseScalar, Strip, EmitScalar, NoSplit, Scan, Finite, NonBlank, Parts, ParseParts, QuotedComma;
    var e, rest := EmitScalar(items[0], true), ListText(items[1..]);
    var r := ReadItems(py, ListText(items), buf, OUTSIDE);
    if !QuotesClosed(items[0]) {
      OpenItemMisread(py, items[0], rest, buf);
      assert r[0] in r;
    } else {
      ItemScan(py, items[0]);
      BufferedItem(py, items[0], buf);
      PartsSkip(e, ", " + rest, buf, OUTSIDE);
      CommaBlank(rest, buf + e);
      ReadCons(py, buf + e, Parts(rest, " ", false, false));
      OpenListMisread(py, items[1..], " ", k - 1);
      assert items == [items[0]] + items[1..];
      assert r == [items[0]] + ReadItems(py, rest, " ", OUTSIDE);
      assert r[1..] == ReadItems(py, rest, " ", OUTSIDE);
    }
  }

  // ---------- equal list texts ----------

  /** Characters up to and with the quote that closes a quoted item. */
  function CloseLength(s: string): (n: nat)
    ensures n <= |s|
  {
    if s == "" then 0
    else if s[0] == '\\' && |s| > 1 then 2 + CloseLength(s[2..])
    else if s[0] == '"' then 1
    else 1 + CloseLength(s[1..])
  }

  function CommaAt(s: string): (n: nat)
    ensures n <= |s|
  {
    if s == "" || s[0] == ',' then 0 else 1 + CommaAt(s[1..])
  }

  /** The length of the first item of a list text, quoted or bare. */
  function ItemLength(s: string): nat {
    if s != "" && s[0] == '"' then 1 + CloseLength(s[1..]) else CommaAt(s)
  }

  lemma CloseSkips(c: char, rest: string)
    ensures CloseLength(EscapeChar(c) + rest) == |EscapeChar(c)| + CloseLength(rest)
  {
    var e := EscapeChar(c);
    if |e| == 2 {
      assert (e + rest)[2..] == rest;
    } else {
      assert (e + rest)[1..] == rest;
    }
  }

  lemma {:induction false} CloseOfEscaped(s: string, rest: string)
    ensures CloseLength(EscapeChars(s) + ("\"" + rest)) == |EscapeChars(s)| + 1
  {
    if s == "" {
      assert "" + ("\"" + rest) == "\"" + rest;
    } else {
      CloseOfEscaped(s[1..], rest);
      CloseSkips(s[0], EscapeChars(s[1..]) + ("\"" + rest));
      assert EscapeChars(s) + ("\"" + rest) == EscapeChar(s[0]) + (EscapeChars(s[1..]) + ("\"" + rest));
      hide CloseLength, EscapeChar;
    }
  }

  lemma {:induction false} CommaAfter(s: string, rest: string)
    requires ',' !in s && (rest == "" || rest[0] == ',')
    ensures CommaAt(s + rest) == |s|
  {
    if s == "" {
      assert s + rest == rest;
    } else {
      assert (s + rest)[1..] == s[1..] + rest && s[0] in s;
      CommaAfter(s[1..], rest);
    }
  }

  /** A printed item is quoted, or holds no comma and does not start with a quote. */
  lemma ItemShape(py: Numbers, v: Scalar)
    requires Known(py, v)
    ensures var e := EmitScalar(v, true);
      if v.Str? && MustQuote(v.s, true) then e == "\"" + EscapeChars(v.s) + "\""
      else e != "" && e[0] != '"' && ',' !in e
  {
    hide MustQuote, FloatText, IntText;
    match v
    case Null =>
    case Bool(b) =>
    case Int(n) => IntTextChars(IntToText(n)); BareNumber(IntToText(n));
    case Float(r) =>
      if Finite(py, v) {
        FloatTextChars(r);
        BareNumber(r);
      } else {
        NonfiniteWord(r);
      }
    case Str(s) =>
      if MustQuote(s, true) {
        EscapeIsCharwise(s);
      } else {
        BareItem(s);
      }
  }

  lemma BareNumber(s: string)
    requires s != "" && forall c | c in s :: NumberChar(c)
    ensures s[0] != '"' && ',' !in s
  {
    forall c | c in s ensures c != ',' && c != '"' {
      NumberCharsPlain(c);
    }
    assert s[0] in s;
  }

  lemma QuotedLength(s: string, rest: string)
    ensures var e := "\"" + EscapeChars(s) + "\""; ItemLength(e + rest) == |e|
  {
    hide EscapeChars, CloseLength;
    var e := "\"" + EscapeChars(s) + "\"";
    var t := EscapeChars(s) + ("\"" + rest);
    assert e + rest == "\"" + t;
    assert (e + rest)[1..] == t;
    CloseOfEscaped(s, rest);
  }

  lemma BareLength(e: string, rest: string)
    requires e != "" && e[0] != '"' && ',' !in e && (rest == "" || rest[0] == ',')
    ensures ItemLength(e + rest) == |e|
  {
    hide CommaAt;
    CommaAfter(e, rest);
  }

  lemma ItemLengthOf(py: Numbers, v: Scalar, rest: string)
    requires Known(py, v) && (rest == "" || rest[0] == ',')
    ensures ItemLength(EmitScalar(v, true) + rest) == |EmitScalar(v, true)| > 0
  {
    ItemShape(py, v);
    hide Known, MustQuote, EscapeChars, EmitScalar, ItemLength;
    if v.Str? && MustQuote(v.s, true) {
      QuotedLength(v.s, rest);
    } else {
      BareLength(EmitScalar(v, true), rest);
    }
  }

  /** The text after the first item. */
  function RestText(items: seq<Scalar>): string
    requires items != []
  {
    if |items| == 1 then "" else ", " + ListText(items[1..])
  }

  lemma FirstItem(py: Numbers, items: seq<Scalar>)
    requires items != [] && Known(py, items[0])
    ensures ListText(items) == EmitScalar(items[0], true) + RestText(items)
    ensures ItemLength(ListText(items)) == |EmitScalar(items[0], true)| > 0
  {
    hide EmitScalar, Known;
    ItemLengthOf(py, items[0], RestText(items));
    assert EmitScalar(items[0], true) + "" == EmitScalar(items[0], true);
  }

  /** Lists with the same text have, item by item, the same texts. */
  lemma {:induction false} SameListText(py: Numbers, u: seq<Scalar>, w: seq<Scalar>)
    requires (forall s | s in u :: Known(py, s)) && (forall s | s in w :: Known(py, s)) && ListText(u) == ListText(w)
    ensures |u| == |w| && forall i | 0 <= i < |u| :: EmitScalar(u[i], true) == EmitScalar(w[i], true)
    decreases |u|
  {
    hide EmitScalar, Known, ItemLength;
    if u != [] {
      FirstItem(py, u);
    }
    if w != [] {
      FirstItem(py, w);
    }
    if u != [] && w != [] {
      var n := |EmitScalar(u[0], true)|;
      assert EmitScalar(u[0], true) == ListText(u)[..n] == EmitScalar(w[0], true);
      assert RestText(u) == ListText(u)[n..] == RestText(w);
      assert |u| > 1 ==> RestText(u)[2..] == ListText(u[1..]);
      assert |w| > 1 ==> RestText(w)[2..] == ListText(w[1..]);
      if |u| > 1 {
        SameListText(py, u[1..], w[1..]);
      }
    }
  }

  // ---------- values ----------

  predicate FiniteValue(py: Numbers, v: Value) {
    match v
    case One(s) => Finite(py, s)
    case List(items) => forall i | 0 <= i < |items| :: Finite(py, items[i])
  }

  lemma ScalarNotBracketed(py: Numbers, v: Scalar)
    requires Finite(py, v)
    ensures Strip(EmitScalar(v, false)) == EmitScalar(v, false) && !Bracketed(EmitScalar(v, false))
  {
    var e := EmitScalar(v, false);
    EmittedTrimmed(py, v, false);
    StripTrimmed(e);
    hide Strip, FloatText, IntText, Trimmed;
    match v
    case Int(n) => IntTextChars(e); NumberCharsPlain(e[0]);
    case Float(r) => FloatTextChars(r); NumberCharsPlain(e[0]);
    case Str(s) =>
      if !MustQuote(s, false) {
        assert SIGILS[2] == '[';
      }
    case _ =>
  }

  lemma BracketsRead(py: Numbers, body: string)
    ensures ParseValue(py, "[" + body + "]") == List(ReadItems(py, body, "", OUTSIDE))
  {
    var s := "[" + body + "]";
    assert Trimmed(s) by { assert '[' as int == 0x5b && ']' as int == 0x5d; }
    StripTrimmed(s);
    assert s[1..|s| - 1] == body;
    hide Strip, Parts, NonBlank, ParseParts;
  }

  /** A printed value parses back to itself exactly when every list item but the last closes its
      quotes. Scalars, and lists of up to one item, always do. */
  lemma ValueRoundTrip(py: Numbers, v: Value)
    requires FiniteValue(py, v)
    ensures ParseValue(py, EmitValue(v)) == v <==> Splits(v)
  {
    hide ParseScalar, Strip, EmitScalar, NoSplit, Scan, Finite, NonBlank, Parts, ParseParts, QuotesClosed;
    match v
    case One(s) =>
      ScalarNotBracketed(py, s);
      ScalarRoundTrip(py, s, false);
    case List(items) =>
      JoinIsListText(items);
      BracketsRead(py, ListText(items));
      if items == [] {
        NoItems(py);
      } else if Splits(v) {
        ListReadsBack(py, items, "");
      } else {
        var k :| 0 <= k < |items| - 1 && !QuotesClosed(items[k]);
        OpenListMisread(py, items, "", k);
      }
  }

  lemma NoItems(py: Numbers)
    ensures ReadItems(py, "", "", OUTSIDE) == []
  {
    assert [""][1..] == [];
    assert NonBlank([""]) == [];
  }

  lemma OpenQuoteIsBare(s: string)
    requires s == ['a', '"', 'b']
    ensures !MustQuote(s, true)
  {
    assert Trimmed(s) by { assert 'a' as int == 0x61 && 'b' as int == 0x62; }
    StripTrimmed(s);
    NotNumber(s, 0);
    hide Strip, IntText, FloatText;
    assert s[1] == '"' && "null"[1] == 'u' && "true"[1] == 'r' && "false"[1] == 'a';
    assert s !in ["null", "~", "true", "false"];
  }

  lemma OpenQuoteScan(s: string)
    requires s == ['a', '"', 'b']
    ensures Scan(s, OUTSIDE) == Flags(true, false)
  {
    assert s[1..] == ['"', 'b'] && ['"', 'b'][1..] == ['b'] && ['b'][1..] == "";
    assert Scan(s, OUTSIDE) == Scan(['"', 'b'], OUTSIDE) == Scan(['b'], Flags(true, false));
  }

  /** The smallest failure: the list ["a\"b", "c"] is printed as [a"b, c] and read as one item. */
  lemma OpenQuoteExample(py: Numbers)
    ensures var v := List([Str("a\"b"), Str("c")]); FiniteValue(py, v) && ParseValue(py, EmitValue(v)) != v
  {
    var s := "a\"b";
    assert s == ['a', '"', 'b'];
    var v := List([Str(s), Str("c")]);
    OpenQuoteIsBare(s);
    OpenQuoteScan(s);
    hide MustQuote, Scan, ParseValue, EmitValue;
    assert !QuotesClosed(v.items[0]);
    ValueRoundTrip(py, v);
  }
}
