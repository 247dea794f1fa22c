/** What scripts/repipe/needs.py reads a text as that anyone may have written, in literal terms: the value of every kind
    of scalar, the meaning of each escape, and where a list is cut. Nothing here supposes that the printer wrote it. */
module NeedReading {
  import opened NeedValues
  import opened NeedText
  import opened NeedRecord
  import opened NeedRoundTrip
  import opened NeedParsed
  import opened NeedPrinting

  // ---------- white space ----------

  ghost predicate Spaces(s: string) { forall c | c in s :: IsSpace(c) }

  lemma {:induction false} RStripAfter(s: string, b: string)
    requires Spaces(b)
    ensures RStrip(s + b) == RStrip(s)
    decreases |b|
  {
    if b == "" {
      assert s + b == s;
    } else {
      assert b[|b| - 1] in b && (s + b)[..|s + b| - 1] == s + b[..|b| - 1];
      assert forall c | c in b[..|b| - 1] :: c in b;
      hide IsSpace;
      RStripAfter(s, b[..|b| - 1]);
    }
  }

  lemma {:induction false} LStripAfter(a: string, s: string)
    requires Spaces(a)
    ensures LStrip(a + s) == LStrip(s)
  {
    if a == "" {
      assert a + s == s;
    } else {
      assert a[0] in a && (a + s)[1..] == a[1..] + s;
      assert forall c | c in a[1..] :: c in a;
      hide IsSpace;
      LStripAfter(a[1..], s);
    }
  }

  /** No white space at either end. */
  predicate Core(s: string) { s == "" || Trimmed(s) }

  /** strip() takes away the white space at both ends and nothing else. */
  lemma StripIs(a: string, s: string, b: string)
    requires Spaces(a) && Core(s) && Spaces(b)
    ensures Strip(a + s + b) == s
  {
    hide IsSpace;
    RStripAfter(a + s, b);
    if s == "" {
      assert a + s == "" + a;
      RStripAfter("", a);
    } else {
      assert RStrip(a + s) == a + s;
      LStripAfter(a, s);
    }
  }

  // ---------- one value ----------

  lemma {:induction false} SkipDigitsIs(d: string, rest: string)
    requires (forall c | c in d :: '0' <= c <= '9') && (rest == "" || !IsDigit(rest[0]))
    ensures SkipDigits(d + rest) == rest
  {
    if d == "" {
      assert d + rest == rest;
    } else {
      assert d[0] in d && (d + rest)[1..] == d[1..] + rest;
      assert forall c | c in d[1..] :: c in d;
      SkipDigitsIs(d[1..], rest);
    }
  }

  lemma {:induction false} SkippedDigits(s: string) returns (d: string)
    ensures s == d + SkipDigits(s) && forall c | c in d :: '0' <= c <= '9'
    ensures s != "" && IsDigit(s[0]) ==> d != ""
    ensures SkipDigits(s) == "" || !IsDigit(SkipDigits(s)[0])
  {
    d := "";
    if s != "" && IsDigit(s[0]) {
      var more := SkippedDigits(s[1..]);
      d := [s[0]] + more;
    }
  }

  predicate SignText(s: string) { s == "" || s == "+" || s == "-" }

  ghost predicate Exponent(s: string) {
    s == "" || exists w :: Whole(w) && (s == "e" + w || s == "E" + w)
  }

  /** The digits before the point, the point, if any, and the digits after it. */
  ghost predicate Mantissa(i: string, point: string, f: string) {
    && (forall c | c in i + f :: '0' <= c <= '9')
    && ((point == "" && i != "" && f == "") || (point == "." && i + f != ""))
  }

  /** A decimal number with an optional sign and an optional exponent. */
  ghost predicate Real(s: string) {
    exists sign, i, point, f, e ::
      SignText(sign) && Mantissa(i, point, f) && Exponent(e) && s == sign + (i + point + f + e)
  }

  lemma ExponentIs(s: string)
    ensures ExponentText(s) <==> Exponent(s)
  {
    hide IntText, Whole;
    if s != "" {
      IntTextIs(s[1..]);
      assert s == [s[0]] + s[1..];
      if Exponent(s) {
        var w :| Whole(w) && (s == "e" + w || s == "E" + w);
        assert s[1..] == w;
      }
      if ExponentText(s) {
        assert s == "e" + s[1..] || s == "E" + s[1..];
      }
    }
  }

  lemma PointNumber(i: string, f: string, e: string)
    requires Mantissa(i, ".", f) && ExponentText(e) && (e == "" || !IsDigit(e[0]))
    ensures FloatText(i + "." + f + e)
  {
    assert (forall c | c in i :: c in i + f) && forall c | c in f :: c in i + f;
    assert i == "" ==> f != "";
    hide *;
    var tail := "." + (f + e);
    SkipDigitsIs(f, e);
    Dotted(i, f, e);
    if i != "" {
      DigitFirst(i, tail);
      SkipDigitsIs(i, tail);
      LeadingDigits(i + tail, tail);
    } else {
      DigitFirst(f, e);
      assert i + tail == tail && tail[1..][0] == tail[1];
      LeadingPoint(tail);
    }
  }

  lemma Dotted(i: string, f: string, e: string)
    ensures i + "." + f + e == i + ("." + (f + e)) && ("." + (f + e))[1..] == f + e
  {
  }

  lemma DigitFirst(d: string, rest: string)
    requires d != "" && forall c | c in d :: '0' <= c <= '9'
    ensures IsDigit((d + rest)[0])
  {
    assert d[0] in d;
  }

  lemma LeadingPoint(m: string)
    requires |m| > 1 && m[0] == '.' && IsDigit(m[1]) && ExponentText(SkipDigits(m[1..]))
    ensures FloatText(m)
  {
    hide ExponentText, SkipDigits;
  }

  lemma LeadingDigits(m: string, tail: string)
    requires m != "" && IsDigit(m[0]) && SkipDigits(m) == tail && tail != "" && tail[0] == '.'
    requires ExponentText(SkipDigits(tail[1..]))
    ensures FloatText(m)
  {
    hide ExponentText, SkipDigits;
  }

  lemma PlainNumber(i: string, e: string)
    requires AllDigits(i) && ExponentText(e) && (e == "" || !IsDigit(e[0]))
    ensures FloatText(i + e)
  {
    hide ExponentText;
    assert i[0] in i && (i + e)[0] == i[0];
    SkipDigitsIs(i, e);
    if e != "" {
      ExponentStart(e);
    }
  }

  lemma ExponentStart(e: string)
    requires e != "" && ExponentText(e)
    ensures e[0] != '.' && !IsDigit(e[0])
  {
  }

  lemma SignedNumber(sign: string, m: string)
    requires SignText(sign) && m != "" && m[0] != '+' && m[0] != '-' && FloatText(m)
    ensures FloatText(sign + m)
  {
    UnsignedIs(sign, m);
    assert Unsigned(m) == m;
    hide ExponentText, Unsigned, SkipDigits;
  }

  lemma RealIsFloat(sign: string, i: string, point: string, f: string, e: string)
    requires SignText(sign) && Mantissa(i, point, f) && Exponent(e)
    ensures FloatText(sign + (i + point + f + e))
  {
    var m := i + point + f + e;
    ExponentIs(e);
    hide Exponent;
    if e != "" {
      ExponentStart(e);
    }
    hide ExponentText, FloatText;
    assert (forall c | c in i :: c in i + f) && forall c | c in f :: c in i + f;
    if point == "" {
      assert m == i + e && i[0] in i && m[0] == i[0];
      PlainNumber(i, e);
    } else {
      PointNumber(i, f, e);
      assert i != "" ==> i[0] in i && m[0] == i[0];
      assert i == "" ==> m[0] == '.';
    }
    SignedNumber(sign, m);
  }

  lemma UnsignedIs(sign: string, m: string)
    requires SignText(sign) && m != "" && m[0] != '+' && m[0] != '-'
    ensures Unsigned(sign + m) == m
  {
    if sign == "" {
      assert sign + m == m;
    } else {
      assert (sign + m)[1..] == m;
    }
  }

  lemma UnsignedParts(s: string) returns (sign: string)
    ensures SignText(sign) && s == sign + Unsigned(s)
  {
    sign := if s != "" && (s[0] == '+' || s[0] == '-') then [s[0]] else "";
  }

  lemma DigitsFirst(m: string) returns (i: string, point: string, f: string, e: string)
    requires m != "" && IsDigit(m[0]) && FloatText(m)
    ensures Mantissa(i, point, f) && Exponent(e) && m == i + point + f + e
  {
    assert Unsigned(m) == m;
    hide ExponentText, Exponent;
    i := SkippedDigits(m);
    var r := SkipDigits(m);
    if r != "" && r[0] == '.' {
      point := ".";
      f := SkippedDigits(r[1..]);
      e := SkipDigits(r[1..]);
      assert r == "." + r[1..];
      assert m == i + "." + f + e;
    } else {
      point, f, e := "", "", r;
      assert m == i + "" + "" + r;
    }
    ExponentIs(e);
  }

  lemma PointFirst(m: string) returns (f: string, e: string)
    requires m != "" && m[0] == '.' && FloatText(m)
    ensures Mantissa("", ".", f) && Exponent(e) && m == "" + "." + f + e
  {
    assert Unsigned(m) == m;
    assert |m| > 1 && IsDigit(m[1]) && ExponentText(SkipDigits(m[1..]));
    f := SkippedDigits(m[1..]);
    e := SkipDigits(m[1..]);
    ExponentIs(e);
    hide *;
    PointIs(m, f, e);
  }

  lemma PointIs(m: string, f: string, e: string)
    requires m != "" && m[0] == '.' && m[1..] == f + e && f != "" && forall c | c in f :: '0' <= c <= '9'
    ensures Mantissa("", ".", f) && m == "" + "." + f + e
  {
    assert "" + f == f && m == "." + m[1..];
  }

  lemma FloatIsReal(s: string)
    requires FloatText(s)
    ensures Real(s)
  {
    var sign := UnsignedParts(s);
    var m := Unsigned(s);
    UnsignedFloat(s);
    assert m != "" && (IsDigit(m[0]) || m[0] == '.');
    hide FloatText, Unsigned, Mantissa, Exponent;
    if IsDigit(m[0]) {
      var i, point, f, e := DigitsFirst(m);
      assert s == sign + (i + point + f + e);
    } else {
      var f, e := PointFirst(m);
      assert s == sign + ("" + "." + f + e);
    }
  }

  lemma UnsignedFloat(s: string)
    requires FloatText(s)
    ensures FloatText(Unsigned(s)) && Unsigned(s) != "" && (IsDigit(Unsigned(s)[0]) || Unsigned(s)[0] == '.')
  {
    hide ExponentText, SkipDigits;
    var m := Unsigned(s);
    assert Unsigned(m) == m;
  }

  lemma FloatTextIs(s: string)
    ensures FloatText(s) <==> Real(s)
  {
    hide FloatText, Mantissa, Exponent;
    if FloatText(s) {
      FloatIsReal(s);
    }
    if Real(s) {
      var sign, i, point, f, e :| SignText(sign) && Mantissa(i, point, f) && Exponent(e)
        && s == sign + (i + point + f + e);
      RealIsFloat(sign, i, point, f, e);
    }
  }

  /** A text that is neither a keyword, nor a number, nor between quotes. */
  ghost predicate PlainText(s: string) {
    && s != "" && s != "null" && s != "~" && s != "true" && s != "false" && !Whole(s) && !Real(s)
    && !(|s| >= 2 && s[0] == '"' && s[|s| - 1] == '"')
  }

  lemma NoWordIsNumber()
    ensures !Whole("null") && !Whole("~") && !Whole("true") && !Whole("false") && !Whole("")
  {
    IntTextIs("null");
    IntTextIs("~");
    IntTextIs("true");
    IntTextIs("false");
    IntTextIs("");
  }

  /** Main result: what a scalar is read as, whatever white space is around it. */
  lemma ScalarRead(py: Numbers, a: string, s: string, b: string)
    requires Spaces(a) && Core(s) && Spaces(b)
    ensures s == "" || s == "null" || s == "~" ==> ParseScalar(py, a + s + b) == Null
    ensures s == "true" ==> ParseScalar(py, a + s + b) == Bool(true)
    ensures s == "false" ==> ParseScalar(py, a + s + b) == Bool(false)
    ensures Whole(s) ==> IntText(s) && ParseScalar(py, a + s + b) == Int(TextToInt(s))
    ensures Real(s) && !Whole(s) ==> ParseScalar(py, a + s + b) == Float(py.canon(s))
    ensures |s| >= 2 && s[0] == '"' && s[|s| - 1] == '"' ==> ParseScalar(py, a + s + b) == Str(Unescape(s[1..|s| - 1]))
    ensures PlainText(s) ==> ParseScalar(py, a + s + b) == Str(s)
  {
    StripIs(a, s, b);
    IntTextIs(s);
    FloatTextIs(s);
    if IntText(s) {
      IntTextChars(s);
      NumberTrimmed(s);
    } else if FloatText(s) {
      FloatTextChars(s);
      NumberTrimmed(s);
    }
    hide Strip, Whole, Real, IntText, FloatText, Spaces, Core, Unescape, Trimmed;
  }

  /** Signs and leading zeros; with IntRoundTrip this is every integer text. */
  lemma {:induction false} IntegerRead(d: string)
    requires AllDigits(d)
    ensures IntText(d) && IntText("+" + d) && IntText("-" + d) && IntText("0" + d)
    ensures TextToInt("+" + d) == TextToInt(d) && TextToInt("-" + d) == -TextToInt(d)
    ensures TextToInt("0" + d) == TextToInt(d)
  {
    DigitsAre(d);
    assert ("+" + d)[1..] == d && ("-" + d)[1..] == d;
    assert d[0] in d;
    ZeroFirst(d);
  }

  lemma {:induction false} ZeroFirst(d: string)
    requires forall i | 0 <= i < |d| :: IsDigit(d[i])
    ensures forall i | 0 <= i < |"0" + d| :: IsDigit(("0" + d)[i])
    ensures DecimalValue("0" + d) == DecimalValue(d)
  {
    if d == "" {
      assert "0" + d == "0" && "0"[..0] == "";
    } else {
      ZeroFirst(d[..|d| - 1]);
      assert ("0" + d)[..|"0" + d| - 1] == "0" + d[..|d| - 1];
      assert ("0" + d)[|"0" + d| - 1] == d[|d| - 1];
    }
  }

  /** A backslash names a newline, tab or return with n, t or r, and else the character after it; at the end it stands
      for itself, as every other character does. */
  lemma EscapesRead(c: char, t: string)
    ensures Unescape("") == "" && Unescape("\\") == "\\"
    ensures c != '\\' ==> Unescape([c] + t) == [c] + Unescape(t)
    ensures Unescape("\\n" + t) == "\n" + Unescape(t) && Unescape("\\t" + t) == "\t" + Unescape(t)
    ensures Unescape("\\r" + t) == "\r" + Unescape(t)
    ensures c != 'n' && c != 't' && c != 'r' ==> Unescape(['\\', c] + t) == [c] + Unescape(t)
  {
    assert "\\"[1..] == "" && ([c] + t)[1..] == t;
    assert ("\\n" + t)[2..] == t && ("\\t" + t)[2..] == t && ("\\r" + t)[2..] == t && (['\\', c] + t)[2..] == t;
  }

  // ---------- lists ----------

  /** Text inside a quoted item: each backslash with the character after it, and no quote. */
  predicate Inside(s: string) {
    s == "" || if s[0] == '\\' then |s| >= 2 && Inside(s[2..]) else s[0] != '"' && Inside(s[1..])
  }

  /** What stands between two commas: quoted stretches, closed, and characters that are neither comma nor quote. */
  ghost predicate Part(s: string)
    decreases |s|
  {
    || s == ""
    || (s[0] != ',' && s[0] != '"' && Part(s[1..]))
    || (s[0] == '"' && exists n | 1 <= n < |s| :: s[n] == '"' && Inside(s[1..n]) && Part(s[n + 1..]))
  }

  lemma {:induction false} InsideKept(body: string, rest: string, buf: string)
    requires Inside(body)
    ensures Parts(body + rest, buf, true, false) == Parts(rest, buf + body, true, false)
    decreases |body|
  {
    if body == "" {
      assert body + rest == rest && buf + body == buf;
    } else if body[0] == '\\' {
      assert (body + rest)[1..] == body[1..] + rest && (body[1..] + rest)[1..] == body[2..] + rest;
      assert buf + [body[0]] + [body[1]] + body[2..] == buf + body;
      InsideKept(body[2..], rest, buf + [body[0]] + [body[1]]);
    } else {
      assert (body + rest)[1..] == body[1..] + rest && buf + [body[0]] + body[1..] == buf + body;
      InsideKept(body[1..], rest, buf + [body[0]]);
    }
  }

  lemma QuotedKept(body: string, rest: string, buf: string)
    requires Inside(body)
    ensures Parts("\"" + body + "\"" + rest, buf, false, false) == Parts(rest, buf + ("\"" + body + "\""), false, false)
  {
    hide Inside;
    var s := "\"" + body + "\"" + rest;
    assert s[1..] == body + ("\"" + rest) && ("\"" + rest)[1..] == rest;
    InsideKept(body, "\"" + rest, buf + "\"");
    assert buf + "\"" + body + ['"'] == buf + ("\"" + body + "\"");
  }

  lemma OneKept(p: string, rest: string, buf: string)
    requires p != "" && p[0] != '"' && Part(p)
    ensures Part(p[1..]) && Parts(p + rest, buf, false, false) == Parts(p[1..] + rest, buf + [p[0]], false, false)
  {
    assert (p + rest)[1..] == p[1..] + rest;
  }

  lemma QuoteEnds(p: string) returns (n: nat)
    requires p != "" && p[0] == '"' && Part(p)
    ensures 1 <= n < |p| && Inside(p[1..n]) && Part(p[n + 1..]) && p == "\"" + p[1..n] + "\"" + p[n + 1..]
  {
    n :| 1 <= n < |p| && p[n] == '"' && Inside(p[1..n]) && Part(p[n + 1..]);
    assert p == [p[0]] + p[1..n] + [p[n]] + p[n + 1..];
  }

  lemma {:induction false} PartKept(p: string, rest: string, buf: string)
    requires Part(p)
    ensures Parts(p + rest, buf, false, false) == Parts(rest, buf + p, false, false)
    decreases |p|
  {
    hide Part, Inside, Parts;
    if p == "" {
      assert p + rest == rest && buf + p == buf;
    } else if p[0] != '"' {
      OneKept(p, rest, buf);
      PartKept(p[1..], rest, buf + [p[0]]);
      assert buf + [p[0]] + p[1..] == buf + p;
    } else {
      var n := QuoteEnds(p);
      var q, more := "\"" + p[1..n] + "\"", p[n + 1..];
      assert p + rest == q + (more + rest);
      QuotedKept(p[1..n], more + rest, buf);
      PartKept(more, rest, buf + q);
      assert buf + q + more == buf + p;
    }
  }

  /** Main result: the text between the brackets is cut at the commas outside quotes, and nowhere else. */
  lemma {:induction false} ListCut(parts: seq<string>)
    requires parts != [] && forall p | p in parts :: Part(p)
    ensures Parts(Join(parts, ","), "", false, false) == parts
  {
    var p := parts[0];
    assert Part(p) && "" + p == p;
    hide Part;
    if |parts| == 1 {
      PartKept(p, "", "");
      assert p + "" == p && parts == [p];
    } else {
      var rest := Join(parts[1..], ",");
      PartKept(p, "," + rest, "");
      assert p + "," + rest == p + ("," + rest) && ("," + rest)[1..] == rest;
      ListCut(parts[1..]);
      assert parts == [p] + parts[1..];
    }
  }

  /** Every text between brackets is of that form, up to a last part whose quote is open. */
  lemma ClosedOrOpen(inner: string)
    ensures Join(Parts(inner, "", false, false), ",") == inner
    ensures forall i | 0 <= i < |Parts(inner, "", false, false)| - 1 :: Part(Parts(inner, "", false, false)[i])
  {
    PartsJoin(inner, "", false, false);
    assert "" + inner == inner;
    InsideNothing();
    PartsClosed(inner, "", "", false, false);
  }

  lemma InsideNothing()
    ensures Inside("") && Part("")
  {
  }

  lemma {:induction false} PartsJoin(s: string, buf: string, quoted: bool, esc: bool)
    ensures Join(Parts(s, buf, quoted, esc), ",") == buf + s
    decreases |s|
  {
    if s == "" {
      assert buf + s == buf;
    } else {
      var c := s[0];
      assert buf + [c] + s[1..] == buf + s;
      if !esc && c == ',' && !quoted {
        PartsJoin(s[1..], "", quoted, false);
        var rest := Parts(s[1..], "", quoted, false);
        assert ([buf] + rest)[1..] == rest;
        assert buf + "," + ("" + s[1..]) == buf + s;
      } else {
        PartsJoin(s[1..], buf + [c], if !esc && c == '"' then !quoted else quoted, !esc && c == '\\' && quoted);
      }
    }
  }

  /** What is collected between a closed part and an open quote: the text before the quote, and what is inside it. */
  ghost predicate Collected(pre: string, buf: string, quoted: bool, esc: bool) {
    if quoted then
      Part(pre) && |buf| > |pre| && pre + "\"" <= buf &&
      if esc then buf[|buf| - 1] == '\\' && |buf| > |pre| + 1 && Inside(buf[|pre| + 1..|buf| - 1])
      else Inside(buf[|pre| + 1..])
    else !esc && pre == buf && Part(buf)
  }

  lemma {:induction false} InsideMore(s: string, t: string)
    requires Inside(s) && Inside(t)
    ensures Inside(s + t)
  {
    if s == "" {
      assert s + t == t;
    } else if s[0] == '\\' {
      assert (s + t)[2..] == s[2..] + t;
      InsideMore(s[2..], t);
    } else {
      assert (s + t)[1..] == s[1..] + t;
      InsideMore(s[1..], t);
    }
  }

  lemma {:induction false} PartMore(s: string, t: string)
    requires Part(s) && Part(t)
    ensures Part(s + t)
    decreases |s|
  {
    hide Inside, Part;
    if s == "" {
      assert s + t == t;
    } else if s[0] != '"' {
      assert (s + t)[1..] == s[1..] + t && (s + t)[0] == s[0];
      PartTail(s);
      PartMore(s[1..], t);
      PartTail(s + t);
    } else {
      var n := QuoteEnds(s);
      PartMore(s[n + 1..], t);
      assert (s + t)[n + 1..] == s[n + 1..] + t && (s + t)[1..n] == s[1..n];
      PartStarts(s + t, n);
    }
  }

  lemma PartTail(s: string)
    requires s != "" && s[0] != '"'
    ensures Part(s) <==> s[0] != ',' && Part(s[1..])
  {
    hide Inside;
  }

  lemma PartStarts(s: string, n: nat)
    requires 1 <= n < |s| && s[0] == '"' && s[n] == '"' && Inside(s[1..n]) && Part(s[n + 1..])
    ensures Part(s)
  {
    hide Inside;
  }

  lemma OneMore(c: char)
    ensures c != '"' && c != '\\' ==> Inside([c])
    ensures Inside(['\\', c])
    ensures c != ',' && c != '"' ==> Part([c])
  {
    assert [c][1..] == "" && ['\\', c][2..] == "";
    InsideNothing();
  }

  lemma QuotedPart(body: string)
    requires Inside(body)
    ensures Part("\"" + body + "\"")
  {
    var s := "\"" + body + "\"";
    var n := |body| + 1;
    InsideNothing();
    hide Inside;
    assert s[n] == '"' && s[1..n] == body && s[n + 1..] == "";
  }

  lemma CollectOne(pre: string, buf: string, quoted: bool, esc: bool, c: char) returns (pre': string)
    requires Collected(pre, buf, quoted, esc) && (esc || quoted || c != ',')
    ensures Collected(pre', buf + [c], if !esc && c == '"' then !quoted else quoted, !esc && c == '\\' && quoted)
  {
    hide Inside, Part;
    InsideNothing();
    OneMore(c);
    pre' := pre;
    var next := buf + [c];
    if esc {
      var body := buf[|pre| + 1..|buf| - 1];
      InsideMore(body, ['\\', c]);
      assert next[|pre| + 1..] == body + ['\\', c];
    } else if quoted {
      var body := buf[|pre| + 1..];
      if c == '\\' {
        assert next[|pre| + 1..|next| - 1] == body;
      } else if c == '"' {
        QuotedPart(body);
        assert next == pre + ("\"" + body + "\"");
        PartMore(pre, "\"" + body + "\"");
        pre' := next;
      } else {
        InsideMore(body, [c]);
        assert next[|pre| + 1..] == body + [c];
      }
    } else if c == '"' {
      assert next[|pre| + 1..] == "" && next == pre + "\"";
    } else {
      PartMore(buf, [c]);
      pre' := next;
    }
  }

  lemma {:induction false} PartsClosed(s: string, pre: string, buf: string, quoted: bool, esc: bool)
    requires Collected(pre, buf, quoted, esc)
    ensures forall i | 0 <= i < |Parts(s, buf, quoted, esc)| - 1 :: Part(Parts(s, buf, quoted, esc)[i])
    decreases |s|
  {
    if s != "" {
      var c := s[0];
      if !esc && c == ',' && !quoted {
        InsideNothing();
        PartsClosed(s[1..], "", "", false, false);
      } else {
        var pre' := CollectOne(pre, buf, quoted, esc, c);
        PartsClosed(s[1..], pre', buf + [c], if !esc && c == '"' then !quoted else quoted, !esc && c == '\\' && quoted);
      }
    }
  }

  /** A value in brackets is the list of its parts that are not blank, each read as a scalar; any other is a scalar. */
  lemma ValueRead(py: Numbers, a: string, s: string, b: string)
    requires Spaces(a) && Core(s) && Spaces(b)
    ensures |s| >= 2 && s[0] == '[' && s[|s| - 1] == ']' ==>
      ParseValue(py, a + s + b) == List(ParseParts(py, NonBlank(Parts(s[1..|s| - 1], "", false, false))))
    ensures s == "" || s[0] != '[' || s[|s| - 1] != ']' ==> ParseValue(py, a + s + b) == One(ParseScalar(py, s))
  {
    StripIs(a, s, b);
    hide Strip, ParseScalar, Parts, NonBlank, Spaces, Trimmed;
  }

  /** The parts that are not blank, in their order. */
  lemma {:induction false} NonBlankAre(p: seq<string>, q: seq<string>, x: string)
    ensures NonBlank(p + q) == NonBlank(p) + NonBlank(q)
    ensures NonBlank([x]) == (if Spaces(x) then [] else [x]) && NonBlank([]) == []
  {
    hide Spaces, Strip;
    BlankIsSpaces(x);
    assert [x][1..] == [];
    if p == [] {
      assert p + q == q;
    } else {
      assert (p + q)[1..] == p[1..] + q && (p + q)[0] == p[0];
      NonBlankAre(p[1..], q, x);
      NonBlankStep(p);
      NonBlankStep(p + q);
      hide NonBlank;
    }
  }

  lemma NonBlankStep(p: seq<string>)
    requires p != []
    ensures NonBlank(p) == (if Strip(p[0]) != "" then [p[0]] else []) + NonBlank(p[1..])
  {
    hide Strip;
  }

  lemma BlankIsSpaces(p: string)
    ensures Strip(p) == "" <==> Spaces(p)
  {
    if Spaces(p) {
      assert p == p + "" + "";
      StripIs(p, "", "");
    }
    if Strip(p) == "" {
      StripKeeps(p);
    }
  }

  lemma {:induction false} LStripKeeps(s: string)
    requires LStrip(s) == ""
    ensures Spaces(s)
  {
    if s != "" {
      LStripKeeps(s[1..]);
      assert s == [s[0]] + s[1..];
    }
  }

  lemma {:induction false} RStripTail(s: string) returns (b: string)
    ensures s == RStrip(s) + b && Spaces(b)
  {
    b := "";
    if s != "" && IsSpace(s[|s| - 1]) {
      var more := RStripTail(s[..|s| - 1]);
      b := more + [s[|s| - 1]];
      assert s == s[..|s| - 1] + [s[|s| - 1]];
    } else {
      assert s == s + "";
    }
  }

  lemma StripKeeps(p: string)
    requires Strip(p) == ""
    ensures Spaces(p)
  {
    var b := RStripTail(p);
    LStripKeeps(RStrip(p));
  }
}
