/** The JSON path syntax of scripts/repipe/probe.py: its parser, and which paths can be written down. A path is a row of
    dotted keys, bracketed indexes and [*]; an initial $ and dot are dropped, and so are the blanks around
    the whole path, also those that belong to its last key. */
module ProbePath {
  import opened NeedValues
  import P = Probe

  type Steps = seq<P.Step>

  /** s.find(c), |s| when there is none. */
  function Find(s: string, c: char): (n: nat)
    ensures n <= |s| && (s != "" && s[0] != c ==> n > 0)
  {
    if s == "" || s[0] == c then 0 else 1 + Find(s[1..], c)
  }

  /** How long the key at the start of s is. */
  function KeyEnd(s: string): (n: nat)
    ensures n <= |s|
    ensures s != "" && s[0] != '.' && s[0] != '[' ==> n > 0
  {
    if s == "" || s[0] == '.' || s[0] == '[' then 0 else 1 + KeyEnd(s[1..])
  }

  function Cons(step: P.Step, rest: Option<Steps>): Option<Steps> {
    if rest.None? then None else Some([step] + rest.value)
  }

  /** What the parser takes from the front of the text: an error, a dot to skip, or a step and its length. */
  datatype Lexed = Bad | Dot | Got(step: P.Step, length: nat)

  /** intOf is int(). */
  function Lex(intOf: string -> Option<int>, s: string): (l: Lexed)
    requires s != ""
    ensures l.Got? ==> 1 <= l.length <= |s|
  {
    if s[0] == '[' then
      var j := Find(s, ']');
      if j == |s| then Bad
      else
        var token := s[1..j];
        if token == "*" then Got(P.Any, j + 1)
        else if intOf(token).None? then Bad
        else Got(P.Index(intOf(token).value), j + 1)
    else if s[0] == '.' then Dot
    else Got(P.Key(s[..KeyEnd(s)]), KeyEnd(s))
  }

  /** The steps of s; None is a ProbeError. */
  function StepsOf(intOf: string -> Option<int>, s: string): Option<Steps>
    decreases |s|
  {
    if s == "" then Some([])
    else
      match Lex(intOf, s)
      case Bad => None
      case Dot => StepsOf(intOf, s[1..])
      case Got(step, n) => Cons(step, StepsOf(intOf, s[n..]))
  }

  /** What is left of a path once blanks and an initial $ and . are dropped. */
  function Body(path: string): string {
    var s := Strip(path);
    var t := if s != "" && s[0] == '$' then s[1..] else s;
    if t != "" && t[0] == '.' then t[1..] else t
  }

  function ParsePath(intOf: string -> Option<int>, path: string): Option<Steps> {
    if Strip(path) == "" then None
    else
      var steps := StepsOf(intOf, Body(path));
      if steps == Some([]) then None else steps
  }

  method LexLoop(intOf: string -> Option<int>, s: string, i: nat) returns (l: Lexed)
    requires i < |s|
    ensures l == Lex(intOf, s[i..])
  {
    var t := s[i..];
    if s[i] == '[' {
      var j := 0;
      while j < |t| && t[j] != ']'
        invariant j <= |t| && j + Find(t[j..], ']') == Find(t, ']')
      {
        assert t[j..][1..] == t[j + 1..];
        j := j + 1;
      }
      if j == |t| {
        return Bad;
      }
      var token := t[1..j];
      if token == "*" {
        return Got(P.Any, j + 1);
      }
      var n := intOf(token);
      if n.None? {
        return Bad;
      }
      return Got(P.Index(n.value), j + 1);
    }
    if s[i] == '.' {
      return Dot;
    }
    var k := 0;
    while k < |t| && t[k] != '.' && t[k] != '['
      invariant k <= |t| && k + KeyEnd(t[k..]) == KeyEnd(t)
    {
      assert t[k..][1..] == t[k + 1..];
      k := k + 1;
    }
    return Got(P.Key(t[..k]), k);
  }

  method ParsePathLoop(intOf: string -> Option<int>, path: string) returns (r: Option<Steps>)
    ensures r == ParsePath(intOf, path)
  {
    hide Strip, Lex, Body, Onto, Cons, StepsOf;
    if Strip(path) == "" {
      return None;
    }
    var s := Body(path);
    var steps: Steps, i := [], 0;
    assert s[0..] == s;
    OntoNothing(StepsOf(intOf, s));
    while i < |s|
      invariant i <= |s|
      invariant StepsOf(intOf, s) == Onto(steps, StepsOf(intOf, s[i..]))
      decreases |s| - i
    {
      var l := LexLoop(intOf, s, i);
      StepsAt(intOf, s, i, steps);
      match l {
        case Bad => return None;
        case Dot => i := i + 1;
        case Got(step, n) =>
          steps := steps + [step];
          i := i + n;
      }
    }
    assert s[i..] == "";
    OntoEnd(intOf, steps);
    r := if steps == [] then None else Some(steps);
  }

  function Onto(steps: Steps, rest: Option<Steps>): Option<Steps> {
    if rest.None? then None else Some(steps + rest.value)
  }

  lemma OntoNothing(rest: Option<Steps>)
    ensures Onto([], rest) == rest
  {
    if rest.Some? {
      assert [] + rest.value == rest.value;
    }
  }

  lemma OntoEnd(intOf: string -> Option<int>, steps: Steps)
    ensures Onto(steps, StepsOf(intOf, "")) == Some(steps)
  {
    assert steps + [] == steps;
  }

  lemma OntoOne(steps: Steps, step: P.Step, rest: Option<Steps>)
    ensures Onto(steps, Cons(step, rest)) == Onto(steps + [step], rest)
  {
    if rest.Some? {
      assert steps + ([step] + rest.value) == (steps + [step]) + rest.value;
    }
  }

  lemma StepsAt(intOf: string -> Option<int>, s: string, i: nat, steps: Steps)
    requires i < |s|
    ensures Onto(steps, StepsOf(intOf, s[i..])) ==
      match Lex(intOf, s[i..])
      case Bad => None
      case Dot => Onto(steps, StepsOf(intOf, s[i + 1..]))
      case Got(step, n) => Onto(steps + [step], StepsOf(intOf, s[i + n..]))
  {
    hide Lex;
    var t := s[i..];
    assert t[1..] == s[i + 1..];
    match Lex(intOf, t)
    case Got(step, n) =>
      assert t[n..] == s[i + n..];
      OntoOne(steps, step, StepsOf(intOf, s[i + n..]));
    case _ =>
  }

  // ---------- writing a path down ----------

  function Written(steps: Steps): string {
    if steps == [] then ""
    else
      Text(steps[0]) + Written(steps[1..])
  }

  function Text(step: P.Step): string {
    match step
    case Key(name) => "." + name
    case Index(i) => "[" + IntToText(i) + "]"
    case Any => "[*]"
  }

  predicate KeyOk(name: string) { name != "" && '.' !in name && '[' !in name }

  predicate KeysOk(steps: Steps) { forall i | 0 <= i < |steps| && steps[i].Key? :: KeyOk(steps[i].name) }

  /** Python's int() reads back the decimal text of an integer. */
  ghost predicate ReadsIntegers(intOf: string -> Option<int>) { forall n: int :: intOf(IntToText(n)) == Some(n) }

  lemma {:induction false} KeyEndOf(name: string, rest: string)
    requires '.' !in name && '[' !in name && (rest == "" || rest[0] == '.' || rest[0] == '[')
    ensures KeyEnd(name + rest) == |name|
  {
    if name == "" {
      assert name + rest == rest;
    } else {
      assert (name + rest)[1..] == name[1..] + rest && name[0] in name;
      KeyEndOf(name[1..], rest);
    }
  }

  lemma {:induction false} FindOf(a: string, c: char, rest: string)
    requires c !in a
    ensures Find(a + [c] + rest, c) == |a|
  {
    if a == "" {
      assert a + [c] + rest == [c] + rest;
    } else {
      assert (a + [c] + rest)[1..] == a[1..] + [c] + rest && a[0] in a;
      FindOf(a[1..], c, rest);
    }
  }

  lemma WrittenStart(steps: Steps)
    ensures Written(steps) == "" || Written(steps)[0] == '.' || Written(steps)[0] == '['
  {
  }

  lemma BracketRead(intOf: string -> Option<int>, token: string, rest: string)
    requires ']' !in token
    ensures StepsOf(intOf, "[" + token + "]" + rest) ==
      if token == "*" then Cons(P.Any, StepsOf(intOf, rest))
      else if intOf(token).None? then None
      else Cons(P.Index(intOf(token).value), StepsOf(intOf, rest))
  {
    var s := "[" + token + "]" + rest;
    assert s == ("[" + token) + [']'] + rest;
    FindOf("[" + token, ']', rest);
    assert s[1..|token| + 1] == token && s[|token| + 2..] == rest;
    hide Find;
  }

  lemma KeyRead(intOf: string -> Option<int>, name: string, rest: string)
    requires KeyOk(name) && (rest == "" || rest[0] == '.' || rest[0] == '[')
    ensures StepsOf(intOf, name + rest) == Cons(P.Key(name), StepsOf(intOf, rest))
  {
    var s := name + rest;
    KeyEndOf(name, rest);
    assert name[0] in name && s[0] == name[0];
    assert s[..|name|] == name && s[|name|..] == rest;
    hide KeyEnd;
  }

  lemma IndexText(n: int)
    ensures ']' !in IntToText(n) && IntToText(n) != "*"
  {
    IntTextChars(IntToText(n));
    if ']' in IntToText(n) {
      NumberCharsPlain(']');
    }
    assert !NumberChar('*');
    assert '*' in "*" by { assert "*"[0] == '*'; }
  }

  /** Written steps are read back, with or without a dot at the end. */
  lemma {:induction false} WrittenRead(intOf: string -> Option<int>, steps: Steps, tail: string)
    requires KeysOk(steps) && ReadsIntegers(intOf) && (tail == "" || tail == ".")
    ensures StepsOf(intOf, Written(steps) + tail) == Some(steps)
  {
    if steps == [] {
      assert Written(steps) + tail == tail && "."[1..] == "";
    } else {
      hide KeyOk, StepsOf;
      var rest := Written(steps[1..]) + tail;
      WrittenStart(steps[1..]);
      assert KeysOk(steps[1..]);
      WrittenRead(intOf, steps[1..], tail);
      assert steps[0].Key? ==> KeyOk(steps[0].name);
      StepRead(intOf, steps[0], rest);
      WrittenCons(steps, tail);
      assert [steps[0]] + steps[1..] == steps;
    }
  }

  lemma WrittenCons(steps: Steps, tail: string)
    requires steps != []
    ensures Written(steps) + tail == Text(steps[0]) + (Written(steps[1..]) + tail)
  {
    hide IntToText;
  }

  lemma StepRead(intOf: string -> Option<int>, step: P.Step, rest: string)
    requires (step.Key? ==> KeyOk(step.name)) && ReadsIntegers(intOf)
    requires rest == "" || rest[0] == '.' || rest[0] == '['
    ensures StepsOf(intOf, Text(step) + rest) == Cons(step, StepsOf(intOf, rest))
  {
    hide StepsOf, KeyOk, Cons;
    match step
    case Key(name) =>
      assert Text(step) + rest == "." + (name + rest);
      DotRead(intOf, name + rest);
      KeyRead(intOf, name, rest);
    case Index(i) =>
      IndexText(i);
      BracketRead(intOf, IntToText(i), rest);
    case Any =>
      assert ("[" + "*") + "]" == "[*]" && ']' !in "*";
      BracketRead(intOf, "*", rest);
  }

  lemma DotRead(intOf: string -> Option<int>, s: string)
    ensures StepsOf(intOf, "." + s) == StepsOf(intOf, s)
  {
    assert ("." + s)[1..] == s;
  }

  /** Every key the parser makes can be written down. */
  lemma {:induction false} ParsedKeysOk(intOf: string -> Option<int>, s: string)
    ensures StepsOf(intOf, s).Some? ==> KeysOk(StepsOf(intOf, s).value)
    decreases |s|
  {
    if s != "" {
      hide KeyEnd, Find;
      if s[0] == '[' {
        var j := Find(s, ']');
        if j < |s| {
          ParsedKeysOk(intOf, s[j + 1..]);
        }
      } else if s[0] == '.' {
        ParsedKeysOk(intOf, s[1..]);
      } else {
        var k := KeyEnd(s);
        KeyIsOk(s);
        ParsedKeysOk(intOf, s[k..]);
      }
    }
  }

  lemma {:induction false} KeyIsOk(s: string)
    requires s != "" && s[0] != '.' && s[0] != '['
    ensures KeyOk(s[..KeyEnd(s)])
  {
    var k := KeyEnd(s);
    assert k == 1 + KeyEnd(s[1..]);
    if k > 1 {
      KeyIsOk(s[1..]);
      assert s[..k] == [s[0]] + s[1..][..k - 1];
    } else {
      assert s[..k] == [s[0]];
    }
  }

  /** No blank at the end that parse_path would strip. */
  predicate EndOk(steps: Steps) {
    steps != [] && (steps[|steps| - 1].Key? ==> var n := steps[|steps| - 1].name; n == "" || !IsSpace(n[|n| - 1]))
  }

  lemma {:induction false} WrittenSnoc(steps: Steps, step: P.Step)
    ensures Written(steps + [step]) == Written(steps) + Written([step])
  {
    if steps == [] {
      assert [] + [step] == [step];
    } else {
      assert (steps + [step])[1..] == steps[1..] + [step] && (steps + [step])[0] == steps[0];
      WrittenSnoc(steps[1..], step);
    }
  }

  lemma MarkNotSpace()
    ensures !IsSpace('.') && !IsSpace('[') && !IsSpace(']')
  {
    assert '.' as int == 0x2e && '[' as int == 0x5b && ']' as int == 0x5d;
  }

  lemma OneText(step: P.Step)
    ensures Written([step]) == Text(step)
  {
    assert [step][1..] == [];
    hide Text;
    assert Text(step) + "" == Text(step);
  }

  lemma TextEnd(step: P.Step)
    requires step.Key? ==> step.name != "" && !IsSpace(step.name[|step.name| - 1])
    ensures Text(step) != "" && !IsSpace(Text(step)[|Text(step)| - 1])
  {
    MarkNotSpace();
    hide IsSpace, IntToText;
  }

  lemma SameEnd(a: string, b: string, s: string)
    requires s == a + b && b != ""
    ensures s != "" && s[|s| - 1] == b[|b| - 1]
  {
  }

  lemma WrittenTrimmed(steps: Steps)
    requires KeysOk(steps) && EndOk(steps)
    ensures Trimmed(Written(steps))
  {
    hide IsSpace, Written, Text;
    var init, last := steps[..|steps| - 1], steps[|steps| - 1];
    assert steps == init + [last];
    assert last.Key? ==> KeyOk(steps[|steps| - 1].name);
    WrittenSnoc(init, last);
    OneText(last);
    TextEnd(last);
    SameEnd(Written(init), Text(last), Written(steps));
    WrittenStart(steps);
    MarkNotSpace();
  }

  lemma {:induction false} RStripTail(a: string, c: char, b: string)
    requires !IsSpace(c)
    ensures RStrip(a + [c] + b) == a + [c] + RStrip(b)
    decreases |b|
  {
    hide IsSpace;
    var s := a + [c] + b;
    if b == "" {
      assert s == a + [c];
    } else if IsSpace(s[|s| - 1]) {
      assert s[..|s| - 1] == a + [c] + b[..|b| - 1];
      RStripTail(a, c, b[..|b| - 1]);
    }
  }

  lemma BodyOfStripped(s: string, t: string)
    requires t != "" && RStrip(s) == t && !IsSpace(t[0]) && t[0] != '$'
    ensures Strip(s) == t && Body(s) == if t[0] == '.' then t[1..] else t
  {
  }

  lemma ParseOf(intOf: string -> Option<int>, s: string, t: string)
    requires t != "" && RStrip(s) == t && (t[0] == '.' || t[0] == '[')
    ensures ParsePath(intOf, s) == if StepsOf(intOf, t) == Some([]) then None else StepsOf(intOf, t)
  {
    MarkNotSpace();
    BodyOfStripped(s, t);
    hide IsSpace, StepsOf;
    if t[0] == '.' {
      assert t == "." + t[1..];
      DotRead(intOf, t[1..]);
    }
  }

  lemma LastKey(init: Steps, name: string)
    ensures Written(init + [P.Key(name)]) == Written(init) + ['.'] + name
  {
    hide *;
    WrittenSnoc(init, P.Key(name));
    OneKey(name);
    DotJoins(Written(init), name);
  }

  lemma DotJoins(w: string, name: string)
    ensures w + ("." + name) == w + ['.'] + name
  {
  }

  /** What is parsed when the last key loses its blanks. */
  lemma StrippedKey(intOf: string -> Option<int>, init: Steps, name: string)
    ensures var t := Written(init) + ['.'] + RStrip(name);
      ParsePath(intOf, Written(init + [P.Key(name)])) == if StepsOf(intOf, t) == Some([]) then None else StepsOf(intOf, t)
  {
    var w := Written(init);
    var t := w + ['.'] + RStrip(name);
    LastKey(init, name);
    MarkNotSpace();
    RStripTail(w, '.', name);
    WrittenStart(init);
    hide IsSpace, StepsOf, RStrip, Written;
    assert t[0] == '.' || t[0] == '[';
    ParseOf(intOf, w + ['.'] + name, t);
  }

  /** A blank at the end of the last key is lost, and with it the key or its end. */
  lemma BlankEndLost(intOf: string -> Option<int>, init: Steps, name: string)
    requires ReadsIntegers(intOf) && KeysOk(init) && KeyOk(name) && RStrip(name) != name
    ensures ParsePath(intOf, Written(init + [P.Key(name)])) != Some(init + [P.Key(name)])
  {
    var short := RStrip(name);
    StrippedKey(intOf, init, name);
    RStripPrefix(name);
    hide *;
    if short == "" {
      assert Written(init) + ['.'] + short == Written(init) + ".";
      WrittenRead(intOf, init, ".");
      assert |init + [P.Key(name)]| == |init| + 1;
    } else {
      ShorterKey(name, short);
      KeysSnoc(init, short);
      LastKey(init, short);
      assert Written(init + [P.Key(short)]) == Written(init + [P.Key(short)]) + "";
      WrittenRead(intOf, init + [P.Key(short)], "");
      assert (init + [P.Key(short)])[|init|] != (init + [P.Key(name)])[|init|];
    }
  }

  lemma KeysSnoc(init: Steps, name: string)
    requires KeysOk(init) && KeyOk(name)
    ensures KeysOk(init + [P.Key(name)])
  {
    hide KeyOk;
  }

  lemma EndsInBlank(name: string)
    requires name != "" && IsSpace(name[|name| - 1])
    ensures RStrip(name) != name
  {
    hide IsSpace;
    RStripPrefix(name);
  }

  lemma OneKey(name: string)
    ensures Written([P.Key(name)]) == "." + name
  {
    assert [P.Key(name)][1..] == [];
  }

  lemma ShorterKey(name: string, short: string)
    requires KeyOk(name) && short != "" && short <= name
    ensures KeyOk(short)
  {
    assert forall c | c in short :: c in name;
  }

  /** A list of steps written as a path is parsed back to itself exactly when there is a step, no key is empty or holds
      a dot or an opening bracket, and the last key does not end in a blank. */
  lemma PathRoundTrip(intOf: string -> Option<int>, steps: Steps)
    requires ReadsIntegers(intOf)
    ensures ParsePath(intOf, Written(steps)) == Some(steps) <==> KeysOk(steps) && EndOk(steps)
  {
    hide IsSpace, StepsOf, Written;
    if KeysOk(steps) && EndOk(steps) {
      var s := Written(steps);
      WrittenTrimmed(steps);
      WrittenStart(steps);
      assert RStrip(s) == s;
      ParseOf(intOf, s, s);
      assert s + "" == s;
      WrittenRead(intOf, steps, "");
    } else if KeysOk(steps) && steps != [] {
      var init, name := steps[..|steps| - 1], steps[|steps| - 1].name;
      assert KeyOk(steps[|steps| - 1].name);
      assert forall i | 0 <= i < |init| && init[i].Key? :: KeyOk(steps[i].name);
      assert steps == init + [P.Key(name)];
      EndsInBlank(name);
      BlankEndLost(intOf, init, name);
    }
    if ParsePath(intOf, Written(steps)).Some? {
      ParsedKeysOk(intOf, Body(Written(steps)));
    }
  }
}
