/** How scripts/repipe/probe.py reads a JSON path that anyone may have written, in literal terms: the blanks around it,
    an initial $ and dot, each kind of step, dots anywhere between steps, and the texts it refuses. */
module ProbePathMeaning {
  import opened NeedValues
  import opened NeedReading
  import opened ProbePath
  import P = Probe

  /** One more step in front of what is read after it. */
  function Then(step: P.Step, rest: Option<Steps>): Option<Steps> {
    match rest case None => None case Some(steps) => Some([step] + steps)
  }

  lemma {:induction false} FoundNowhere(a: string, c: char)
    requires c !in a
    ensures Find(a, c) == |a|
  {
    if a != "" {
      assert a[0] in a && forall d | d in a[1..] :: d in a;
      FoundNowhere(a[1..], c);
    }
  }

  /** A dot between steps says nothing, however many there are. */
  lemma DotIsSkipped(intOf: string -> Option<int>, rest: string)
    ensures StepsOf(intOf, "." + rest) == StepsOf(intOf, rest) && StepsOf(intOf, "") == Some([])
  {
    assert ("." + rest)[1..] == rest && ("." + rest)[0] == '.';
  }

  /** A key goes up to the next dot or bracket. */
  lemma KeyIsRead(intOf: string -> Option<int>, name: string, rest: string)
    requires name != "" && '.' !in name && '[' !in name && (rest == "" || rest[0] == '.' || rest[0] == '[')
    ensures StepsOf(intOf, name + rest) == Then(P.Key(name), StepsOf(intOf, rest))
  {
    assert KeyOk(name);
    KeyRead(intOf, name, rest);
    hide StepsOf;
  }

  /** Brackets hold a star or an index; anything else in them is refused. */
  lemma BracketsAreRead(intOf: string -> Option<int>, token: string, rest: string)
    requires ']' !in token
    ensures StepsOf(intOf, "[" + token + "]" + rest) ==
      if token == "*" then Then(P.Any, StepsOf(intOf, rest))
      else match intOf(token) case Some(n) => Then(P.Index(n), StepsOf(intOf, rest)) case None => None
  {
    BracketRead(intOf, token, rest);
    hide StepsOf;
  }

  /** So is a bracket that is not closed. */
  lemma OpenBracketIsRefused(intOf: string -> Option<int>, rest: string)
    requires ']' !in rest
    ensures StepsOf(intOf, "[" + rest) == None
  {
    FoundNowhere("[" + rest, ']');
    assert ("[" + rest)[0] == '[';
    hide Find;
  }

  /** Main result: the blanks around a path do not count, nor do an initial $ and then an initial dot; a path without
      steps is refused. */
  lemma PathIsRead(intOf: string -> Option<int>, a: string, s: string, b: string)
    requires Spaces(a) && Core(s) && Spaces(b)
    ensures s == "" ==> ParsePath(intOf, a + s + b) == None
    ensures s != "" ==>
      var t := if s[0] == '$' then s[1..] else s;
      var steps := StepsOf(intOf, if t != "" && t[0] == '.' then t[1..] else t);
      ParsePath(intOf, a + s + b) == if steps == Some([]) then None else steps
  {
    StripIs(a, s, b);
    hide Strip, Spaces, Trimmed, StepsOf;
  }
}
