/** The TRex score and its loss account, of scripts/decbench/structscore.py. */
module Trex {

  datatype Option<+T> = None | Some(value: T)

  datatype Kind = NoType | Func | Uncommitted | Void | Primitive | Composite

  /** What parse_type() knows of a type spelling. */
  datatype TypeRec = TypeRec(ptr: nat, base: string, kind: Kind, unsigned: bool)

  const STEPS: nat := 6

  predicate Scalar(k: Kind) { k == Void || k == Primitive }

  /** The six predicates before the first failure stops them, and whether the sign could not be judged.
      primitives is the table of primitive names. */
  function RawPredicates(primitives: string -> Option<int>, pred: TypeRec, gt: TypeRec, gtSign: Option<bool>): (seq<bool>, bool) {
    var p := [true, (pred.ptr > 0) == (gt.ptr > 0), pred.ptr == gt.ptr, (pred.kind == Composite) == (gt.kind == Composite)];
    if pred.kind == Uncommitted || gt.kind == Uncommitted then (p + [false, false], false)
    else if !(Scalar(pred.kind) && Scalar(gt.kind)) then (p + [true, true], false)
    else
      var same := primitives(pred.base).Some? && primitives(pred.base) == primitives(gt.base);
      (p + [same, same && gtSign.Some? && pred.unsigned == gtSign.value], same && gtSign.None?)
  }

  /** Everything after the first false is false. */
  function UpToFailure(p: seq<bool>): (r: seq<bool>)
    ensures |r| == |p|
  {
    if p == [] then [] else if !p[0] then seq(|p|, _ => false) else [true] + UpToFailure(p[1..])
  }

  function Predicates(primitives: string -> Option<int>, pred: Option<TypeRec>, gt: TypeRec, strict: bool,
                      gtSign: Option<bool>): (r: (seq<bool>, bool))
    ensures |r.0| == STEPS
  {
    if pred.None? || pred.value.kind == NoType || (strict && pred.value.kind == Uncommitted) then
      ([false, false, false, false, false, false], false)
    else
      var raw := RawPredicates(primitives, pred.value, gt, gtSign);
      var out := UpToFailure(raw.0);
      (out, raw.1 && false !in out[..5])
  }

  lemma {:induction false} CutAt(p: seq<bool>, j: nat)
    requires j < |p|
    ensures UpToFailure(p)[j] <==> forall k | 0 <= k <= j :: p[k]
  {
    if p[0] && j > 0 {
      CutAt(p[1..], j - 1);
      assert forall k | 1 <= k <= j :: p[k] == p[1..][k - 1];
      assert forall k | 0 <= k <= j - 1 :: p[1..][k] == p[k + 1];
    }
  }

  method CutLoop(p: seq<bool>) returns (out: seq<bool>)
    ensures out == UpToFailure(p)
  {
    hide UpToFailure;
    var alive := true;
    out := [];
    for i := 0 to |p|
      invariant |out| == i && (alive <==> forall k | 0 <= k < i :: p[k])
      invariant forall j | 0 <= j < i :: out[j] == UpToFailure(p)[j]
    {
      CutAt(p, i);
      out := out + [p[i] && alive];
      alive := alive && p[i];
    }
  }

  method PredicatesLoop(primitives: string -> Option<int>, pred: Option<TypeRec>, gt: TypeRec, strict: bool,
                        gtSign: Option<bool>) returns (passed: seq<bool>, signUnknown: bool)
    ensures (passed, signUnknown) == Predicates(primitives, pred, gt, strict, gtSign)
  {
    hide RawPredicates, UpToFailure;
    if pred.None? || pred.value.kind == NoType || (strict && pred.value.kind == Uncommitted) {
      return [false, false, false, false, false, false], false;
    }
    var raw := RawPredicates(primitives, pred.value, gt, gtSign);
    assert |raw.0| == STEPS by { SixPredicates(primitives, pred.value, gt, gtSign); }
    passed := CutLoop(raw.0);
    signUnknown := raw.1 && false !in passed[..5];
  }

  lemma SixPredicates(primitives: string -> Option<int>, pred: TypeRec, gt: TypeRec, gtSign: Option<bool>)
    ensures |RawPredicates(primitives, pred, gt, gtSign).0| == STEPS
  {
  }

  /** f(p1..p6) = p1*(1+p2*(1+...)) */
  function Score(passed: seq<bool>): nat {
    if passed == [] then 0 else if passed[0] then 1 + Score(passed[1..]) else 0
  }

  method ScoreLoop(passed: seq<bool>) returns (score: nat)
    ensures score == Score(passed)
  {
    score := 0;
    for i := |passed| downto 0
      invariant score == Score(passed[i..])
    {
      assert passed[i..][1..] == passed[i + 1..];
      score := if passed[i] then 1 + score else 0;
    }
    assert passed[0..] == passed;
  }

  /** k trues followed by falses. */
  predicate Block(passed: seq<bool>, k: nat) {
    k <= |passed| && forall i | 0 <= i < |passed| :: passed[i] <==> i < k
  }

  lemma {:induction false} BlockScore(passed: seq<bool>, k: nat)
    requires Block(passed, k)
    ensures Score(passed) == k
  {
    if k > 0 {
      assert passed[0];
      BlockScore(passed[1..], k - 1);
    }
  }

  lemma {:induction false} UpToFailureIsBlock(p: seq<bool>)
    ensures exists k: nat :: Block(UpToFailure(p), k)
  {
    if p == [] || !p[0] {
      assert Block(UpToFailure(p), 0);
    } else {
      UpToFailureIsBlock(p[1..]);
      var k: nat :| Block(UpToFailure(p[1..]), k);
      assert Block(UpToFailure(p), k + 1);
    }
  }

  /** The predicate list of a variable is always a block of trues then falses, and the score is its length. */
  lemma PredicatesAreBlock(primitives: string -> Option<int>, pred: Option<TypeRec>, gt: TypeRec, strict: bool,
                           gtSign: Option<bool>)
    ensures var passed := Predicates(primitives, pred, gt, strict, gtSign).0;
      Block(passed, Score(passed)) && Score(passed) <= STEPS
  {
    var passed := Predicates(primitives, pred, gt, strict, gtSign).0;
    if pred.None? || pred.value.kind == NoType || (strict && pred.value.kind == Uncommitted) {
      assert Block(passed, 0);
      BlockScore(passed, 0);
    } else {
      var raw := RawPredicates(primitives, pred.value, gt, gtSign).0;
      UpToFailureIsBlock(raw);
      var k: nat :| Block(UpToFailure(raw), k);
      BlockScore(passed, k);
    }
  }

  // ---------- what a score says ----------

  /** The score of a prediction as a list of differences: nothing predicted, pointer or not, pointer depth, struct or not,
      uncommitted, spelling, sign. What can not be judged on two types that are not both primitive counts as passed, an
      unknown sign as failed. */
  lemma ScoreMeans(primitives: string -> Option<int>, pred: Option<TypeRec>, gt: TypeRec, strict: bool, gtSign: Option<bool>)
    ensures Score(Predicates(primitives, pred, gt, strict, gtSign).0) ==
      if pred.None? || pred.value.kind == NoType || (strict && pred.value.kind == Uncommitted) then 0
      else if (pred.value.ptr > 0) != (gt.ptr > 0) then 1
      else if pred.value.ptr != gt.ptr then 2
      else if (pred.value.kind == Composite) != (gt.kind == Composite) then 3
      else if pred.value.kind == Uncommitted || gt.kind == Uncommitted then 4
      else if pred.value.kind !in {Void, Primitive} || gt.kind !in {Void, Primitive} then 6
      else if primitives(pred.value.base).None? || primitives(pred.value.base) != primitives(gt.base) then 4
      else if gtSign != Some(pred.value.unsigned) then 5
      else 6
  {
    var passed := Predicates(primitives, pred, gt, strict, gtSign).0;
    if pred.Some? && pred.value.kind != NoType && !(strict && pred.value.kind == Uncommitted) {
      var raw := RawPredicates(primitives, pred.value, gt, gtSign).0;
      assert raw[0];
      FirstFalse(raw, if !raw[1] then 1 else if !raw[2] then 2 else if !raw[3] then 3 else if !raw[4] then 4 else if !raw[5] then 5 else 6);
      hide Score, UpToFailure;
    } else {
      assert Block(passed, 0);
      BlockScore(passed, 0);
    }
  }

  /** The score of a cut list is where its first false is. */
  lemma {:induction false} FirstFalse(p: seq<bool>, k: nat)
    requires k <= |p| && (forall i | 0 <= i < k :: p[i]) && (k < |p| ==> !p[k])
    ensures Score(UpToFailure(p)) == k
  {
    if k > 0 {
      assert p[0];
      FirstFalse(p[1..], k - 1);
      assert UpToFailure(p)[1..] == UpToFailure(p[1..]);
    }
  }

  /** A prediction equal to the truth, of a known sign, scores 6; whether it is known that the sign was not judged. */
  lemma PerfectScore(primitives: string -> Option<int>, t: TypeRec, strict: bool)
    requires t.kind == Primitive && primitives(t.base).Some?
    ensures Score(Predicates(primitives, Some(t), t, strict, Some(t.unsigned)).0) == 6
    ensures !Predicates(primitives, Some(t), t, strict, Some(t.unsigned)).1
    ensures Score(Predicates(primitives, Some(t), t, strict, Some(!t.unsigned)).0) == 5
    ensures Score(Predicates(primitives, Some(t), t, strict, None).0) == 5 && Predicates(primitives, Some(t), t, strict, None).1
  {
    ScoreMeans(primitives, Some(t), t, strict, Some(t.unsigned));
    ScoreMeans(primitives, Some(t), t, strict, Some(!t.unsigned));
    ScoreMeans(primitives, Some(t), t, strict, None);
    SignUnjudged(primitives, Some(t), t, strict, Some(t.unsigned));
    SignUnjudged(primitives, Some(t), t, strict, None);
    hide Predicates, Score;
  }

  /** The sign is reported as not judged exactly when it is unknown and the only thing in the way. */
  lemma SignUnjudged(primitives: string -> Option<int>, pred: Option<TypeRec>, gt: TypeRec, strict: bool, gtSign: Option<bool>)
    ensures Predicates(primitives, pred, gt, strict, gtSign).1 <==>
      && pred.Some? && gtSign.None? && pred.value.ptr == gt.ptr
      && pred.value.kind in {Void, Primitive} && gt.kind in {Void, Primitive}
      && primitives(pred.value.base).Some? && primitives(pred.value.base) == primitives(gt.base)
  {
    if pred.Some? && pred.value.kind != NoType && !(strict && pred.value.kind == Uncommitted) {
      var raw := RawPredicates(primitives, pred.value, gt, gtSign).0;
      var out := UpToFailure(raw);
      forall j | 0 <= j < 5 ensures out[j] <==> forall k | 0 <= k <= j :: raw[k] {
        CutAt(raw, j);
      }
      assert raw[0];
      assert false in out[..5] <==> !(raw[0] && raw[1] && raw[2] && raw[3] && raw[4]) by {
        if raw[0] && raw[1] && raw[2] && raw[3] && raw[4] {
          assert forall j | 0 <= j < 5 :: out[j];
        } else {
          assert !out[4] && out[..5][4] == out[4];
        }
      }
      hide UpToFailure;
    }
  }

  // ---------- the account ----------

  /** One ground-truth variable: the type it was paired with, if any, its own, and its DWARF sign. */
  datatype Case = Case(pred: Option<TypeRec>, gt: TypeRec, sign: Option<bool>)

  datatype Settings = Settings(primitives: string -> Option<int>, strict: bool)

  function Passed(s: Settings, c: Case): (r: seq<bool>)
    ensures |r| == STEPS
  {
    Predicates(s.primitives, c.pred, c.gt, s.strict, c.sign).0
  }

  function ScoreOf(s: Settings, c: Case): nat { Score(Passed(s, c)) }

  /** How many of the cases have a score in [lo, hi). */
  function Count(s: Settings, cases: seq<Case>, lo: int, hi: int): nat {
    if cases == [] then 0
    else Count(s, cases[..|cases| - 1], lo, hi) + if lo <= ScoreOf(s, cases[|cases| - 1]) < hi then 1 else 0
  }

  function Scored(s: Settings, cases: seq<Case>): nat {
    if cases == [] then 0 else Scored(s, cases[..|cases| - 1]) + ScoreOf(s, cases[|cases| - 1])
  }

  function Flatten(functions: seq<seq<Case>>): seq<Case> {
    if functions == [] then [] else Flatten(functions[..|functions| - 1]) + functions[|functions| - 1]
  }

  datatype Report = Report(total: nat, unmatched: nat, scored: nat, scored5: nat, histogram: seq<nat>,
                           reached: seq<nat>, passed: seq<nat>, failures: seq<int>, lost: int)

  /** The counters agree with the cases seen so far. */
  predicate Tallied(s: Settings, cases: seq<Case>, histogram: seq<nat>, reached: seq<nat>, passed: seq<nat>) {
    && |histogram| == 7 && |reached| == STEPS && |passed| == STEPS
    && (forall v | 0 <= v < 7 :: histogram[v] == Count(s, cases, v, v + 1))
    && (forall i | 0 <= i < STEPS :: reached[i] == Count(s, cases, i, 7))
    && (forall i | 0 <= i < STEPS :: passed[i] == Count(s, cases, i + 1, 7))
  }

  lemma CountSnoc(s: Settings, cases: seq<Case>, c: Case, lo: int, hi: int)
    ensures Count(s, cases + [c], lo, hi) == Count(s, cases, lo, hi) + if lo <= ScoreOf(s, c) < hi then 1 else 0
    ensures Scored(s, cases + [c]) == Scored(s, cases) + ScoreOf(s, c)
  {
    assert (cases + [c])[..|cases|] == cases;
  }

  /** One more at every index in [lo, hi). */
  function Bump(a: seq<nat>, lo: int, hi: int): seq<nat> {
    seq(|a|, i requires 0 <= i < |a| => a[i] + if lo <= i < hi then 1 else 0)
  }

  /** One variable's walk over the steps: it is counted as reaching every step up to its score, and as passing every
      step before it. */
  method WalkSteps(passed: seq<bool>, reached0: seq<nat>, passed0: seq<nat>) returns (reached: seq<nat>, passedSteps: seq<nat>)
    requires |passed| == |reached0| == |passed0| == STEPS && Block(passed, Score(passed))
    ensures reached == Bump(reached0, 0, Score(passed) + 1) && passedSteps == Bump(passed0, 0, Score(passed))
  {
    hide Score;
    reached, passedSteps := reached0, passed0;
    var going, n := true, 0;
    while n < STEPS && going
      invariant 0 <= n <= STEPS && |reached| == |passedSteps| == STEPS
      invariant going ==> n <= Score(passed)
      invariant !going ==> n == Score(passed) + 1
      invariant forall i | 0 <= i < STEPS :: reached[i] == reached0[i] + if i < n then 1 else 0
      invariant forall i | 0 <= i < STEPS :: passedSteps[i] == passed0[i] + if i < n && i < Score(passed) then 1 else 0
      decreases STEPS - n
    {
      reached := reached[n := reached[n] + 1];
      if passed[n] {
        passedSteps := passedSteps[n := passedSteps[n] + 1];
      }
      going := passed[n];
      n := n + 1;
    }
  }

  function Scored5(s: Settings, cases: seq<Case>): nat {
    if cases == [] then 0 else Scored5(s, cases[..|cases| - 1]) + Score(Passed(s, cases[|cases| - 1])[..5])
  }

  function Unmatched(cases: seq<Case>): nat {
    if cases == [] then 0 else Unmatched(cases[..|cases| - 1]) + if cases[|cases| - 1].pred.None? then 1 else 0
  }

  lemma {:induction false} CountSplits(s: Settings, cases: seq<Case>, lo: int, mid: int, hi: int)
    requires lo <= mid <= hi
    ensures Count(s, cases, lo, hi) == Count(s, cases, lo, mid) + Count(s, cases, mid, hi)
  {
    if cases != [] {
      CountSplits(s, cases[..|cases| - 1], lo, mid, hi);
    }
  }

  lemma ScoreInRange(s: Settings, c: Case)
    ensures Block(Passed(s, c), ScoreOf(s, c)) && 0 <= ScoreOf(s, c) <= 6
  {
    PredicatesAreBlock(s.primitives, c.pred, c.gt, s.strict, c.sign);
  }

  /** The sum of the scores, and the weighted histogram. */
  lemma {:induction false} ScoredByValue(s: Settings, cases: seq<Case>)
    ensures Scored(s, cases) == Count(s, cases, 1, 2) + 2 * Count(s, cases, 2, 3) + 3 * Count(s, cases, 3, 4)
         + 4 * Count(s, cases, 4, 5) + 5 * Count(s, cases, 5, 6) + 6 * Count(s, cases, 6, 7)
    ensures |cases| == Count(s, cases, 0, 1) + Count(s, cases, 1, 2) + Count(s, cases, 2, 3) + Count(s, cases, 3, 4)
         + Count(s, cases, 4, 5) + Count(s, cases, 5, 6) + Count(s, cases, 6, 7)
  {
    if cases != [] {
      hide *;
      var init, c := cases[..|cases| - 1], cases[|cases| - 1];
      assert cases == init + [c];
      ScoredByValue(s, init);
      ScoreInRange(s, c);
      CountSnoc(s, init, c, 0, 1);
      CountSnoc(s, init, c, 1, 2);
      CountSnoc(s, init, c, 2, 3);
      CountSnoc(s, init, c, 3, 4);
      CountSnoc(s, init, c, 4, 5);
      CountSnoc(s, init, c, 5, 6);
      CountSnoc(s, init, c, 6, 7);
    }
  }

  /** A list of sums: the histogram's weighted sum and the loss. */
  function Weighted(h: seq<nat>): nat
    requires |h| == 7
  {
    h[1] + 2 * h[2] + 3 * h[3] + 4 * h[4] + 5 * h[5] + 6 * h[6]
  }

  function Failures(reached: seq<nat>, passed: seq<nat>): seq<int>
    requires |reached| == STEPS && |passed| == STEPS
  {
    seq(STEPS, i requires 0 <= i < STEPS => (reached[i] as int) - (passed[i] as int))
  }

  function Lost(failures: seq<int>): int
    requires |failures| == STEPS
  {
    6 * failures[0] + 5 * failures[1] + 4 * failures[2] + 3 * failures[3] + 2 * failures[4] + failures[5]
  }

  /** Main result: over any variables, six points each less the points lost at the failing steps is the summed score,
      which is also the weighted histogram; and the failures at a step are the variables of that score. */
  lemma AccountIsExact(s: Settings, cases: seq<Case>, histogram: seq<nat>, reached: seq<nat>, passed: seq<nat>)
    requires Tallied(s, cases, histogram, reached, passed)
    ensures |reached| == STEPS && |passed| == STEPS
    ensures var failures := Failures(reached, passed);
      && (forall i | 0 <= i < STEPS :: failures[i] == histogram[i])
      && 6 * |cases| - Lost(failures) == Scored(s, cases) == Weighted(histogram)
  {
    var failures := Failures(reached, passed);
    forall i | 0 <= i < STEPS ensures failures[i] == histogram[i] {
      CountSplits(s, cases, i, i + 1, 7);
    }
    ScoredByValue(s, cases);
    hide Count, Scored;
    assert |failures| == STEPS && |histogram| == 7;
  }

  lemma NothingFlat(functions: seq<seq<Case>>)
    ensures Flatten(functions[..0]) == []
  {
  }

  lemma FlattenSnoc(functions: seq<seq<Case>>, n: nat)
    requires n < |functions|
    ensures Flatten(functions[..n + 1]) == Flatten(functions[..n]) + functions[n]
  {
    assert functions[..n + 1][..n] == functions[..n];
  }

  class Tally {
    var cases: nat
    var unmatched: nat
    var scored: nat
    var scored5: nat
    var histogram: seq<nat>
    var reached: seq<nat>
    var passed: seq<nat>

    /** The counters of the cases seen. */
    predicate Of(s: Settings, seen: seq<Case>)
      reads this
    {
      OfParts(s, seen, cases, unmatched, scored, scored5, histogram, reached, passed)
    }

    constructor (s: Settings)
      ensures Of(s, [])
    {
      cases, unmatched, scored, scored5 := 0, 0, 0, 0;
      histogram, reached, passed := [0, 0, 0, 0, 0, 0, 0], [0, 0, 0, 0, 0, 0], [0, 0, 0, 0, 0, 0];
    }

    method Add(s: Settings, ghost seen: seq<Case>, c: Case)
      requires Of(s, seen)
      modifies this
      ensures Of(s, seen + [c])
    {
      hide Tallied, Count, Scored, Scored5, Unmatched, Predicates, Passed, Score, Block, ScoreOf, Bump;
      LengthsOf(s, seen, histogram, reached, passed);
      if c.pred.None? {
        unmatched := unmatched + 1;
      }
      var p, _ := PredicatesLoop(s.primitives, c.pred, c.gt, s.strict, c.sign);
      PassedIs(s, c);
      var value := ScoreLoop(p);
      var value5 := ScoreLoop(p[..5]);
      ScoreInRange(s, c);
      cases, scored, scored5 := cases + 1, scored + value, scored5 + value5;
      histogram := histogram[value := histogram[value] + 1];
      reached, passed := WalkSteps(p, reached, passed);
      BumpOne(old(histogram), value);
      TalliedSnoc(s, seen, c, old(histogram), old(reached), old(passed));
      TotalsSnoc(s, seen, c);
    }
  }

  predicate OfParts(s: Settings, seen: seq<Case>, cases: nat, unmatched: nat, scored: nat, scored5: nat,
                    histogram: seq<nat>, reached: seq<nat>, passed: seq<nat>)
  {
    && cases == |seen| && unmatched == Unmatched(seen) && scored == Scored(s, seen) && scored5 == Scored5(s, seen)
    && Tallied(s, seen, histogram, reached, passed)
  }

  lemma PassedIs(s: Settings, c: Case)
    ensures Predicates(s.primitives, c.pred, c.gt, s.strict, c.sign).0 == Passed(s, c) && ScoreOf(s, c) == Score(Passed(s, c))
  {
  }

  lemma BumpOne(a: seq<nat>, i: nat)
    requires i < |a|
    ensures a[i := a[i] + 1] == Bump(a, i, i + 1)
  {
  }

  lemma TalliedSnoc(s: Settings, cases: seq<Case>, c: Case, histogram: seq<nat>, reached: seq<nat>, passed: seq<nat>)
    requires Tallied(s, cases, histogram, reached, passed)
    ensures var value := ScoreOf(s, c);
      Tallied(s, cases + [c], Bump(histogram, value, value + 1), Bump(reached, 0, value + 1), Bump(passed, 0, value))
  {
    ScoreInRange(s, c);
    forall lo: int, hi: int ensures Count(s, cases + [c], lo, hi) == Count(s, cases, lo, hi) + if lo <= ScoreOf(s, c) < hi then 1 else 0 {
      CountSnoc(s, cases, c, lo, hi);
    }
    hide Count, ScoreOf;
  }

  lemma TotalsSnoc(s: Settings, cases: seq<Case>, c: Case)
    ensures Scored(s, cases + [c]) == Scored(s, cases) + Score(Passed(s, c))
    ensures Scored5(s, cases + [c]) == Scored5(s, cases) + Score(Passed(s, c)[..5])
    ensures Unmatched(cases + [c]) == Unmatched(cases) + if c.pred.None? then 1 else 0
  {
    assert (cases + [c])[..|cases|] == cases;
    hide Passed, Score;
  }

  method MeasureTrex(s: Settings, functions: seq<seq<Case>>) returns (r: Report)
    ensures var cases := Flatten(functions);
      && r.total == |cases| && r.unmatched == Unmatched(cases)
      && r.scored == Scored(s, cases) && r.scored5 == Scored5(s, cases)
      && Tallied(s, cases, r.histogram, r.reached, r.passed)
      && |r.failures| == STEPS && (forall i | 0 <= i < STEPS :: r.failures[i] == r.histogram[i])
      && r.lost == Lost(r.failures)
      && 6 * r.total - r.lost == r.scored == Weighted(r.histogram)
  {
    hide Tallied, Count, Scored, Scored5, Unmatched, Flatten;
    var t := new Tally(s);
    ghost var seen: seq<Case> := [];
    assert Flatten(functions[..0]) == [] by { NothingFlat(functions); }
    for n := 0 to |functions|
      invariant t.Of(s, seen) && seen == Flatten(functions[..n])
    {
      FlattenSnoc(functions, n);
      ghost var before := seen;
      for gi := 0 to |functions[n]|
        invariant t.Of(s, seen) && seen == before + functions[n][..gi]
      {
        t.Add(s, seen, functions[n][gi]);
        seen := seen + [functions[n][gi]];
        assert functions[n][..gi + 1] == functions[n][..gi] + [functions[n][gi]];
      }
      assert functions[n][..|functions[n]|] == functions[n];
    }
    assert functions[..|functions|] == functions;
    LengthsOf(s, seen, t.histogram, t.reached, t.passed);
    var failures := Failures(t.reached, t.passed);
    AccountIsExact(s, seen, t.histogram, t.reached, t.passed);
    r := Report(t.cases, t.unmatched, t.scored, t.scored5, t.histogram, t.reached, t.passed, failures, Lost(failures));
  }

  lemma LengthsOf(s: Settings, cases: seq<Case>, histogram: seq<nat>, reached: seq<nat>, passed: seq<nat>)
    requires Tallied(s, cases, histogram, reached, passed)
    ensures |histogram| == 7 && |reached| == STEPS && |passed| == STEPS
  {
  }
}
