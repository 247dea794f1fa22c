/** What paths, operators, aggregates and clauses of scripts/repipe/probe.py say, in terms of the document and the run. */
module ProbeMeaning {
  import opened Probe

  // ---------- one step at a time ----------

  lemma ResolveOne(doc: Json, step: Step)
    ensures Resolve(doc, [step]) == StepFrom(Some(doc), step)
  {
    hide StepFrom;
    assert [step][1..] == [] && [Some(doc)][1..] == [];
    assert StepAll([Some(doc)], step) == StepFrom(Some(doc), step) + StepAll([], step);
    assert ResolveFrom([Some(doc)], [step]) == ResolveFrom(StepAll([Some(doc)], step), []);
  }

  /** An index takes the item at that place, from the front, or from the end when it is negative. */
  lemma ResolveIndex(items: seq<Json>, i: int)
    ensures 0 <= i < |items| ==> Resolve(Arr(items), [Index(i)]) == [Some(items[i])]
    ensures -|items| <= i < 0 ==> Resolve(Arr(items), [Index(i)]) == [Some(items[|items| + i])]
    ensures !(-|items| <= i < |items|) ==> Resolve(Arr(items), [Index(i)]) == [None]
  {
    ResolveOne(Arr(items), Index(i));
  }

  /** A key takes the value under it. */
  lemma ResolveKey(entries: seq<(string, Json)>, name: string)
    requires forall i, j | 0 <= i < j < |entries| :: entries[i].0 != entries[j].0
    ensures forall i | 0 <= i < |entries| && entries[i].0 == name :: Resolve(Obj(entries), [Key(name)]) == [Some(entries[i].1)]
    ensures (forall i | 0 <= i < |entries| :: entries[i].0 != name) ==> Resolve(Obj(entries), [Key(name)]) == [None]
  {
    ResolveOne(Obj(entries), Key(name));
    LookupIs(entries, name);
    hide Resolve;
    forall i: nat | i < |entries| && entries[i].0 == name ensures FirstNamed(entries, i, name) {
    }
  }

  /** [*] takes the items of a list, or the values of an object, in order; of an empty one a missing branch. */
  lemma ResolveAny(items: seq<Json>, entries: seq<(string, Json)>)
    ensures var r := Resolve(Arr(items), [Any]);
      if items == [] then r == [None] else |r| == |items| && forall i | 0 <= i < |items| :: r[i] == Some(items[i])
    ensures var r := Resolve(Obj(entries), [Any]);
      if entries == [] then r == [None] else |r| == |entries| && forall i | 0 <= i < |entries| :: r[i] == Some(entries[i].1)
  {
    ResolveOne(Arr(items), Any);
    ResolveOne(Obj(entries), Any);
    hide Resolve;
  }

  /** Any other pairing of a value with a step is missing. */
  lemma ResolveOther(doc: Json, step: Step)
    requires (step.Key? && !doc.Obj?) || (step.Index? && !doc.Arr?) || (step.Any? && !doc.Obj? && !doc.Arr?)
    ensures Resolve(doc, [step]) == [None]
  {
    ResolveOne(doc, step);
  }

  /** What a branch leads to: a missing one stays missing. */
  function Onward(f: Found, steps: seq<Step>): seq<Found> {
    match f case None => [None] case Some(v) => Resolve(v, steps)
  }

  function OnwardAll(cur: seq<Found>, steps: seq<Step>): seq<Found> {
    if cur == [] then [] else Onward(cur[0], steps) + OnwardAll(cur[1..], steps)
  }

  lemma {:induction false} StepAllAppend(a: seq<Found>, b: seq<Found>, step: Step)
    ensures StepAll(a + b, step) == StepAll(a, step) + StepAll(b, step)
  {
    hide StepFrom;
    if a == [] {
      assert a + b == b;
    } else {
      assert (a + b)[1..] == a[1..] + b && (a + b)[0] == a[0];
      StepAllAppend(a[1..], b, step);
      Regroup(StepFrom(a[0], step), StepAll(a[1..], step), StepAll(b, step));
    }
  }

  lemma Regroup<T>(a: seq<T>, b: seq<T>, c: seq<T>)
    ensures a + (b + c) == (a + b) + c
  {
  }

  lemma {:induction false} ResolveFromAppend(a: seq<Found>, b: seq<Found>, steps: seq<Step>)
    ensures ResolveFrom(a + b, steps) == ResolveFrom(a, steps) + ResolveFrom(b, steps)
    decreases |steps|
  {
    hide StepAll;
    if steps != [] {
      StepAllAppend(a, b, steps[0]);
      ResolveFromAppend(StepAll(a, steps[0]), StepAll(b, steps[0]), steps[1..]);
    }
  }

  lemma {:induction false} MissingOnward(steps: seq<Step>)
    ensures ResolveFrom([None], steps) == [None]
    decreases |steps|
  {
    if steps != [] {
      MissingStays(steps[0]);
      var missing: seq<Found> := [None];
      assert missing[1..] == [] && StepAll(missing, steps[0]) == StepFrom(None, steps[0]) + StepAll([], steps[0]);
      MissingOnward(steps[1..]);
    }
  }

  lemma {:induction false} ResolveFromAll(cur: seq<Found>, steps: seq<Step>)
    ensures ResolveFrom(cur, steps) == OnwardAll(cur, steps)
    decreases |cur|
  {
    if cur == [] {
      NothingOnward(steps);
    } else {
      assert cur == [cur[0]] + cur[1..];
      ResolveFromAppend([cur[0]], cur[1..], steps);
      MissingOnward(steps);
      ResolveFromAll(cur[1..], steps);
      hide ResolveFrom;
    }
  }

  lemma {:induction false} NothingOnward(steps: seq<Step>)
    ensures ResolveFrom([], steps) == []
    decreases |steps|
  {
    if steps != [] {
      NothingOnward(steps[1..]);
    }
  }

  lemma {:induction false} ResolveFromSteps(cur: seq<Found>, a: seq<Step>, b: seq<Step>)
    ensures ResolveFrom(cur, a + b) == ResolveFrom(ResolveFrom(cur, a), b)
    decreases |a|
  {
    hide StepAll;
    if a == [] {
      assert a + b == b;
    } else {
      assert (a + b)[1..] == a[1..] + b && (a + b)[0] == a[0];
      ResolveFromSteps(StepAll(cur, a[0]), a[1..], b);
    }
  }

  /** A longer path goes on from each branch of the shorter one, in order. With the laws of single steps this says
      what every path resolves to. */
  lemma ResolveComposes(doc: Json, a: seq<Step>, b: seq<Step>)
    ensures Resolve(doc, []) == [Some(doc)]
    ensures Resolve(doc, a + b) == OnwardAll(Resolve(doc, a), b)
  {
    ResolveFromSteps([Some(doc)], a, b);
    ResolveFromAll(ResolveFrom([Some(doc)], a), b);
    hide OnwardAll;
  }

  // ---------- operators ----------

  // The operators in terms of the values the document has along the path: positive ones ask for one of them,
  // negative ones for all.

  /** Equal, not equal, there and not there. */
  lemma EqualityMeans(py: Python, want: Json, doc: Json, steps: seq<Step>)
    ensures var values := Resolve(doc, steps);
      && (JsonOk(py, Eq, want, values) <==> exists v :: Leads(doc, steps, v) && py.equal(v, want))
      && (JsonOk(py, Ne, want, values) <==> forall v :: Leads(doc, steps, v) ==> !py.equal(v, want))
      && (JsonOk(py, Exists, want, values) <==> exists v :: Leads(doc, steps, v))
      && (JsonOk(py, Absent, want, values) <==> forall v :: !Leads(doc, steps, v))
  {
    SomeOrAll(py, Eq, want, doc, steps);
    SomeOrAll(py, Ne, want, doc, steps);
    ExistsMeansPresent(py, want, doc, steps);
    Opposites(py, want, doc, steps);
    hide Resolve, Leads, Child, JsonOk;
  }

  /** The comparisons, either way round. */
  lemma OrderMeans(py: Python, want: Json, doc: Json, steps: seq<Step>)
    ensures var values := Resolve(doc, steps);
      && (JsonOk(py, Lt, want, values) <==> exists v :: Leads(doc, steps, v) && py.less(v, want) == Some(true))
      && (JsonOk(py, Gt, want, values) <==> exists v :: Leads(doc, steps, v) && py.less(want, v) == Some(true))
      && (JsonOk(py, Le, want, values) <==> exists v :: Leads(doc, steps, v) && py.lessOrEqual(v, want) == Some(true))
      && (JsonOk(py, Ge, want, values) <==> exists v :: Leads(doc, steps, v) && py.lessOrEqual(want, v) == Some(true))
  {
    SmallerMeans(py, want, doc, steps);
    LargerMeans(py, want, doc, steps);
    hide *;
  }

  lemma SmallerMeans(py: Python, want: Json, doc: Json, steps: seq<Step>)
    ensures JsonOk(py, Lt, want, Resolve(doc, steps)) <==> exists v :: Leads(doc, steps, v) && py.less(v, want) == Some(true)
    ensures JsonOk(py, Le, want, Resolve(doc, steps)) <==> exists v :: Leads(doc, steps, v) && py.lessOrEqual(v, want) == Some(true)
  {
    hide Resolve, Leads, Child, JsonOk;
    SomeOrAll(py, Lt, want, doc, steps);
    SomeOrAll(py, Le, want, doc, steps);
  }

  lemma LargerMeans(py: Python, want: Json, doc: Json, steps: seq<Step>)
    ensures JsonOk(py, Gt, want, Resolve(doc, steps)) <==> exists v :: Leads(doc, steps, v) && py.less(want, v) == Some(true)
    ensures JsonOk(py, Ge, want, Resolve(doc, steps)) <==> exists v :: Leads(doc, steps, v) && py.lessOrEqual(want, v) == Some(true)
  {
    hide Resolve, Leads, Child, JsonOk;
    SomeOrAll(py, Gt, want, doc, steps);
    SomeOrAll(py, Ge, want, doc, steps);
  }

  /** The lengths. */
  lemma LengthMeans(py: Python, want: Json, doc: Json, steps: seq<Step>)
    ensures var values := Resolve(doc, steps);
      && (JsonOk(py, LenEq, want, values) <==>
            exists v :: Leads(doc, steps, v) && py.length(v).Some? && py.intEqual(py.length(v).value, want))
      && (JsonOk(py, LenLt, want, values) <==>
            exists v :: Leads(doc, steps, v) && py.length(v).Some? && py.intLess(py.length(v).value, want) == Some(true))
      && (JsonOk(py, LenGt, want, values) <==>
            exists v :: Leads(doc, steps, v) && py.length(v).Some? && py.intMore(py.length(v).value, want) == Some(true))
  {
    hide Resolve, Leads, Child, JsonOk;
    SomeOrAll(py, LenEq, want, doc, steps);
    SomeOrAll(py, LenLt, want, doc, steps);
    SomeOrAll(py, LenGt, want, doc, steps);
  }

  /** Membership and patterns. */
  lemma ContentMeans(py: Python, want: Json, doc: Json, steps: seq<Step>)
    ensures var values := Resolve(doc, steps);
      && (JsonOk(py, Contains, want, values) <==> exists v :: Leads(doc, steps, v) && py.has(v, want) == Some(true))
      && (JsonOk(py, NotContains, want, values) <==> forall v :: Leads(doc, steps, v) ==> py.has(v, want) == Some(false))
      && (JsonOk(py, Matches, want, values) <==> exists v :: Leads(doc, steps, v) && py.search(v, want) == Some(true))
  {
    HasMeans(py, want, doc, steps);
    SomeOrAll(py, Matches, want, doc, steps);
    hide Resolve, Leads, Child, JsonOk;
  }

  lemma HasMeans(py: Python, want: Json, doc: Json, steps: seq<Step>)
    ensures JsonOk(py, Contains, want, Resolve(doc, steps)) <==> exists v :: Leads(doc, steps, v) && py.has(v, want) == Some(true)
    ensures JsonOk(py, NotContains, want, Resolve(doc, steps)) <==>
      forall v :: Leads(doc, steps, v) ==> py.has(v, want) == Some(false)
  {
    hide Resolve, Leads, Child, JsonOk;
    SomeOrAll(py, Contains, want, doc, steps);
    SomeOrAll(py, NotContains, want, doc, steps);
  }

  lemma SomeOrAll(py: Python, op: Op, want: Json, doc: Json, steps: seq<Step>)
    requires op != Exists && op != Absent
    ensures JsonOk(py, op, want, Resolve(doc, steps)) <==>
      if op == Ne || op == NotContains then forall v :: Leads(doc, steps, v) ==> OneOp(py, op, v, want)
      else exists v :: Leads(doc, steps, v) && OneOp(py, op, v, want)
  {
    var values := Resolve(doc, steps);
    ResolvedAre(doc, steps);
    hide Resolve, Leads, Child, OneOp;
    if op == Ne || op == NotContains {
      if forall v :: Leads(doc, steps, v) ==> OneOp(py, op, v, want) {
        forall f | f in values && f.Some? ensures OneOp(py, op, f.value, want) {
          assert Some(f.value) in values;
        }
      }
      if JsonOk(py, op, want, values) {
        forall v | Leads(doc, steps, v) ensures OneOp(py, op, v, want) {
          var f := Some(v);
          assert f in values && f.Some?;
        }
      }
    } else {
      if v :| Leads(doc, steps, v) && OneOp(py, op, v, want) {
        var f := Some(v);
        assert f in values && f.Some?;
      }
      if f :| f in values && f.Some? && OneOp(py, op, f.value, want) {
        assert Some(f.value) in values;
      }
    }
  }

  // ---------- aggregates ----------

  predicate Ascending(s: seq<real>) { forall i, j | 0 <= i < j < |s| :: s[i] <= s[j] }

  lemma {:induction false} InsertIs(x: real, s: seq<real>)
    requires Ascending(s)
    ensures Ascending(InsertReal(x, s)) && multiset(InsertReal(x, s)) == multiset(s) + multiset{x}
  {
    InsertStep(x, s);
    hide InsertReal;
    if s == [] || x <= s[0] {
      assert multiset([x] + s) == multiset(s) + multiset{x};
    } else {
      var rest := s[1..];
      assert Ascending(rest);
      InsertIs(x, rest);
      SmallestFirst(x, s, InsertReal(x, rest));
      OnePut(s, InsertReal(x, rest), x);
    }
  }

  lemma OnePut(s: seq<real>, r: seq<real>, x: real)
    requires s != [] && multiset(r) == multiset(s[1..]) + multiset{x}
    ensures multiset([s[0]] + r) == multiset(s) + multiset{x}
  {
    assert s == [s[0]] + s[1..];
  }

  lemma InsertStep(x: real, s: seq<real>)
    ensures InsertReal(x, s) == if s == [] || x <= s[0] then [x] + s else [s[0]] + InsertReal(x, s[1..])
  {
  }

  lemma SmallestFirst(x: real, s: seq<real>, r: seq<real>)
    requires s != [] && s[0] < x && Ascending(s) && Ascending(r) && multiset(r) == multiset(s[1..]) + multiset{x}
    ensures Ascending([s[0]] + r)
  {
    forall i | 0 <= i < |r| ensures s[0] <= r[i] {
      assert r[i] in multiset(r);
      assert r[i] == x || r[i] in s[1..];
    }
  }

  lemma {:induction false} SortedIs(s: seq<real>)
    ensures Ascending(Sorted(s)) && multiset(Sorted(s)) == multiset(s)
  {
    if s != [] {
      SortedIs(s[1..]);
      InsertIs(s[0], Sorted(s[1..]));
      assert s == [s[0]] + s[1..];
      hide Ascending;
    }
  }

  lemma LeastFirst(a: seq<real>, b: seq<real>)
    requires Ascending(a) && a != [] && b != [] && multiset(a) == multiset(b)
    ensures a[0] <= b[0]
  {
    assert b[0] in multiset(b);
    assert b[0] in a;
  }

  /** Two ascending arrangements of the same samples are the same. */
  lemma {:induction false} AscendingOnce(a: seq<real>, b: seq<real>)
    requires Ascending(a) && Ascending(b) && multiset(a) == multiset(b)
    ensures a == b
    decreases |a|
  {
    assert |a| == |multiset(a)| == |multiset(b)| == |b|;
    if a != [] {
      LeastFirst(a, b);
      LeastFirst(b, a);
      assert a == [a[0]] + a[1..] && b == [b[0]] + b[1..];
      assert multiset(a[1..]) == multiset(a) - multiset{a[0]};
      assert multiset(b[1..]) == multiset(b) - multiset{b[0]};
      AscendingOnce(a[1..], b[1..]);
    }
  }

  /** The median is the middle of the samples in ascending order, or halfway between the two middle ones. */
  lemma MedianIsMiddle(samples: seq<real>, s: seq<real>)
    requires samples != [] && Ascending(s) && multiset(s) == multiset(samples)
    ensures |s| == |samples|
    ensures |s| % 2 == 1 ==> StatOf(samples, Median) == s[(|s| - 1) / 2]
    ensures |s| % 2 == 0 ==> StatOf(samples, Median) == (s[|s| / 2 - 1] + s[|s| / 2]) / 2.0
  {
    SortedIs(samples);
    hide Sorted, Ascending;
    AscendingOnce(s, Sorted(samples));
  }

  lemma {:induction false} SumAppend(a: seq<real>, b: seq<real>)
    ensures Sum(a + b) == Sum(a) + Sum(b)
  {
    if a == [] {
      assert a + b == b;
    } else {
      assert (a + b)[1..] == a[1..] + b && (a + b)[0] == a[0];
      SumAppend(a[1..], b);
    }
  }

  /** One more sample moves the mean by its share; the mean of one sample is that sample. The other two aggregates
      are samples that no sample is beyond. */
  lemma OtherStats(samples: seq<real>, x: real)
    requires samples != []
    ensures var n := |samples| as real;
      StatOf(samples + [x], Mean) * (n + 1.0) == StatOf(samples, Mean) * n + x && StatOf([x], Mean) == x
    ensures StatOf(samples, Stat.Min) in samples && forall y | y in samples :: StatOf(samples, Stat.Min) <= y
    ensures StatOf(samples, Stat.Max) in samples && forall y | y in samples :: y <= StatOf(samples, Stat.Max)
  {
    MeanGrows(samples, x);
    ExtremesAre(samples);
    hide Sum, MinOf, MaxOf, Sorted;
    forall y | y in samples ensures StatOf(samples, Stat.Min) <= y <= StatOf(samples, Stat.Max) {
      var i :| 0 <= i < |samples| && samples[i] == y;
    }
  }

  lemma SumOne(x: real)
    ensures Sum([x]) == x
  {
    assert [x][1..] == [] && Sum([]) == 0.0;
  }

  lemma MeanGrows(samples: seq<real>, x: real)
    requires samples != []
    ensures var n := |samples| as real;
      StatOf(samples + [x], Mean) * (n + 1.0) == StatOf(samples, Mean) * n + x && StatOf([x], Mean) == x
  {
    SumAppend(samples, [x]);
    SumOne(x);
    hide Sum, MinOf, MaxOf, Sorted;
    var n, m := |samples| as real, |samples + [x]| as real;
    assert m == n + 1.0;
    Undivided(Sum(samples), n);
    Undivided(Sum(samples) + x, m);
    Undivided(x, 1.0);
  }

  lemma Undivided(s: real, n: real)
    requires n > 0.0
    ensures s / n * n == s && s / 1.0 == s
  {
  }

  // ---------- clauses ----------

  /** A number against its operator. */
  predicate NumMeans(py: Python, op: NumOp, v: Json, want: Json) {
    && (op == NumEq ==> py.equal(v, want)) && (op == NumNe ==> !py.equal(v, want))
    && (op == NumIn ==> py.has(want, v) == Some(true))
    && (op == NumLt ==> py.less(v, want) == Some(true)) && (op == NumGt ==> py.less(want, v) == Some(true))
    && (op == NumLe ==> py.lessOrEqual(v, want) == Some(true)) && (op == NumGe ==> py.lessOrEqual(want, v) == Some(true))
  }

  ghost predicate NumbersMean(py: Python, pred: seq<(NumOp, Json)>, v: Found) {
    v.Some? && forall p | p in pred :: NumMeans(py, p.0, v.value, p.1)
  }

  lemma NumOkMeans(py: Python, pred: seq<(NumOp, Json)>, v: Found)
    ensures NumOk(py, pred, v) <==> NumbersMean(py, pred, v)
  {
    if v.Some? {
      forall op, want ensures NumOpOk(py, op, v.value, want) <==> NumMeans(py, op, v.value, want) {
      }
      hide NumOpOk, NumMeans;
      if NumbersMean(py, pred, v) {
        forall i | 0 <= i < |pred| ensures NumOpOk(py, pred[i].0, v.value, pred[i].1) {
          assert pred[i] in pred;
        }
      }
    }
  }

  ghost predicate JsonHolds(t: Tools, j: JsonPred, r: Run) {
    t.parse(r.stdout).Some? && JsonOk(t.py, j.op, j.want, Resolve(t.parse(r.stdout).value, j.steps))
  }

  /** A least or greatest value decides alone: no sample can make the verdict flaky then. With median and mean two samples
      do that exactly when one satisfies the clause and the other does not. */
  lemma CrossingIs(p: StatPred, base: Option<real>, samples: seq<real>)
    requires HasBase(p, base)
    ensures p.stat == Stat.Min || p.stat == Stat.Max ==> !Mixed(SampleOutcomes(p, base, samples))
    ensures p.stat == Median || p.stat == Mean ==>
      (Mixed(SampleOutcomes(p, base, samples)) <==>
        exists x, y | x in samples && y in samples :: Sat(p, base, x) && !Sat(p, base, y))
  {
    hide Sat;
    var outcomes := SampleOutcomes(p, base, samples);
    if p.stat == Median || p.stat == Mean {
      assert |outcomes| == |samples| && forall i | 0 <= i < |samples| :: outcomes[i] == Sat(p, base, samples[i]);
      if Mixed(outcomes) {
        var i :| 0 <= i < |outcomes| && outcomes[i];
        var j :| 0 <= j < |outcomes| && !outcomes[j];
        assert samples[i] in samples && samples[j] in samples;
      }
      if x, y :| x in samples && y in samples && Sat(p, base, x) && !Sat(p, base, y) {
        var i :| 0 <= i < |samples| && samples[i] == x;
        var j :| 0 <= j < |samples| && samples[j] == y;
        assert outcomes[i] in outcomes && outcomes[j] in outcomes;
      }
    }
  }

  /** A bound relative to a baseline needs one, and not 0. */
  predicate Usable(p: StatPred, base: Option<real>) {
    p.ratioLt.Some? || p.ratioGt.Some? ==> base.Some? && base.value != 0.0
  }

  /** Samples on both sides of the bounds of a median or mean. */
  ghost predicate Crossed(p: StatPred, base: Option<real>, samples: seq<real>) {
    && Usable(p, base) && HasBase(p, base) && (p.stat == Median || p.stat == Mean)
    && exists x, y | x in samples && y in samples :: Sat(p, base, x) && !Sat(p, base, y)
  }

  /** Something was measured, the aggregate is within the bounds, and no bound is crossed. */
  ghost predicate AggregateHolds(p: StatPred, base: Option<real>, samples: seq<real>) {
    samples != [] && Usable(p, base) && HasBase(p, base) && Sat(p, base, StatOf(samples, p.stat)) && !Crossed(p, base, samples)
  }

  lemma AggregateMeans(p: StatPred, base: Option<real>, samples: seq<real>)
    ensures StatPasses(p, base, samples) <==> AggregateHolds(p, base, samples)
    ensures Mixed(SampleOutcomes(p, base, samples)) <==> Crossed(p, base, samples)
  {
    hide Sat, StatOf;
    assert HasBase(p, base) <==> Usable(p, base);
    if HasBase(p, base) {
      CrossingIs(p, base, samples);
      hide SampleOutcomes, Mixed;
    }
  }

  /** Main result: a probe passes exactly when there was a run, none timed out or failed, each passed, and both aggregates
      hold; it is flaky exactly when two runs disagree or a bound is crossed. */
  lemma VerdictMeans(t: Tools, e: Expect, runs: seq<Run>, wallBase: Option<real>, rssBase: Option<real>)
    ensures Passes(t, e, runs, wallBase, rssBase) <==>
      && runs != [] && (forall r | r in runs :: !r.timedOut && !r.failed && RunPasses(t, Checkers(e), r))
      && (e.wallMs.Some? ==> AggregateHolds(e.wallMs.value, wallBase, Wall(runs)))
      && (e.maxRss.Some? ==> AggregateHolds(e.maxRss.value, rssBase, Rss(runs)))
    ensures Flaky(t, e, runs, wallBase, rssBase) <==>
      || (exists r, q | r in runs && q in runs :: RunPasses(t, Checkers(e), r) && !RunPasses(t, Checkers(e), q))
      || (e.wallMs.Some? && Crossed(e.wallMs.value, wallBase, Wall(runs)))
      || (e.maxRss.Some? && Crossed(e.maxRss.value, rssBase, Rss(runs)))
  {
    if e.wallMs.Some? {
      AggregateMeans(e.wallMs.value, wallBase, Wall(runs));
    }
    if e.maxRss.Some? {
      AggregateMeans(e.maxRss.value, rssBase, Rss(runs));
    }
    hide StatPasses, AggregateHolds, Crossed, Mixed, SampleOutcomes, RunPasses, Checkers, Wall, Rss;
  }

  /** A run passes exactly when its exit code and output size satisfy their predicates, every pattern is found in its
      own stream, or is not, standard output is JSON or not as asked, and every JSON clause holds of it. */
  lemma RunPassesMeans(t: Tools, e: Expect, r: Run)
    ensures RunPasses(t, Checkers(e), r) <==>
      && (e.exitCode.Some? ==> NumbersMean(t.py, e.exitCode.value, r.exitCode))
      && (e.stdoutBytes.Some? ==> NumbersMean(t.py, e.stdoutBytes.value, r.stdoutBytes))
      && (forall p | p in e.stdoutMatches :: t.search(p, r.stdout)) && (forall p | p in e.stdoutAbsent :: !t.search(p, r.stdout))
      && (forall p | p in e.stderrMatches :: t.search(p, r.stderr)) && (forall p | p in e.stderrAbsent :: !t.search(p, r.stderr))
      && (e.stdoutIsJson.Some? ==> (t.parse(r.stdout).Some? <==> e.stdoutIsJson.value))
      && (forall j | j in e.json :: JsonHolds(t, j, r))
  {
    CheckersAre(e);
    NumOkMeans(t.py, if e.exitCode.Some? then e.exitCode.value else [], r.exitCode);
    NumOkMeans(t.py, if e.stdoutBytes.Some? then e.stdoutBytes.value else [], r.stdoutBytes);
    hide Checkers, NumOk, NumbersMean, JsonOk, Resolve;
    var cs := Checkers(e);
    if RunPasses(t, cs, r) {
      assert e.exitCode.Some? ==> ClauseOk(t, ExitCode(e.exitCode.value), r);
      assert e.stdoutBytes.Some? ==> ClauseOk(t, StdoutBytes(e.stdoutBytes.value), r);
      assert forall p | p in e.stdoutMatches :: ClauseOk(t, StreamMatches(false, p), r);
      assert forall p | p in e.stdoutAbsent :: ClauseOk(t, StreamAbsent(false, p), r);
      assert forall p | p in e.stderrMatches :: ClauseOk(t, StreamMatches(true, p), r);
      assert forall p | p in e.stderrAbsent :: ClauseOk(t, StreamAbsent(true, p), r);
      assert e.stdoutIsJson.Some? ==> ClauseOk(t, IsJson(e.stdoutIsJson.value), r);
      assert forall j | j in e.json :: ClauseOk(t, JsonClause(j), r);
    }
  }

  lemma PatternsAre(matches: bool, stderr: bool, patterns: seq<string>, c: Clause)
    ensures c in Patterns(matches, stderr, patterns) <==>
      exists p | p in patterns :: c == if matches then StreamMatches(stderr, p) else StreamAbsent(stderr, p)
  {
    var cs := Patterns(matches, stderr, patterns);
    if p :| p in patterns && c == if matches then StreamMatches(stderr, p) else StreamAbsent(stderr, p) {
      var i :| 0 <= i < |patterns| && patterns[i] == p;
      assert cs[i] == c;
    }
    if c in cs {
      var i :| 0 <= i < |cs| && cs[i] == c;
      assert patterns[i] in patterns;
    }
  }

  lemma CheckersAre(e: Expect)
    ensures forall c :: c in Checkers(e) <==> Asked(e, c)
  {
    forall c ensures c in Checkers(e) <==> Asked(e, c) {
      CheckerIs(e, c);
    }
  }

  predicate Asked(e: Expect, c: Clause) {
    match c
    case ExitCode(pred) => e.exitCode == Some(pred)
    case StdoutBytes(pred) => e.stdoutBytes == Some(pred)
    case StreamMatches(err, p) => p in if err then e.stderrMatches else e.stdoutMatches
    case StreamAbsent(err, p) => p in if err then e.stderrAbsent else e.stdoutAbsent
    case IsJson(want) => e.stdoutIsJson == Some(want)
    case JsonClause(j) => j in e.json
  }

  lemma CheckerIs(e: Expect, c: Clause)
    ensures c in Checkers(e) <==> Asked(e, c)
  {
    PatternsAre(true, false, e.stdoutMatches, c);
    PatternsAre(false, false, e.stdoutAbsent, c);
    PatternsAre(true, true, e.stderrMatches, c);
    PatternsAre(false, true, e.stderrAbsent, c);
    var js := seq(|e.json|, i requires 0 <= i < |e.json| => JsonClause(e.json[i]));
    if c.JsonClause? && c.json in e.json {
      var i :| 0 <= i < |e.json| && e.json[i] == c.json;
      assert js[i] == c;
    }
    hide Patterns;
  }

  /** The samples of a metric are the measured ones of the runs, in order. */
  lemma {:induction false} SamplesAre(a: seq<Run>, r: Run)
    ensures Wall([]) == [] && Rss([]) == []
    ensures Wall(a + [r]) == Wall(a) + (match r.wallMs case Some(x) => [x] case None => [])
    ensures Rss(a + [r]) == Rss(a) + (match r.maxRss case Some(x) => [x] case None => [])
  {
    WallStep(a + [r]);
    if a == [] {
      assert a + [r] == [r] && [r][1..] == [];
    } else {
      assert (a + [r])[1..] == a[1..] + [r] && (a + [r])[0] == a[0];
      WallStep(a);
      SamplesAre(a[1..], r);
      hide Wall, Rss;
    }
  }

  lemma WallStep(a: seq<Run>)
    requires a != []
    ensures Wall(a) == (match a[0].wallMs case Some(x) => [x] case None => []) + Wall(a[1..])
    ensures Rss(a) == (match a[0].maxRss case Some(x) => [x] case None => []) + Rss(a[1..])
  {
  }
}
