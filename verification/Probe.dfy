/** The probe evaluator of scripts/repipe/probe.py. */
module Probe {

  datatype Option<+T> = None | Some(value: T)

  datatype Json =
    | Null
    | Bool(b: bool)
    | Num(n: real)
    | Str(s: string)
    | Arr(items: seq<Json>)
    | Obj(entries: seq<(string, Json)>)

  // ---------- paths ----------

  datatype Step = Key(name: string) | Index(at: int) | Any

  /** None is MISSING. */
  type Found = Option<Json>

  function Lookup(entries: seq<(string, Json)>, name: string): Found {
    if entries == [] then None else if entries[0].0 == name then Some(entries[0].1) else Lookup(entries[1..], name)
  }

  function Somes(items: seq<Json>): seq<Found> {
    seq(|items|, i requires 0 <= i < |items| => Some(items[i]))
  }

  function Values(entries: seq<(string, Json)>): seq<Json> {
    seq(|entries|, i requires 0 <= i < |entries| => entries[i].1)
  }

  /** The branches of one step from one branch. */
  function StepFrom(v: Found, step: Step): (r: seq<Found>)
    ensures r != []
  {
    match (v, step)
    case (Some(Obj(entries)), Key(name)) => [Lookup(entries, name)]
    case (Some(Arr(items)), Index(i)) =>
      if 0 <= i < |items| then [Some(items[i])]
      else if -|items| <= i < 0 then [Some(items[|items| + i])]
      else [None]
    case (Some(Arr(items)), Any) => if items == [] then [None] else Somes(items)
    case (Some(Obj(entries)), Any) => if entries == [] then [None] else Somes(Values(entries))
    case _ => [None]
  }

  function StepAll(cur: seq<Found>, step: Step): seq<Found> {
    if cur == [] then [] else StepFrom(cur[0], step) + StepAll(cur[1..], step)
  }

  function ResolveFrom(cur: seq<Found>, steps: seq<Step>): seq<Found>
    decreases |steps|
  {
    if steps == [] then cur else ResolveFrom(StepAll(cur, steps[0]), steps[1..])
  }

  function Resolve(doc: Json, steps: seq<Step>): seq<Found> { ResolveFrom([Some(doc)], steps) }

  method StepLoop(cur: seq<Found>, step: Step) returns (nxt: seq<Found>)
    ensures nxt == StepAll(cur, step)
  {
    hide StepFrom;
    nxt := [];
    for i := 0 to |cur|
      invariant nxt + StepAll(cur[i..], step) == StepAll(cur, step)
    {
      assert cur[i..][1..] == cur[i + 1..];
      nxt := nxt + StepFrom(cur[i], step);
    }
    assert cur[|cur|..] == [];
  }

  method ResolveLoop(doc: Json, steps: seq<Step>) returns (cur: seq<Found>)
    ensures cur == Resolve(doc, steps)
  {
    hide StepAll;
    cur := [Some(doc)];
    for n := 0 to |steps|
      invariant ResolveFrom(cur, steps[n..]) == Resolve(doc, steps)
    {
      assert steps[n..][1..] == steps[n + 1..];
      cur := StepLoop(cur, steps[n]);
    }
    assert steps[|steps|..] == [];
  }

  /** The first entry of that name. */
  predicate FirstNamed(entries: seq<(string, Json)>, i: nat, name: string) {
    i < |entries| && entries[i].0 == name && forall j | 0 <= j < i :: entries[j].0 != name
  }

  /** d is a child of v that the step goes to: the value under a name, the item at a place counted from the front or,
      when negative, from the end, any item of a list or value of an object. */
  ghost predicate Child(v: Json, step: Step, d: Json) {
    match step
    case Key(name) => v.Obj? && exists i: nat :: FirstNamed(v.entries, i, name) && v.entries[i].1 == d
    case Index(at) => v.Arr? && exists n: nat | n < |v.items| :: v.items[n] == d && (at == n || at == n - |v.items|)
    case Any => (v.Arr? && d in v.items) || (v.Obj? && exists n: nat | n < |v.entries| :: v.entries[n].1 == d)
  }

  /** v is what one gets from doc by following the steps, choosing freely at each [*]. */
  ghost predicate Leads(doc: Json, steps: seq<Step>, v: Json)
    decreases |steps|
  {
    if steps == [] then doc == v else exists d: Json :: Child(doc, steps[0], d) && Leads(d, steps[1..], v)
  }

  lemma {:induction false} LookupIs(entries: seq<(string, Json)>, name: string)
    ensures Lookup(entries, name).None? <==> forall i | 0 <= i < |entries| :: entries[i].0 != name
    ensures forall i: nat | FirstNamed(entries, i, name) :: Lookup(entries, name) == Some(entries[i].1)
    ensures Lookup(entries, name).Some? ==> exists i: nat :: FirstNamed(entries, i, name)
  {
    if entries != [] {
      var rest := entries[1..];
      LookupIs(rest, name);
      if entries[0].0 == name {
        assert FirstNamed(entries, 0, name);
      } else {
        forall i: nat | FirstNamed(entries, i, name) ensures FirstNamed(rest, i - 1, name) {
        }
        if i: nat :| FirstNamed(rest, i, name) {
          assert FirstNamed(entries, i + 1, name);
        }
      }
    }
  }

  /** One step goes to exactly the children. */
  lemma StepIsChild(v: Json, step: Step, d: Json)
    ensures Some(d) in StepFrom(Some(v), step) <==> Child(v, step, d)
  {
    match step
    case Key(name) => if v.Obj? { LookupIs(v.entries, name); }
    case Index(at) =>
      if v.Arr? {
        if 0 <= at < |v.items| {
          assert at == at as nat;
        } else if -|v.items| <= at < 0 {
          var n: nat := |v.items| + at;
          assert at == n - |v.items|;
        }
      }
    case Any =>
      if v.Arr? && v.items != [] {
        SomesAre(v.items, d);
      } else if v.Obj? && v.entries != [] {
        SomesAre(Values(v.entries), d);
        ValuesAre(v.entries, d);
      }
  }

  lemma SomesAre(items: seq<Json>, d: Json)
    ensures Some(d) in Somes(items) <==> d in items
  {
    if d in items {
      var i :| 0 <= i < |items| && items[i] == d;
      assert Somes(items)[i] == Some(d);
    }
  }

  lemma ValuesAre(entries: seq<(string, Json)>, d: Json)
    ensures d in Values(entries) <==> exists n: nat | n < |entries| :: entries[n].1 == d
  {
    if n: nat :| n < |entries| && entries[n].1 == d {
      assert Values(entries)[n] == d;
    }
  }

  lemma {:induction false} StepAllAre(cur: seq<Found>, step: Step)
    ensures forall f :: f in StepAll(cur, step) <==> exists c | c in cur :: f in StepFrom(c, step)
    ensures cur != [] ==> StepAll(cur, step) != []
  {
    hide StepFrom;
    if cur != [] {
      StepAllAre(cur[1..], step);
      assert forall c :: c in cur <==> c == cur[0] || c in cur[1..];
    }
  }

  lemma MissingStays(step: Step)
    ensures StepFrom(None, step) == [None]
  {
  }

  lemma {:induction false} ResolveFromAre(cur: seq<Found>, steps: seq<Step>, v: Json)
    ensures Some(v) in ResolveFrom(cur, steps) <==> exists d: Json | Some(d) in cur :: Leads(d, steps, v)
    ensures cur != [] ==> ResolveFrom(cur, steps) != []
    decreases |steps|
  {
    hide StepFrom;
    if steps == [] {
      if Some(v) in cur {
        assert Leads(v, steps, v);
      }
    } else {
      var next := StepAll(cur, steps[0]);
      StepAllAre(cur, steps[0]);
      ResolveFromAre(next, steps[1..], v);
      hide Child;
      if d: Json :| Some(d) in next && Leads(d, steps[1..], v) {
        var c :| c in cur && Some(d) in StepFrom(c, steps[0]);
        MissingStays(steps[0]);
        StepIsChild(c.value, steps[0], d);
        assert c.Some? && Leads(c.value, steps, v);
      }
      if d: Json :| Some(d) in cur && Leads(d, steps, v) {
        var e: Json :| Child(d, steps[0], e) && Leads(e, steps[1..], v);
        StepIsChild(d, steps[0], e);
        assert Some(e) in next;
      }
    }
  }

  /** A path always resolves to something, and the present values it resolves to are exactly those the document
      has along the path. */
  lemma ResolvedAre(doc: Json, steps: seq<Step>)
    ensures Resolve(doc, steps) != []
    ensures forall v :: Some(v) in Resolve(doc, steps) <==> Leads(doc, steps, v)
  {
    ResolveFromAre([Some(doc)], steps, Null);
    forall v ensures Some(v) in Resolve(doc, steps) <==> Leads(doc, steps, v) {
      ResolveFromAre([Some(doc)], steps, v);
    }
  }

  // ---------- JSON clauses ----------

  datatype Op = Eq | Ne | Lt | Gt | Le | Ge | LenEq | LenLt | LenGt | Contains | NotContains | Exists | Absent | Matches

  /** Python's comparisons of a value with an operand; None is a TypeError or ValueError. */
  datatype Python = Python(
    equal: (Json, Json) -> bool,
    less: (Json, Json) -> Option<bool>,
    lessOrEqual: (Json, Json) -> Option<bool>,
    length: Json -> Option<int>,
    intLess: (int, Json) -> Option<bool>,
    intMore: (int, Json) -> Option<bool>,
    intEqual: (int, Json) -> bool,
    has: (Json, Json) -> Option<bool>,
    search: (Json, Json) -> Option<bool>)

  predicate Holds(r: Option<bool>) { r == Some(true) }

  /** _one_json_op: whatever raises is false. */
  predicate OneOp(py: Python, op: Op, value: Json, want: Json) {
    match op
    case Eq => py.equal(value, want)
    case Ne => !py.equal(value, want)
    case Lt => Holds(py.less(value, want))
    case Gt => Holds(py.less(want, value))
    case Le => Holds(py.lessOrEqual(value, want))
    case Ge => Holds(py.lessOrEqual(want, value))
    case LenEq => var n := py.length(value); n.Some? && py.intEqual(n.value, want)
    case LenLt => var n := py.length(value); n.Some? && Holds(py.intLess(n.value, want))
    case LenGt => var n := py.length(value); n.Some? && Holds(py.intMore(n.value, want))
    case Contains => Holds(py.has(value, want))
    case NotContains => py.has(value, want) == Some(false)
    case Matches => Holds(py.search(value, want))
    case _ => false
  }

  predicate Negative(op: Op) { op == Absent || op == NotContains || op == Ne }

  predicate JsonOk(py: Python, op: Op, want: Json, values: seq<Found>) {
    if op == Exists then exists f | f in values :: f.Some?
    else if op == Absent then forall f | f in values :: f.None?
    else if Negative(op) then forall f | f in values && f.Some? :: OneOp(py, op, f.value, want)
    else exists f | f in values && f.Some? :: OneOp(py, op, f.value, want)
  }

  method JsonOkLoop(py: Python, op: Op, want: Json, values: seq<Found>) returns (ok: bool)
    ensures ok == JsonOk(py, op, want, values)
  {
    hide OneOp;
    var all := op == Absent || Negative(op);
    for i := 0 to |values|
      invariant all ==> forall j | 0 <= j < i ::
        if op == Absent then values[j].None? else values[j].Some? ==> OneOp(py, op, values[j].value, want)
      invariant !all ==> forall j | 0 <= j < i :: values[j].Some? ==> op != Exists && !OneOp(py, op, values[j].value, want)
    {
      var f := values[i];
      assert f in values;
      if op == Exists {
        if f.Some? {
          return true;
        }
      } else if op == Absent {
        if f.Some? {
          return false;
        }
      } else if f.Some? {
        var one := OneOp(py, op, f.value, want);
        if all && !one {
          return false;
        }
        if !all && one {
          return true;
        }
      }
    }
    return all;
  }

  /** Opposite operators, on any document and path, fanned out or not: exactly one of exists and absent, exactly
      one of eq and ne, at most one of contains and not_contains. */
  lemma Opposites(py: Python, want: Json, doc: Json, steps: seq<Step>)
    ensures var values := Resolve(doc, steps);
      && (JsonOk(py, Exists, want, values) <==> !JsonOk(py, Absent, want, values))
      && (JsonOk(py, Eq, want, values) <==> !JsonOk(py, Ne, want, values))
      && !(JsonOk(py, Contains, want, values) && JsonOk(py, NotContains, want, values))
  {
    hide Resolve;
  }

  /** exists says that the document has a value along the path, absent that it has none. */
  lemma ExistsMeansPresent(py: Python, want: Json, doc: Json, steps: seq<Step>)
    ensures JsonOk(py, Exists, want, Resolve(doc, steps)) <==> exists v: Json :: Leads(doc, steps, v)
  {
    ResolvedAre(doc, steps);
    hide Resolve, Leads, OneOp;
    var values := Resolve(doc, steps);
    if f :| f in values && f.Some? {
      assert Leads(doc, steps, f.value);
    }
    if v: Json :| Leads(doc, steps, v) {
      var f := Some(v);
      assert f in values && f.Some?;
    }
  }

  // ---------- aggregates over samples ----------

  datatype Stat = Median | Mean | Min | Max

  datatype StatPred = StatPred(stat: Stat, lt: Option<real>, gt: Option<real>, ratioLt: Option<real>, ratioGt: Option<real>)

  function InsertReal(x: real, s: seq<real>): seq<real> {
    if s == [] || x <= s[0] then [x] + s else [s[0]] + InsertReal(x, s[1..])
  }

  function Sorted(s: seq<real>): (r: seq<real>)
    ensures |r| == |s|
  {
    if s == [] then [] else InsertLength(s[0], Sorted(s[1..])); InsertReal(s[0], Sorted(s[1..]))
  }

  lemma {:induction false} InsertLength(x: real, s: seq<real>)
    ensures |InsertReal(x, s)| == |s| + 1
  {
    if s != [] && x > s[0] {
      InsertLength(x, s[1..]);
    }
  }

  function Sum(s: seq<real>): real { if s == [] then 0.0 else s[0] + Sum(s[1..]) }

  function MinOf(s: seq<real>): real
    requires s != []
  {
    if |s| == 1 then s[0] else var m := MinOf(s[1..]); if s[0] < m then s[0] else m
  }

  function MaxOf(s: seq<real>): real
    requires s != []
  {
    if |s| == 1 then s[0] else var m := MaxOf(s[1..]); if s[0] > m then s[0] else m
  }

  function StatOf(samples: seq<real>, stat: Stat): real
    requires samples != []
  {
    match stat
    case Median =>
      var s, h := Sorted(samples), |samples| / 2;
      if |samples| % 2 == 1 then s[h] else (s[h - 1] + s[h]) / 2.0
    case Mean => Sum(samples) / (|samples| as real)
    case Min => MinOf(samples)
    case Max => MaxOf(samples)
  }

  predicate UsesBase(p: StatPred) { p.ratioLt.Some? || p.ratioGt.Some? }

  /** base is the baseline aggregate; None or 0 when there is none to divide by. */
  predicate HasBase(p: StatPred, base: Option<real>) { UsesBase(p) ==> base.Some? && base.value != 0.0 }

  /** One value against every bound of the clause. */
  predicate Sat(p: StatPred, base: Option<real>, x: real)
    requires HasBase(p, base)
  {
    && (p.lt.Some? ==> x < p.lt.value)
    && (p.gt.Some? ==> x > p.gt.value)
    && (p.ratioLt.Some? ==> x / base.value < p.ratioLt.value)
    && (p.ratioGt.Some? ==> x / base.value > p.ratioGt.value)
  }

  /** _stat_clause */
  predicate StatOk(p: StatPred, base: Option<real>, samples: seq<real>) {
    samples != [] && HasBase(p, base) && Sat(p, base, StatOf(samples, p.stat))
  }

  /** _stat_sample_outcomes */
  function SampleOutcomes(p: StatPred, base: Option<real>, samples: seq<real>): seq<bool> {
    if (p.stat != Median && p.stat != Mean) || !HasBase(p, base) then []
    else seq(|samples|, i requires 0 <= i < |samples| => Sat(p, base, samples[i]))
  }

  /** len(set(outcomes)) > 1 */
  predicate Mixed(outcomes: seq<bool>) { true in outcomes && false in outcomes }

  /** The clause holds and does not make the verdict flaky. */
  predicate StatPasses(p: StatPred, base: Option<real>, samples: seq<real>) {
    StatOk(p, base, samples) && !Mixed(SampleOutcomes(p, base, samples))
  }

  method StatLoop(p: StatPred, base: Option<real>, samples: seq<real>) returns (ok: bool, outcomes: seq<bool>)
    ensures ok == StatOk(p, base, samples) && outcomes == SampleOutcomes(p, base, samples)
  {
    hide StatOf;
    outcomes := [];
    ok := samples != [] && HasBase(p, base) && Sat(p, base, StatOf(samples, p.stat));
    if (p.stat != Median && p.stat != Mean) || !HasBase(p, base) {
      return;
    }
    for i := 0 to |samples|
      invariant |outcomes| == i && forall j | 0 <= j < i :: outcomes[j] == Sat(p, base, samples[j])
    {
      var x, one := samples[i], true;
      if p.lt.Some? {
        one := one && x < p.lt.value;
      }
      if p.gt.Some? {
        one := one && x > p.gt.value;
      }
      if p.ratioLt.Some? {
        one := one && x / base.value < p.ratioLt.value;
      }
      if p.ratioGt.Some? {
        one := one && x / base.value > p.ratioGt.value;
      }
      outcomes := outcomes + [one];
    }
  }

  // ---------- the aggregate lies among the samples ----------

  predicate Between(lo: real, hi: real, s: seq<real>) { forall i | 0 <= i < |s| :: lo <= s[i] <= hi }

  lemma {:induction false} ExtremesAre(s: seq<real>)
    requires s != []
    ensures MinOf(s) in s && MaxOf(s) in s && Between(MinOf(s), MaxOf(s), s)
  {
    if |s| > 1 {
      ExtremesAre(s[1..]);
      assert forall i | 1 <= i < |s| :: s[i] == s[1..][i - 1];
    }
  }

  lemma {:induction false} InsertBetween(lo: real, hi: real, x: real, s: seq<real>)
    requires Between(lo, hi, s) && lo <= x <= hi
    ensures Between(lo, hi, InsertReal(x, s))
  {
    if s != [] && x > s[0] {
      InsertBetween(lo, hi, x, s[1..]);
    }
  }

  lemma {:induction false} SortedBetween(lo: real, hi: real, s: seq<real>)
    requires Between(lo, hi, s)
    ensures Between(lo, hi, Sorted(s))
  {
    if s != [] {
      SortedBetween(lo, hi, s[1..]);
      InsertBetween(lo, hi, s[0], Sorted(s[1..]));
    }
  }

  lemma {:induction false} SumBetween(lo: real, hi: real, s: seq<real>)
    requires Between(lo, hi, s)
    ensures lo * (|s| as real) <= Sum(s) <= hi * (|s| as real)
  {
    if s != [] {
      SumBetween(lo, hi, s[1..]);
      OneMore(lo, |s[1..]| as real, |s| as real);
      OneMore(hi, |s[1..]| as real, |s| as real);
      assert lo <= s[0] <= hi && Sum(s) == s[0] + Sum(s[1..]);
      hide Between, Sum;
    }
  }

  lemma OneMore(a: real, n: real, m: real)
    requires m == n + 1.0
    ensures a * m == a * n + a
  {
  }

  lemma QuotientBetween(lo: real, hi: real, sum: real, n: real)
    requires n > 0.0 && lo * n <= sum <= hi * n
    ensures lo <= sum / n <= hi
  {
    var q := sum / n;
    assert q * n == sum;
    ProductSign(lo - q, n);
    ProductSign(q - hi, n);
    assert (lo - q) * n == lo * n - sum && (q - hi) * n == sum - hi * n;
  }

  lemma MedianBetween(lo: real, hi: real, samples: seq<real>)
    requires samples != [] && Between(lo, hi, Sorted(samples))
    ensures lo <= StatOf(samples, Median) <= hi
  {
    hide Sorted;
  }

  lemma MeanBetween(lo: real, hi: real, samples: seq<real>)
    requires samples != [] && Between(lo, hi, samples)
    ensures lo <= StatOf(samples, Mean) <= hi
  {
    SumBetween(lo, hi, samples);
    QuotientBetween(lo, hi, Sum(samples), |samples| as real);
    hide Sum;
  }

  /** Every aggregate lies between the least and the greatest sample. */
  lemma StatBetween(samples: seq<real>, stat: Stat)
    requires samples != []
    ensures MinOf(samples) <= StatOf(samples, stat) <= MaxOf(samples)
  {
    hide Sorted, Sum, MinOf, MaxOf;
    var lo, hi := MinOf(samples), MaxOf(samples);
    ExtremesAre(samples);
    match stat
    case Median =>
      SortedBetween(lo, hi, samples);
      MedianBetween(lo, hi, samples);
    case Mean => MeanBetween(lo, hi, samples);
    case _ => assert samples[0] in samples;
  }

  // ---------- bounds on one side ----------

  function Least(a: Option<real>, b: Option<real>): Option<real> {
    if a.None? then b else if b.None? then a else if a.value < b.value then a else b
  }

  function Greatest(a: Option<real>, b: Option<real>): Option<real> {
    if a.None? then b else if b.None? then a else if a.value > b.value then a else b
  }

  /** r * base, as a bound on the samples. */
  function Times(r: Option<real>, base: Option<real>): Option<real> {
    if r.Some? && base.Some? then Some(r.value * base.value) else None
  }

  predicate Positive(base: Option<real>) { base.Some? && base.value > 0.0 }

  /** The samples that satisfy the clause are those strictly below this. */
  function Upper(p: StatPred, base: Option<real>): Option<real> {
    Least(p.lt, Times(if Positive(base) then p.ratioLt else p.ratioGt, base))
  }

  function Lower(p: StatPred, base: Option<real>): Option<real> {
    Greatest(p.gt, Times(if Positive(base) then p.ratioGt else p.ratioLt, base))
  }

  lemma RatioBound(x: real, base: real, r: real)
    requires base != 0.0
    ensures base > 0.0 ==> (x / base < r <==> x < r * base) && (x / base > r <==> x > r * base)
    ensures base < 0.0 ==> (x / base < r <==> x > r * base) && (x / base > r <==> x < r * base)
  {
    var q := x / base;
    assert x == q * base;
    ProductSign(r - q, base);
    assert (r - q) * base == r * base - x;
  }

  lemma ProductSign(d: real, b: real)
    requires b != 0.0
    ensures b > 0.0 ==> (d > 0.0 <==> d * b > 0.0) && (d < 0.0 <==> d * b < 0.0)
    ensures b < 0.0 ==> (d > 0.0 <==> d * b < 0.0) && (d < 0.0 <==> d * b > 0.0)
  {
  }

  predicate Under(b: Option<real>, x: real) { b.Some? ==> x < b.value }

  predicate Over(b: Option<real>, x: real) { b.Some? ==> x > b.value }

  lemma LeastGreatest(a: Option<real>, b: Option<real>, x: real)
    ensures Under(Least(a, b), x) <==> Under(a, x) && Under(b, x)
    ensures Over(Greatest(a, b), x) <==> Over(a, x) && Over(b, x)
  {
  }

  lemma RatioParts(p: StatPred, base: Option<real>, x: real)
    requires HasBase(p, base)
    ensures var lt, gt := Times(p.ratioLt, base), Times(p.ratioGt, base);
      && ((p.ratioLt.Some? ==> x / base.value < p.ratioLt.value) <==> if Positive(base) then Under(lt, x) else Over(lt, x))
      && ((p.ratioGt.Some? ==> x / base.value > p.ratioGt.value) <==> if Positive(base) then Over(gt, x) else Under(gt, x))
  {
    RatioLtPart(p, base, x);
    RatioGtPart(p, base, x);
    hide Times, Under, Over, Positive;
  }

  lemma RatioLtPart(p: StatPred, base: Option<real>, x: real)
    requires HasBase(p, base)
    ensures var lt := Times(p.ratioLt, base);
      (p.ratioLt.Some? ==> x / base.value < p.ratioLt.value) <==> if Positive(base) then Under(lt, x) else Over(lt, x)
  {
    if p.ratioLt.Some? {
      RatioBound(x, base.value, p.ratioLt.value);
    }
  }

  lemma RatioGtPart(p: StatPred, base: Option<real>, x: real)
    requires HasBase(p, base)
    ensures var gt := Times(p.ratioGt, base);
      (p.ratioGt.Some? ==> x / base.value > p.ratioGt.value) <==> if Positive(base) then Over(gt, x) else Under(gt, x)
  {
    if p.ratioGt.Some? {
      RatioBound(x, base.value, p.ratioGt.value);
    }
  }

  /** The satisfying values form an open interval. */
  lemma SatIsInterval(p: StatPred, base: Option<real>, x: real)
    requires HasBase(p, base)
    ensures Sat(p, base, x) <==> Under(Upper(p, base), x) && Over(Lower(p, base), x)
  {
    RatioParts(p, base, x);
    LeastGreatest(p.lt, Times(if Positive(base) then p.ratioLt else p.ratioGt, base), x);
    LeastGreatest(p.gt, Times(if Positive(base) then p.ratioGt else p.ratioLt, base), x);
    hide Times, Least, Greatest;
  }

  /** Bounds on both sides with room in between. */
  predicate TwoSided(p: StatPred, base: Option<real>) {
    Upper(p, base).Some? && Lower(p, base).Some? && Lower(p, base).value < Upper(p, base).value
  }

  lemma OneSidedPass(p: StatPred, base: Option<real>, samples: seq<real>)
    requires (p.stat == Median || p.stat == Mean) && StatPasses(p, base, samples) && !TwoSided(p, base)
    ensures forall x | x in samples :: Sat(p, base, x)
  {
    hide StatOf, Upper, Lower, Sat, MinOf, MaxOf;
    var v, lo, hi := StatOf(samples, p.stat), MinOf(samples), MaxOf(samples);
    StatBetween(samples, p.stat);
    ExtremesAre(samples);
    SatIsInterval(p, base, v);
    SatIsInterval(p, base, lo);
    SatIsInterval(p, base, hi);
    var outcomes := SampleOutcomes(p, base, samples);
    assert Sat(p, base, lo) || Sat(p, base, hi);
    var k :| 0 <= k < |samples| && Sat(p, base, samples[k]);
    assert outcomes[k] in outcomes;
    forall x | x in samples ensures Sat(p, base, x) {
      var i :| 0 <= i < |samples| && samples[i] == x;
      assert outcomes[i] in outcomes;
    }
  }

  /** Two samples on the two bounds: their median and mean lie between, and neither sample satisfies the clause. */
  lemma TwoSidedExample(p: StatPred, base: Option<real>)
    requires (p.stat == Median || p.stat == Mean) && HasBase(p, base) && TwoSided(p, base)
    ensures var samples := [Lower(p, base).value, Upper(p, base).value];
      StatPasses(p, base, samples) && !Sat(p, base, samples[0]) && !Sat(p, base, samples[1])
  {
    var lo, hi := Lower(p, base).value, Upper(p, base).value;
    var samples := [lo, hi];
    PairStat(lo, hi, p.stat);
    SatIsInterval(p, base, lo);
    SatIsInterval(p, base, hi);
    SatIsInterval(p, base, (lo + hi) / 2.0);
    hide StatOf, Upper, Lower, Sat;
  }

  lemma PairStat(lo: real, hi: real, stat: Stat)
    requires lo < hi && (stat == Median || stat == Mean)
    ensures StatOf([lo, hi], stat) == (lo + hi) / 2.0
  {
    assert [lo, hi][1..] == [hi] && [hi][1..] == [];
    assert Sorted([hi]) == [hi] by { assert Sorted([]) == []; }
    assert Sorted([lo, hi]) == [lo, hi];
    assert Sum([hi]) == hi + Sum([]) == hi;
  }

  /** Main result on aggregates: a passing median or mean clause means that every measured sample satisfies it, for
      all sample lists, exactly when the clause is not bounded on both sides with room in between. With a single
      bound it is not. */
  lemma PassMeansEverySample(p: StatPred, base: Option<real>)
    requires (p.stat == Median || p.stat == Mean) && HasBase(p, base)
    ensures (forall samples | StatPasses(p, base, samples) :: forall x | x in samples :: Sat(p, base, x))
      <==> !TwoSided(p, base)
  {
    hide StatPasses, Upper, Lower, Sat;
    if TwoSided(p, base) {
      TwoSidedExample(p, base);
      var samples := [Lower(p, base).value, Upper(p, base).value];
      assert samples[0] in samples;
    } else {
      forall samples | StatPasses(p, base, samples) ensures forall x | x in samples :: Sat(p, base, x) {
        OneSidedPass(p, base, samples);
      }
    }
  }

  lemma SingleBound(p: StatPred, base: Option<real>)
    requires p.ratioLt.None? && p.ratioGt.None? && (p.lt.None? || p.gt.None?)
    ensures HasBase(p, base) && !TwoSided(p, base)
  {
  }

  // ---------- whole verdicts ----------

  datatype NumOp = NumEq | NumNe | NumIn | NumLt | NumGt | NumLe | NumGe

  datatype JsonPred = JsonPred(steps: seq<Step>, op: Op, want: Json)

  datatype Expect = Expect(
    exitCode: Option<seq<(NumOp, Json)>>, stdoutBytes: Option<seq<(NumOp, Json)>>,
    stdoutMatches: seq<string>, stdoutAbsent: seq<string>, stderrMatches: seq<string>, stderrAbsent: seq<string>,
    stdoutIsJson: Option<bool>, json: seq<JsonPred>, wallMs: Option<StatPred>, maxRss: Option<StatPred>)

  datatype Run = Run(exitCode: Found, stdoutBytes: Found, stdout: string, stderr: string,
                     wallMs: Option<real>, maxRss: Option<real>, timedOut: bool, failed: bool)

  /** Regex search and JSON parsing, besides the comparisons. */
  datatype Tools = Tools(py: Python, search: (string, string) -> bool, parse: string -> Option<Json>)

  datatype Clause =
    | ExitCode(pred: seq<(NumOp, Json)>)
    | StdoutBytes(pred: seq<(NumOp, Json)>)
    | StreamMatches(stderr: bool, pattern: string)
    | StreamAbsent(stderr: bool, pattern: string)
    | IsJson(want: bool)
    | JsonClause(json: JsonPred)

  predicate NumOpOk(py: Python, op: NumOp, value: Json, want: Json) {
    match op
    case NumEq => py.equal(value, want)
    case NumNe => !py.equal(value, want)
    case NumIn => Holds(py.has(want, value))
    case NumLt => Holds(py.less(value, want))
    case NumGt => Holds(py.less(want, value))
    case NumLe => Holds(py.lessOrEqual(value, want))
    case NumGe => Holds(py.lessOrEqual(want, value))
  }

  predicate NumOk(py: Python, pred: seq<(NumOp, Json)>, value: Found) {
    value.Some? && forall i | 0 <= i < |pred| :: NumOpOk(py, pred[i].0, value.value, pred[i].1)
  }

  predicate ClauseOk(t: Tools, c: Clause, r: Run) {
    match c
    case ExitCode(pred) => NumOk(t.py, pred, r.exitCode)
    case StdoutBytes(pred) => NumOk(t.py, pred, r.stdoutBytes)
    case StreamMatches(err, pattern) => t.search(pattern, if err then r.stderr else r.stdout)
    case StreamAbsent(err, pattern) => !t.search(pattern, if err then r.stderr else r.stdout)
    case IsJson(want) => t.parse(r.stdout).Some? == want
    case JsonClause(j) =>
      var doc := t.parse(r.stdout);
      doc.Some? && JsonOk(t.py, j.op, j.want, Resolve(doc.value, j.steps))
  }

  function Patterns(matches: bool, stderr: bool, patterns: seq<string>): seq<Clause> {
    seq(|patterns|, i requires 0 <= i < |patterns| =>
      if matches then StreamMatches(stderr, patterns[i]) else StreamAbsent(stderr, patterns[i]))
  }

  /** _per_run_checkers */
  function Checkers(e: Expect): seq<Clause> {
    (if e.exitCode.Some? then [ExitCode(e.exitCode.value)] else [])
    + (if e.stdoutBytes.Some? then [StdoutBytes(e.stdoutBytes.value)] else [])
    + Patterns(true, false, e.stdoutMatches) + Patterns(false, false, e.stdoutAbsent)
    + Patterns(true, true, e.stderrMatches) + Patterns(false, true, e.stderrAbsent)
    + (if e.stdoutIsJson.Some? then [IsJson(e.stdoutIsJson.value)] else [])
    + seq(|e.json|, i requires 0 <= i < |e.json| => JsonClause(e.json[i]))
  }

  function Wall(runs: seq<Run>): seq<real> {
    if runs == [] then []
    else (if runs[0].wallMs.Some? then [runs[0].wallMs.value] else []) + Wall(runs[1..])
  }

  function Rss(runs: seq<Run>): seq<real> {
    if runs == [] then []
    else (if runs[0].maxRss.Some? then [runs[0].maxRss.value] else []) + Rss(runs[1..])
  }

  predicate Broken(r: Run) { r.timedOut || r.failed }

  /** One entry per clause, in order, and one more when there were no runs or some run broke. */
  datatype Verdict = Verdict(passed: bool, flaky: bool, clauses: seq<bool>, runPassed: seq<bool>)

  predicate RunPasses(t: Tools, checkers: seq<Clause>, r: Run) { forall c | c in checkers :: ClauseOk(t, c, r) }

  method StatClauses(metric: Option<StatPred>, base: Option<real>, samples: seq<real>) returns (oks: seq<bool>, mixed: bool)
    ensures oks == if metric.Some? then [StatOk(metric.value, base, samples)] else []
    ensures mixed == (metric.Some? && Mixed(SampleOutcomes(metric.value, base, samples)))
  {
    if metric.None? {
      return [], false;
    }
    var ok, outcomes := StatLoop(metric.value, base, samples);
    return [ok], Mixed(outcomes);
  }

  predicate ClauseOnAll(t: Tools, c: Clause, runs: seq<Run>) { forall r | r in runs :: ClauseOk(t, c, r) }

  method ClauseOnAllLoop(t: Tools, c: Clause, runs: seq<Run>) returns (ok: bool)
    ensures ok == ClauseOnAll(t, c, runs)
  {
    hide ClauseOk;
    for i := 0 to |runs|
      invariant forall j | 0 <= j < i :: ClauseOk(t, c, runs[j])
    {
      if !ClauseOk(t, c, runs[i]) {
        assert runs[i] in runs;
        return false;
      }
    }
    return true;
  }

  method RunPassesLoop(t: Tools, checkers: seq<Clause>, r: Run) returns (ok: bool)
    ensures ok == RunPasses(t, checkers, r)
  {
    hide ClauseOk;
    for i := 0 to |checkers|
      invariant forall j | 0 <= j < i :: ClauseOk(t, checkers[j], r)
    {
      if !ClauseOk(t, checkers[i], r) {
        assert checkers[i] in checkers;
        return false;
      }
    }
    return true;
  }

  /** Passing, in one sentence: there was a run, no run timed out or failed, every clause held on every run, and
      every aggregate clause held without samples on both sides of its bound. */
  predicate Passes(t: Tools, e: Expect, runs: seq<Run>, wallBase: Option<real>, rssBase: Option<real>) {
    && runs != []
    && (forall r | r in runs :: !Broken(r) && RunPasses(t, Checkers(e), r))
    && (e.wallMs.Some? ==> StatPasses(e.wallMs.value, wallBase, Wall(runs)))
    && (e.maxRss.Some? ==> StatPasses(e.maxRss.value, rssBase, Rss(runs)))
  }

  /** The verdict is flaky when two runs disagree, or an aggregate's samples do. */
  predicate Flaky(t: Tools, e: Expect, runs: seq<Run>, wallBase: Option<real>, rssBase: Option<real>) {
    || (exists r, q | r in runs && q in runs :: RunPasses(t, Checkers(e), r) && !RunPasses(t, Checkers(e), q))
    || (e.wallMs.Some? && Mixed(SampleOutcomes(e.wallMs.value, wallBase, Wall(runs))))
    || (e.maxRss.Some? && Mixed(SampleOutcomes(e.maxRss.value, rssBase, Rss(runs))))
  }

  method ClausesLoop(t: Tools, checkers: seq<Clause>, runs: seq<Run>) returns (oks: seq<bool>)
    ensures |oks| == |checkers|
    ensures forall i | 0 <= i < |checkers| :: oks[i] == (runs != [] && ClauseOnAll(t, checkers[i], runs))
  {
    hide ClauseOnAll;
    oks := [];
    for i := 0 to |checkers|
      invariant |oks| == i && forall j | 0 <= j < i :: oks[j] == (runs != [] && ClauseOnAll(t, checkers[j], runs))
    {
      var ok := ClauseOnAllLoop(t, checkers[i], runs);
      oks := oks + [runs != [] && ok];
    }
  }

  method PerRunLoop(t: Tools, checkers: seq<Clause>, runs: seq<Run>) returns (perRun: seq<bool>)
    ensures |perRun| == |runs| && forall i | 0 <= i < |runs| :: perRun[i] == RunPasses(t, checkers, runs[i])
  {
    hide RunPasses;
    perRun := [];
    for i := 0 to |runs|
      invariant |perRun| == i && forall j | 0 <= j < i :: perRun[j] == RunPasses(t, checkers, runs[j])
    {
      var ok := RunPassesLoop(t, checkers, runs[i]);
      perRun := perRun + [ok];
    }
  }

  method Evaluate(t: Tools, e: Expect, runs: seq<Run>, wallBase: Option<real>, rssBase: Option<real>) returns (v: Verdict)
    ensures v.passed == Passes(t, e, runs, wallBase, rssBase)
    ensures v.flaky == Flaky(t, e, runs, wallBase, rssBase)
    ensures v.flaky ==> !v.passed
    ensures |v.runPassed| == |runs| && forall i | 0 <= i < |runs| :: v.runPassed[i] == RunPasses(t, Checkers(e), runs[i])
  {
    hide Checkers, RunPasses, StatOk, SampleOutcomes, ClauseOnAll, Wall, Rss;
    var checkers := Checkers(e);
    var perClause := ClausesLoop(t, checkers, runs);
    var wallOk, wallMixed := StatClauses(e.wallMs, wallBase, Wall(runs));
    var rssOk, rssMixed := StatClauses(e.maxRss, rssBase, Rss(runs));
    var anyBroken := exists r | r in runs :: Broken(r);
    var runClause := if runs == [] || anyBroken then [false] else [];
    var perRun := PerRunLoop(t, checkers, runs);
    var clauses := perClause + wallOk + rssOk + runClause;
    var flaky := Mixed(perRun) || wallMixed || rssMixed;
    var passed := runs != [] && false !in clauses && !flaky;
    v := Verdict(passed, flaky, clauses, perRun);
    MixedRuns(t, checkers, runs, perRun);
    AllClauses(t, checkers, runs, perClause);
    assert false in clauses <==> false in perClause || false in wallOk || false in rssOk || false in runClause;
  }

  lemma MixedRuns(t: Tools, checkers: seq<Clause>, runs: seq<Run>, perRun: seq<bool>)
    requires |perRun| == |runs| && forall i | 0 <= i < |runs| :: perRun[i] == RunPasses(t, checkers, runs[i])
    ensures Mixed(perRun) <==> exists r, q | r in runs && q in runs :: RunPasses(t, checkers, r) && !RunPasses(t, checkers, q)
    ensures false !in perRun <==> forall r | r in runs :: RunPasses(t, checkers, r)
  {
    hide RunPasses;
    forall r | r in runs ensures RunPasses(t, checkers, r) in perRun {
      var i :| 0 <= i < |runs| && runs[i] == r;
      assert perRun[i] in perRun;
    }
  }

  /** Every clause on every run is every run on every clause. */
  lemma AllClauses(t: Tools, checkers: seq<Clause>, runs: seq<Run>, perClause: seq<bool>)
    requires |perClause| == |checkers|
    requires forall i | 0 <= i < |checkers| :: perClause[i] == (runs != [] && ClauseOnAll(t, checkers[i], runs))
    ensures runs != [] ==> (false !in perClause <==> forall r | r in runs :: RunPasses(t, checkers, r))
  {
    hide ClauseOk;
    if runs != [] {
      if forall r | r in runs :: RunPasses(t, checkers, r) {
        forall i | 0 <= i < |checkers| ensures perClause[i] {
          assert checkers[i] in checkers;
          forall r | r in runs ensures ClauseOk(t, checkers[i], r) {
            assert RunPasses(t, checkers, r);
          }
        }
      } else {
        var r :| r in runs && !RunPasses(t, checkers, r);
        var c :| c in checkers && !ClauseOk(t, c, r);
        var i :| 0 <= i < |checkers| && checkers[i] == c;
        assert !ClauseOnAll(t, c, runs);
        assert perClause[i] in perClause;
      }
    }
  }

  /** A passing probe with a one-sided median or mean clause on the wall time has every measured time on the
      right side of the bound. */
  lemma PassedTimes(t: Tools, e: Expect, runs: seq<Run>, wallBase: Option<real>, rssBase: Option<real>)
    requires e.wallMs.Some? && (e.wallMs.value.stat == Median || e.wallMs.value.stat == Mean)
    requires Passes(t, e, runs, wallBase, rssBase) && !TwoSided(e.wallMs.value, wallBase)
    ensures HasBase(e.wallMs.value, wallBase)
    ensures forall r | r in runs && r.wallMs.Some? :: Sat(e.wallMs.value, wallBase, r.wallMs.value)
  {
    OneSidedPass(e.wallMs.value, wallBase, Wall(runs));
    WallHas(runs);
    hide Sat, StatOf, TwoSided, RunPasses, Wall;
  }

  lemma {:induction false} WallHas(runs: seq<Run>)
    ensures forall r | r in runs && r.wallMs.Some? :: r.wallMs.value in Wall(runs)
  {
    if runs != [] {
      WallHas(runs[1..]);
      assert forall r | r in runs :: r == runs[0] || r in runs[1..];
    }
  }
}
