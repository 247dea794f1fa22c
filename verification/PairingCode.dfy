/** The two matchers as they are written: pair_variables of scripts/decbench/structscore.py returns the
    pairs, _match_structured of scripts/decbench/typesweep.py keeps verdicts and counts. Both compute the
    pairing specified in Pairing.

    Both build the same three indexes over the recovered variables and make the same three passes; the
    second writes its decisions into two arrays and a list of records as it goes. */
module PairingCode {
  import opened Pairing

  function Lookup<K>(m: map<K, seq<nat>>, key: K): seq<nat> { if key in m then m[key] else [] }

  predicate ArgIndexed(vars: seq<Var>, n: nat, byArg: map<int, nat>)
    requires n <= |vars|
  {
    && (forall a | a in byArg :: Indices(vars, n, Arg(a)) != [] && byArg[a] == Indices(vars, n, Arg(a))[0])
    && (forall i | 0 <= i < n && vars[i].argIndex.Some? :: vars[i].argIndex.value in byArg)
  }

  ghost predicate OffIndexed(vars: seq<Var>, n: nat, k: int, byOff: map<int, seq<nat>>)
    requires n <= |vars|
  {
    forall o :: Lookup(byOff, o) == Indices(vars, n, At(o, k))
  }

  ghost predicate NameIndexed(vars: seq<Var>, n: nat, byName: map<string, seq<nat>>)
    requires n <= |vars|
  {
    forall name: string :: Lookup(byName, name) == Indices(vars, n, Named(name))
  }

  lemma EmptyIndexes(vars: seq<Var>, k: int)
    ensures ArgIndexed(vars, 0, map[]) && OffIndexed(vars, 0, k, map[]) && NameIndexed(vars, 0, map[])
  {
  }

  lemma FirstIsIn(s: seq<nat>)
    ensures s != [] ==> exists i :: i in s && i == s[0]
  {
    if s != [] {
      assert s[0] in s;
    }
  }

  lemma ArgIndexedStep(vars: seq<Var>, n: nat, byArg: map<int, nat>)
    requires n < |vars| && ArgIndexed(vars, n, byArg)
    ensures var v := vars[n];
      ArgIndexed(vars, n + 1,
        if v.argIndex.Some? && v.argIndex.value !in byArg then byArg[v.argIndex.value := n] else byArg)
  {
    var v := vars[n];
    if v.argIndex.Some? && v.argIndex.value !in byArg {
      var a := v.argIndex.value;
      IndicesAre(vars, n, Arg(a));
      FirstIsIn(Indices(vars, n, Arg(a)));
      assert Indices(vars, n, Arg(a)) == [];
    }
  }

  lemma OffIndexedStep(vars: seq<Var>, n: nat, k: int, byOff: map<int, seq<nat>>)
    requires n < |vars| && OffIndexed(vars, n, k, byOff)
    ensures var v := vars[n];
      OffIndexed(vars, n + 1, k,
        if v.offset.Some? then byOff[v.offset.value + k := Lookup(byOff, v.offset.value + k) + [n]] else byOff)
  {
    var v := vars[n];
    var after := if v.offset.Some? then byOff[v.offset.value + k := Lookup(byOff, v.offset.value + k) + [n]] else byOff;
    forall o ensures Lookup(after, o) == Indices(vars, n + 1, At(o, k)) {
      assert Lookup(byOff, o) == Indices(vars, n, At(o, k));
    }
  }

  lemma NameIndexedStep(vars: seq<Var>, n: nat, byName: map<string, seq<nat>>)
    requires n < |vars| && NameIndexed(vars, n, byName)
    ensures var v := vars[n];
      NameIndexed(vars, n + 1, if v.name != "" then byName[v.name := Lookup(byName, v.name) + [n]] else byName)
  {
  }

  method BuildIndexes(vars: seq<Var>, k: int)
    returns (byArg: map<int, nat>, byOff: map<int, seq<nat>>, byName: map<string, seq<nat>>)
    ensures ArgIndexed(vars, |vars|, byArg) && OffIndexed(vars, |vars|, k, byOff) && NameIndexed(vars, |vars|, byName)
  {
    hide Indices, ArgIndexed, OffIndexed, NameIndexed;
    byArg, byOff, byName := map[], map[], map[];
    EmptyIndexes(vars, k);
    for i := 0 to |vars|
      invariant ArgIndexed(vars, i, byArg) && OffIndexed(vars, i, k, byOff) && NameIndexed(vars, i, byName)
    {
      var v := vars[i];
      ArgIndexedStep(vars, i, byArg);
      OffIndexedStep(vars, i, k, byOff);
      NameIndexedStep(vars, i, byName);
      if v.argIndex.Some? && v.argIndex.value !in byArg {
        byArg := byArg[v.argIndex.value := i];
      }
      if v.offset.Some? {
        byOff := byOff[v.offset.value + k := Lookup(byOff, v.offset.value + k) + [i]];
      }
      if v.name != "" {
        byName := byName[v.name := Lookup(byName, v.name) + [i]];
      }
    }
  }

  method ClaimLoop(vars: seq<Var>, t: Truth, candidates: seq<nat>, used: set<nat>) returns (r: Option<nat>)
    requires forall i | i in candidates :: i < |vars|
    ensures r == Claim(vars, t, candidates, used)
  {
    var free := FreeLoop(candidates, used);
    FreeAre(candidates, used);
    assert forall j | 0 <= j < |free| :: free[j] in free;
    hide Matches, Free;
    if free == [] {
      return None;
    }
    for n := 0 to |free|
      invariant forall j | 0 <= j < |free| :: free[j] < |vars|
      invariant FirstMatch(vars, t, free[n..]) == FirstMatch(vars, t, free)
    {
      assert free[n..][1..] == free[n + 1..];
      if Matches(t, vars[free[n]]) {
        return Some(free[n]);
      }
    }
    return Some(free[0]);
  }

  method FreeLoop(candidates: seq<nat>, used: set<nat>) returns (free: seq<nat>)
    ensures free == Free(candidates, used)
  {
    free := [];
    for n := 0 to |candidates|
      invariant free + Free(candidates[n..], used) == Free(candidates, used)
    {
      assert candidates[n..][1..] == candidates[n + 1..];
      if candidates[n] !in used {
        free := free + [candidates[n]];
      }
    }
  }

  lemma AtOffsetsStep(vars: seq<Var>, shift: int, offsets: seq<int>, n: nat)
    requires n < |offsets|
    ensures AtOffsets(vars, shift, offsets[n..]) == All(vars, At(offsets[n], shift)) + AtOffsets(vars, shift, offsets[n + 1..])
  {
    assert offsets[n..][1..] == offsets[n + 1..];
    hide All;
  }

  method OffsetCandidates(p: Problem, byOff: map<int, seq<nat>>, t: Truth) returns (candidates: seq<nat>)
    requires OffIndexed(p.vars, |p.vars|, p.shift, byOff)
    ensures candidates == Candidates(p, t, ByOffset)
  {
    hide Indices;
    candidates := [];
    for n := 0 to |t.offsets|
      invariant candidates + AtOffsets(p.vars, p.shift, t.offsets[n..]) == AtOffsets(p.vars, p.shift, t.offsets)
    {
      AtOffsetsStep(p.vars, p.shift, t.offsets, n);
      candidates := candidates + Lookup(byOff, t.offsets[n]);
    }
  }

  /** The pairs alone, without the pass that made them. */
  function PairsOf(s: Picks): map<nat, nat> { map gi | gi in s.of :: s.of[gi].variable }

  /** What a pass has made of the ground-truth variables before gi, starting from s. */
  predicate Reached(p: Problem, pass: Pass, s: Picks, gi: nat, now: Picks)
    requires gi <= |p.truths|
  {
    PickFrom(p, pass, gi, now) == PickFrom(p, pass, 0, s)
  }

  /** What the argument pass finds for t in the index. */
  lemma ArgCandidate(p: Problem, byArg: map<int, nat>, t: Truth)
    requires ArgIndexed(p.vars, |p.vars|, byArg)
    ensures Candidates(p, t, ByArg) ==
      if t.isArg && t.argIndex.Some? && t.argIndex.value in byArg then [byArg[t.argIndex.value]] else []
  {
    if t.isArg && t.argIndex.Some? {
      var all := All(p.vars, Arg(t.argIndex.value));
      IndicesAre(p.vars, |p.vars|, Arg(t.argIndex.value));
      if all != [] {
        assert all[0] in all && p.vars[all[0]].argIndex == t.argIndex;
        assert all[..1] == [all[0]];
      }
    }
  }

  lemma ClaimOfOne(vars: seq<Var>, t: Truth, i: nat, used: set<nat>)
    requires i < |vars|
    ensures Claim(vars, t, [i], used) == if i in used then None else Some(i)
  {
    assert Free([i], used) == if i in used then [] else [i];
  }

  lemma ArgPick(p: Problem, byArg: map<int, nat>, gi: nat, s: Picks)
    requires ArgIndexed(p.vars, |p.vars|, byArg) && gi < |p.truths| && gi !in s.of
    ensures var t := p.truths[gi];
      PickOne(p, ByArg, gi, s) ==
        if t.isArg && t.argIndex.Some? && t.argIndex.value in byArg && byArg[t.argIndex.value] !in s.used
        then Picks(s.used + {byArg[t.argIndex.value]}, s.of[gi := Pick(byArg[t.argIndex.value], ByArg)])
        else s
  {
    var t := p.truths[gi];
    ArgCandidate(p, byArg, t);
    if t.isArg && t.argIndex.Some? && t.argIndex.value in byArg {
      var i := byArg[t.argIndex.value];
      assert i in Candidates(p, t, ByArg);
      CandidatesInRange(p, t, ByArg);
      ClaimOfOne(p.vars, t, i, s.used);
    } else {
      assert Claim(p.vars, t, [], s.used) == None;
    }
    hide Candidates, Claim, Indices;
  }

  lemma NextPick(p: Problem, pass: Pass, s: Picks, gi: nat, now: Picks)
    requires gi < |p.truths| && Reached(p, pass, s, gi, now)
    ensures Reached(p, pass, s, gi + 1, PickOne(p, pass, gi, now))
  {
    hide PickOne;
  }

  lemma NoneBefore(p: Problem, pass: Pass, gi: nat, s: Picks)
    requires gi < |p.truths| && forall g | g in s.of :: g < gi
    ensures forall g | g in PickOne(p, pass, gi, s).of :: g < gi + 1
  {
    hide Candidates, Claim;
  }

  method PairVariables(vars: seq<Var>, truths: seq<Truth>, binaryShift: Option<int>,
                       calibrate: (seq<int>, seq<int>) -> Option<int>) returns (pairs: map<nat, nat>)
    ensures pairs == PairsOf(Pairs(Problem(vars, truths, Shift(calibrate, binaryShift, vars, truths))))
  {
    hide *;
    var p := Problem(vars, truths, Shift(calibrate, binaryShift, vars, truths));
    var byArg, byOff, byName := BuildIndexes(vars, p.shift);
    var s := Picks({}, map[]);
    s := ArgPass(p, byArg);
    s := OffsetPass(p, byOff, s);
    s := NamePass(p, byName, s);
    PairsAre(p);
    pairs := map gi | gi in s.of :: s.of[gi].variable;
    assert pairs == PairsOf(s) by { PairsOfIs(s, pairs); }
  }

  lemma PairsOfIs(s: Picks, pairs: map<nat, nat>)
    requires pairs == map gi | gi in s.of :: s.of[gi].variable
    ensures pairs == PairsOf(s)
  {
  }

  method ArgPass(p: Problem, byArg: map<int, nat>) returns (s: Picks)
    requires ArgIndexed(p.vars, |p.vars|, byArg)
    ensures s == PickFrom(p, ByArg, 0, Picks({}, map[]))
  {
    hide PickOne, ArgIndexed;
    s := Picks({}, map[]);
    for gi := 0 to |p.truths|
      invariant Reached(p, ByArg, Picks({}, map[]), gi, s) && forall g | g in s.of :: g < gi
    {
      NextPick(p, ByArg, Picks({}, map[]), gi, s);
      NoneBefore(p, ByArg, gi, s);
      ArgPick(p, byArg, gi, s);
      var t := p.truths[gi];
      if !t.isArg || t.argIndex.None? || t.argIndex.value !in byArg {
        continue;
      }
      var i := byArg[t.argIndex.value];
      if i in s.used {
        continue;
      }
      s := Picks(s.used + {i}, s.of[gi := Pick(i, ByArg)]);
    }
  }

  method OffsetPass(p: Problem, byOff: map<int, seq<nat>>, start: Picks) returns (s: Picks)
    requires OffIndexed(p.vars, |p.vars|, p.shift, byOff)
    ensures s == PickFrom(p, ByOffset, 0, start)
  {
    hide Candidates, Claim, OffIndexed;
    s := start;
    for gi := 0 to |p.truths|
      invariant Reached(p, ByOffset, start, gi, s)
    {
      NextPick(p, ByOffset, start, gi, s);
      if gi in s.of {
        continue;
      }
      var candidates := OffsetCandidates(p, byOff, p.truths[gi]);
      CandidatesInRange(p, p.truths[gi], ByOffset);
      var i := ClaimLoop(p.vars, p.truths[gi], candidates, s.used);
      if i.Some? {
        s := Picks(s.used + {i.value}, s.of[gi := Pick(i.value, ByOffset)]);
      }
    }
  }

  method NamePass(p: Problem, byName: map<string, seq<nat>>, start: Picks) returns (s: Picks)
    requires NameIndexed(p.vars, |p.vars|, byName)
    ensures s == PickFrom(p, ByName, 0, start)
  {
    hide Claim, Candidates;
    s := start;
    for gi := 0 to |p.truths|
      invariant Reached(p, ByName, start, gi, s)
    {
      NextPick(p, ByName, start, gi, s);
      var t := p.truths[gi];
      if gi in s.of || t.name == "" {
        NoNameNoPick(p, gi, s);
        continue;
      }
      var candidates := Lookup(byName, t.name);
      NameCandidates(p, byName, t);
      CandidatesInRange(p, t, ByName);
      var i := ClaimLoop(p.vars, t, candidates, s.used);
      if i.Some? {
        s := Picks(s.used + {i.value}, s.of[gi := Pick(i.value, ByName)]);
      }
    }
  }

  lemma NameCandidates(p: Problem, byName: map<string, seq<nat>>, t: Truth)
    requires NameIndexed(p.vars, |p.vars|, byName) && t.name != ""
    ensures Lookup(byName, t.name) == Candidates(p, t, ByName)
  {
  }

  lemma NoNameNoPick(p: Problem, gi: nat, s: Picks)
    requires gi < |p.truths| && (gi in s.of || p.truths[gi].name == "")
    ensures PickOne(p, ByName, gi, s) == s
  {
  }

  // ---------- the recording matcher ----------

  /** What is recorded about one ground-truth variable; pass is None for a miss. */
  datatype Verdict = Verdict(gi: nat, ok: Option<bool>, variable: Option<nat>, pass: Option<Pass>)

  function VerdictOf(p: Problem, s: Picks, gi: nat): Verdict
    requires gi < |p.truths|
  {
    if gi in s.of && s.of[gi].variable < |p.vars| then
      var pick := s.of[gi];
      Verdict(gi, Some(Matches(p.truths[gi], p.vars[pick.variable])), Some(pick.variable), Some(pick.pass))
    else Verdict(gi, None, None, None)
  }

  function CountOk(p: Problem, s: Picks, ok: Option<bool>, n: nat): nat
    requires n <= |p.truths|
  {
    if n == 0 then 0 else CountOk(p, s, ok, n - 1) + if VerdictOf(p, s, n - 1).ok == ok then 1 else 0
  }

  /** Every ground-truth variable is a true positive, a false positive or a miss. */
  lemma {:induction false} CountsAddUp(p: Problem, s: Picks, n: nat)
    requires n <= |p.truths|
    ensures CountOk(p, s, Some(true), n) + CountOk(p, s, Some(false), n) + CountOk(p, s, None, n) == n
  {
    if n > 0 {
      hide VerdictOf;
      CountsAddUp(p, s, n - 1);
      var ok := VerdictOf(p, s, n - 1).ok;
      assert ok == None || ok == Some(true) || ok == Some(false);
    }
  }

  /** The arrays decided and verdicts say the same as the picks. */
  ghost predicate Shows(p: Problem, s: Picks, decided: seq<bool>, verdicts: seq<Option<bool>>) {
    && |decided| == |verdicts| == |p.truths| && InRange(p, s)
    && (forall gi | gi in s.of :: s.of[gi].variable < |p.vars|)
    && forall gi | 0 <= gi < |p.truths| :: decided[gi] == (gi in s.of) && verdicts[gi] == VerdictOf(p, s, gi).ok
  }

  /** The records made so far are those of the decided variables, one each. */
  ghost predicate Recorded(p: Problem, s: Picks, sink: seq<Verdict>) {
    && InRange(p, s) && |sink| == |s.of|
    && forall gi | gi in s.of :: VerdictOf(p, s, gi) in sink
  }

  lemma VerdictsAfterPick(p: Problem, s: Picks, gi: nat, pick: Pick)
    requires gi < |p.truths| && pick.variable < |p.vars|
    ensures var t := Picks(s.used + {pick.variable}, s.of[gi := pick]);
      && VerdictOf(p, t, gi) ==
           Verdict(gi, Some(Matches(p.truths[gi], p.vars[pick.variable])), Some(pick.variable), Some(pick.pass))
      && forall g | 0 <= g < |p.truths| && g != gi :: VerdictOf(p, t, g) == VerdictOf(p, s, g)
  {
    hide Matches;
  }

  lemma ShowsPick(p: Problem, s: Picks, decided: seq<bool>, verdicts: seq<Option<bool>>, gi: nat, pick: Pick)
    requires gi < |p.truths| && Shows(p, s, decided, verdicts) && pick.variable < |p.vars|
    ensures var t, ok := Picks(s.used + {pick.variable}, s.of[gi := pick]), Matches(p.truths[gi], p.vars[pick.variable]);
      Shows(p, t, decided[gi := true], verdicts[gi := Some(ok)])
  {
    VerdictsAfterPick(p, s, gi, pick);
    hide Matches, VerdictOf;
  }

  lemma RecordedPick(p: Problem, s: Picks, sink: seq<Verdict>, gi: nat, pick: Pick)
    requires gi < |p.truths| && Recorded(p, s, sink) && gi !in s.of && pick.variable < |p.vars|
    ensures var t, ok := Picks(s.used + {pick.variable}, s.of[gi := pick]), Matches(p.truths[gi], p.vars[pick.variable]);
      Recorded(p, t, sink + [Verdict(gi, Some(ok), Some(pick.variable), Some(pick.pass))])
  {
    VerdictsAfterPick(p, s, gi, pick);
    var t := Picks(s.used + {pick.variable}, s.of[gi := pick]);
    MoreKeys(s.of, gi, pick);
    var last := Verdict(gi, Some(Matches(p.truths[gi], p.vars[pick.variable])), Some(pick.variable), Some(pick.pass));
    hide Matches, VerdictOf;
    forall g | g in t.of ensures VerdictOf(p, t, g) in sink + [last] {
      if g != gi {
        assert g in s.of && VerdictOf(p, s, g) in sink;
      }
    }
  }

  lemma MoreKeys(m: map<nat, Pick>, gi: nat, pick: Pick)
    requires gi !in m
    ensures |m[gi := pick]| == |m| + 1
  {
    assert m[gi := pick].Keys == m.Keys + {gi};
  }

  /** Picks and misses together are all the ground-truth variables. */
  lemma {:induction false} PickedAndMissed(p: Problem, s: Picks, n: nat)
    requires n <= |p.truths| && forall gi | gi in s.of :: s.of[gi].variable < |p.vars|
    ensures |set g | g in s.of.Keys && g < n| + CountOk(p, s, None, n) == n
  {
    if n == 0 {
      assert (set g | g in s.of.Keys && g < 0) == {};
    } else {
      PickedAndMissed(p, s, n - 1);
      var before, now := set g | g in s.of.Keys && g < n - 1, set g | g in s.of.Keys && g < n;
      assert now == if n - 1 in s.of then before + {n - 1} else before;
    }
  }

  /** Every ground-truth variable before n has its record. */
  predicate RecordedBefore(p: Problem, s: Picks, sink: seq<Verdict>, n: nat)
    requires n <= |p.truths|
  {
    forall gi | 0 <= gi < n :: VerdictOf(p, s, gi) in sink
  }

  lemma NothingBefore(p: Problem, s: Picks, sink: seq<Verdict>)
    ensures RecordedBefore(p, s, sink, 0)
  {
  }

  /** One more variable: its record is there already, or it is a miss and is recorded now. */
  lemma RecordStep(p: Problem, s: Picks, decided: seq<bool>, verdicts: seq<Option<bool>>, before: seq<Verdict>,
                   sink: seq<Verdict>, gi: nat)
    requires gi < |p.truths| && Shows(p, s, decided, verdicts) && Recorded(p, s, before)
    requires before <= sink && RecordedBefore(p, s, sink, gi)
    ensures RecordedBefore(p, s, if decided[gi] then sink else sink + [Verdict(gi, None, None, None)], gi + 1)
    ensures verdicts[gi] == VerdictOf(p, s, gi).ok && (decided[gi] <==> verdicts[gi].Some?)
    ensures verdicts[gi] == None || verdicts[gi] == Some(true) || verdicts[gi] == Some(false)
  {
    assert verdicts[gi] == None || verdicts[gi] == Some(true) || verdicts[gi] == Some(false);
    hide Matches;
    if decided[gi] {
      assert VerdictOf(p, s, gi) in before;
    }
    hide VerdictOf;
  }

  class Recorder {
    var used: set<nat>
    ghost var picks: Picks
    var sink: seq<Verdict>
    const decided: array<bool>
    const verdicts: array<Option<bool>>

    ghost predicate Valid(p: Problem)
      reads this, decided, verdicts
    {
      && decided.Length == verdicts.Length == |p.truths| && used == picks.used
      && Shows(p, picks, decided[..], verdicts[..]) && Recorded(p, picks, sink)
    }

    constructor (p: Problem)
      ensures Valid(p) && picks == Picks({}, map[]) && fresh(decided) && fresh(verdicts)
    {
      used, picks, sink := {}, Picks({}, map[]), [];
      decided := new bool[|p.truths|](_ => false);
      verdicts := new Option<bool>[|p.truths|](_ => None);
    }

    lemma RecordedNow(p: Problem)
      requires Valid(p)
      ensures |sink| == |picks.of| && InRange(p, picks) && forall gi | gi in picks.of :: picks.of[gi].variable < |p.vars|
    {
    }

    method Decide(p: Problem, gi: nat, i: nat, pass: Pass)
      requires Valid(p) && gi < |p.truths| && !decided[gi] && i < |p.vars|
      modifies this`used, this`picks, this`sink, decided, verdicts
      ensures Valid(p) && picks == Picks(old(picks).used + {i}, old(picks).of[gi := Pick(i, pass)])
    {
      hide Matches, VerdictOf;
      var ok := Matches(p.truths[gi], p.vars[i]);
      ghost var d, v := decided[..], verdicts[..];
      assert decided[gi] == d[gi];
      ShowsPick(p, picks, d, v, gi, Pick(i, pass));
      RecordedPick(p, picks, sink, gi, Pick(i, pass));
      used := used + {i};
      picks := Picks(picks.used + {i}, picks.of[gi := Pick(i, pass)]);
      decided[gi] := true;
      verdicts[gi] := Some(ok);
      sink := sink + [Verdict(gi, Some(ok), Some(i), Some(pass))];
      assert decided[..] == d[gi := true] && verdicts[..] == v[gi := Some(ok)];
      hide Shows, Recorded;
    }

    method ArgPass(p: Problem, byArg: map<int, nat>)
      requires Valid(p) && ArgIndexed(p.vars, |p.vars|, byArg) && picks == Picks({}, map[])
      modifies this`used, this`picks, this`sink, decided, verdicts
      ensures Valid(p) && picks == PickFrom(p, ByArg, 0, Picks({}, map[]))
    {
      hide PickOne, ArgIndexed, Recorded;
      for gi := 0 to |p.truths|
        invariant Valid(p)
        invariant Reached(p, ByArg, Picks({}, map[]), gi, picks) && forall g | g in picks.of :: g < gi
      {
        NextPick(p, ByArg, Picks({}, map[]), gi, picks);
        NoneBefore(p, ByArg, gi, picks);
        ArgPick(p, byArg, gi, picks);
        var t := p.truths[gi];
        if !t.isArg || t.argIndex.None? || t.argIndex.value !in byArg {
          continue;
        }
        var i := byArg[t.argIndex.value];
        if i in used {
          continue;
        }
        ArgInRange(p, byArg, t.argIndex.value);
        assert decided[..][gi] == decided[gi];
        Decide(p, gi, i, ByArg);
      }
    }

    method OffsetPass(p: Problem, byOff: map<int, seq<nat>>)
      requires Valid(p) && OffIndexed(p.vars, |p.vars|, p.shift, byOff)
      modifies this`used, this`picks, this`sink, decided, verdicts
      ensures Valid(p) && picks == PickFrom(p, ByOffset, 0, old(picks))
    {
      hide Candidates, Claim, OffIndexed, Recorded;
      for gi := 0 to |p.truths|
        invariant Valid(p) && Reached(p, ByOffset, old(picks), gi, picks)
      {
        NextPick(p, ByOffset, old(picks), gi, picks);
        assert decided[..][gi] == decided[gi];
        if decided[gi] {
          continue;
        }
        var candidates := OffsetCandidates(p, byOff, p.truths[gi]);
        CandidatesInRange(p, p.truths[gi], ByOffset);
        var i := ClaimLoop(p.vars, p.truths[gi], candidates, used);
        if i.Some? {
          Decide(p, gi, i.value, ByOffset);
        }
      }
    }

    method NamePass(p: Problem, byName: map<string, seq<nat>>)
      requires Valid(p) && NameIndexed(p.vars, |p.vars|, byName)
      modifies this`used, this`picks, this`sink, decided, verdicts
      ensures Valid(p) && picks == PickFrom(p, ByName, 0, old(picks))
    {
      hide Candidates, Claim, NameIndexed, Recorded;
      for gi := 0 to |p.truths|
        invariant Valid(p) && Reached(p, ByName, old(picks), gi, picks)
      {
        NextPick(p, ByName, old(picks), gi, picks);
        assert decided[..][gi] == decided[gi];
        var t := p.truths[gi];
        if decided[gi] || t.name == "" {
          NoNameNoPick(p, gi, picks);
          continue;
        }
        NameCandidates(p, byName, t);
        CandidatesInRange(p, t, ByName);
        var i := ClaimLoop(p.vars, t, Lookup(byName, t.name), used);
        if i.Some? {
          Decide(p, gi, i.value, ByName);
        }
      }
    }

    /** Records the misses and counts the verdicts. */
    method Finish(p: Problem) returns (tp: nat, fp: nat, fn: nat)
      requires Valid(p)
      modifies this`sink
      ensures tp == CountOk(p, picks, Some(true), |p.truths|) && fp == CountOk(p, picks, Some(false), |p.truths|)
      ensures fn == CountOk(p, picks, None, |p.truths|)
      ensures |sink| == |old(sink)| + fn && RecordedBefore(p, picks, sink, |p.truths|)
    {
      hide Matches, RecordedBefore, Recorded, Shows, VerdictOf;
      assert RecordedBefore(p, picks, sink, 0) by { NothingBefore(p, picks, sink); }
      tp, fp, fn := 0, 0, 0;
      for gi := 0 to |p.truths|
        invariant old(sink) <= sink && RecordedBefore(p, picks, sink, gi)
        invariant tp == CountOk(p, picks, Some(true), gi) && fp == CountOk(p, picks, Some(false), gi)
        invariant fn == CountOk(p, picks, None, gi)
        invariant |sink| == |old(sink)| + fn
      {
        assert decided[..][gi] == decided[gi] && verdicts[..][gi] == verdicts[gi];
        RecordStep(p, picks, decided[..], verdicts[..], old(sink), sink, gi);
        if !decided[gi] {
          sink := sink + [Verdict(gi, None, None, None)];
          fn := fn + 1;
        } else if verdicts[gi] == Some(true) {
          tp := tp + 1;
        } else {
          fp := fp + 1;
        }
      }
    }
  }

  lemma AllRecorded(p: Problem, s: Picks, sink: seq<Verdict>, fn: nat)
    requires InRange(p, s) && (forall gi | gi in s.of :: s.of[gi].variable < |p.vars|)
    requires fn == CountOk(p, s, None, |p.truths|) && |sink| == |s.of| + fn
    ensures |sink| == |p.truths|
  {
    PickedAndMissed(p, s, |p.truths|);
    assert (set g | g in s.of.Keys && g < |p.truths|) == s.of.Keys;
    assert |s.of| == |s.of.Keys|;
  }

  lemma ArgInRange(p: Problem, byArg: map<int, nat>, a: int)
    requires ArgIndexed(p.vars, |p.vars|, byArg) && a in byArg
    ensures byArg[a] < |p.vars|
  {
    IndicesAre(p.vars, |p.vars|, Arg(a));
    assert Indices(p.vars, |p.vars|, Arg(a))[0] in Indices(p.vars, |p.vars|, Arg(a));
  }

  method MatchStructured(vars: seq<Var>, truths: seq<Truth>, binaryShift: Option<int>,
                         calibrate: (seq<int>, seq<int>) -> Option<int>)
    returns (sink: seq<Verdict>, tp: nat, fp: nat, fn: nat)
    ensures var p := Problem(vars, truths, Shift(calibrate, binaryShift, vars, truths));
      && tp == CountOk(p, Pairs(p), Some(true), |truths|) && fp == CountOk(p, Pairs(p), Some(false), |truths|)
      && tp + fp + fn == |truths|
      && |sink| == |truths|
      && RecordedBefore(p, Pairs(p), sink, |truths|)
  {
    hide *;
    var p := Problem(vars, truths, Shift(calibrate, binaryShift, vars, truths));
    var byArg, byOff, byName := BuildIndexes(vars, p.shift);
    var r := new Recorder(p);
    r.ArgPass(p, byArg);
    r.OffsetPass(p, byOff);
    r.NamePass(p, byName);
    PairsAre(p);
    r.RecordedNow(p);
    tp, fp, fn := r.Finish(p);
    CountsAddUp(p, r.picks, |truths|);
    sink := r.sink;
    AllRecorded(p, r.picks, sink, fn);
  }
}
