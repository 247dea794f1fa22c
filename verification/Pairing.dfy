/** Pairing ground-truth variables with recovered ones in three greedy passes. */
module Pairing {

  // One specification for pair_variables in scripts/decbench/structscore.py and _match_structured in
  // scripts/decbench/typesweep.py, and what it guarantees.

  datatype Option<+T> = None | Some(value: T)

  /** A recovered variable. offset is its effective stack offset, forms its normalised type forms, and
      free the forms its uncommitted size accepts (none when the size is committed). */
  datatype Var = Var(argIndex: Option<int>, offset: Option<int>, name: string, forms: set<string>, free: set<string>)

  datatype Truth = Truth(isArg: bool, argIndex: Option<int>, offsets: seq<int>, name: string, forms: set<string>)

  predicate Matches(t: Truth, v: Var) { t.forms * v.forms != {} || v.free * t.forms != {} }

  // ---------- the calibrated shift ----------

  function Offsets(vars: seq<Var>): seq<int> {
    if vars == [] then []
    else (if vars[0].offset.Some? then [vars[0].offset.value] else []) + Offsets(vars[1..])
  }

  function TruthOffsets(truths: seq<Truth>): seq<int> {
    if truths == [] then [] else truths[0].offsets + TruthOffsets(truths[1..])
  }

  /** How many distinct ground-truth offsets the shifted variables hit. */
  function Aligned(decOffsets: seq<int>, gtOffsets: seq<int>, shift: int): nat {
    |set d | d in decOffsets && d + shift in gtOffsets :: d + shift|
  }

  /** The binary-wide shift, unless it aligns nothing and the function's own aligns something. */
  function Shift(calibrate: (seq<int>, seq<int>) -> Option<int>, binaryShift: Option<int>, vars: seq<Var>,
                 truths: seq<Truth>): int {
    var dec, gt := Offsets(vars), TruthOffsets(truths);
    var shift := if binaryShift.Some? then binaryShift.value else 0;
    var own := calibrate(gt, dec);
    if own.Some? && Aligned(dec, gt, shift) == 0 && Aligned(dec, gt, own.value) > 0 then own.value else shift
  }

  // ---------- candidates ----------

  datatype Key = Arg(index: int) | At(place: int, shift: int) | Named(name: string)

  predicate Has(v: Var, key: Key) {
    match key
    case Arg(a) => v.argIndex == Some(a)
    case At(o, k) => v.offset.Some? && v.offset.value + k == o
    case Named(n) => v.name != "" && v.name == n
  }

  /** The variables with the key among the first n, in order. */
  function Indices(vars: seq<Var>, n: nat, key: Key): seq<nat>
    requires n <= |vars|
  {
    if n == 0 then [] else Indices(vars, n - 1, key) + if Has(vars[n - 1], key) then [n - 1] else []
  }

  lemma {:induction false} IndicesAre(vars: seq<Var>, n: nat, key: Key)
    requires n <= |vars|
    ensures forall i: nat :: i in Indices(vars, n, key) <==> i < n && Has(vars[i], key)
  {
    if n > 0 {
      IndicesAre(vars, n - 1, key);
    }
  }

  function All(vars: seq<Var>, key: Key): seq<nat> { Indices(vars, |vars|, key) }

  /** The candidates at each of the ground-truth variable's offsets in turn. */
  function AtOffsets(vars: seq<Var>, shift: int, offsets: seq<int>): seq<nat> {
    if offsets == [] then [] else All(vars, At(offsets[0], shift)) + AtOffsets(vars, shift, offsets[1..])
  }

  lemma {:induction false} AtOffsetsAre(vars: seq<Var>, shift: int, offsets: seq<int>)
    ensures forall i: nat :: i in AtOffsets(vars, shift, offsets) <==>
      i < |vars| && vars[i].offset.Some? && vars[i].offset.value + shift in offsets
  {
    if offsets != [] {
      IndicesAre(vars, |vars|, At(offsets[0], shift));
      AtOffsetsAre(vars, shift, offsets[1..]);
      assert forall o :: o in offsets <==> o == offsets[0] || o in offsets[1..];
    }
  }

  function Free(candidates: seq<nat>, used: set<nat>): seq<nat> {
    if candidates == [] then []
    else (if candidates[0] in used then [] else [candidates[0]]) + Free(candidates[1..], used)
  }

  lemma {:induction false} FreeAre(candidates: seq<nat>, used: set<nat>)
    ensures forall i :: i in Free(candidates, used) <==> i in candidates && i !in used
  {
    if candidates != [] {
      FreeAre(candidates[1..], used);
    }
  }

  function FirstMatch(vars: seq<Var>, t: Truth, free: seq<nat>): (r: Option<nat>)
    requires forall j | 0 <= j < |free| :: free[j] < |vars|
    ensures r.Some? ==> r.value in free && Matches(t, vars[r.value])
    ensures r.None? ==> forall j | 0 <= j < |free| :: !Matches(t, vars[free[j]])
  {
    if free == [] then None
    else if Matches(t, vars[free[0]]) then Some(free[0])
    else FirstMatch(vars, t, free[1..])
  }

  /** claim(): the first free candidate that matches, else the first free one. */
  function Claim(vars: seq<Var>, t: Truth, candidates: seq<nat>, used: set<nat>): (r: Option<nat>)
    requires forall i | i in candidates :: i < |vars|
    ensures r.Some? ==> r.value in candidates && r.value !in used
    ensures r.Some? && !Matches(t, vars[r.value]) ==> forall i | i in candidates && i !in used :: !Matches(t, vars[i])
    ensures r.None? <==> forall i | i in candidates :: i in used
  {
    var free := Free(candidates, used);
    FreeAre(candidates, used);
    if free == [] then
      assert forall i | i in candidates :: i in free || i in used;
      None
    else
      assert forall j | 0 <= j < |free| :: free[j] in free;
      var hit := FirstMatch(vars, t, free);
      if hit.Some? then hit else Some(free[0])
  }

  // ---------- the specification ----------

  datatype Pass = ByArg | ByOffset | ByName

  datatype Pick = Pick(variable: nat, pass: Pass)

  datatype Picks = Picks(used: set<nat>, of: map<nat, Pick>)

  /** One function's problem. */
  datatype Problem = Problem(vars: seq<Var>, truths: seq<Truth>, shift: int)

  function Candidates(p: Problem, t: Truth, pass: Pass): seq<nat> {
    match pass
    case ByArg =>
      if !t.isArg || t.argIndex.None? then []
      else
        var all := All(p.vars, Arg(t.argIndex.value));
        if all == [] then [] else all[..1]
    case ByOffset => AtOffsets(p.vars, p.shift, t.offsets)
    case ByName => if t.name == "" then [] else All(p.vars, Named(t.name))
  }

  lemma CandidatesInRange(p: Problem, t: Truth, pass: Pass)
    ensures forall i | i in Candidates(p, t, pass) :: i < |p.vars|
  {
    match pass
    case ByArg =>
      if t.isArg && t.argIndex.Some? {
        IndicesAre(p.vars, |p.vars|, Arg(t.argIndex.value));
        assert forall i | i in Candidates(p, t, ByArg) :: i in All(p.vars, Arg(t.argIndex.value));
      }
    case ByOffset => AtOffsetsAre(p.vars, p.shift, t.offsets);
    case ByName => IndicesAre(p.vars, |p.vars|, Named(t.name));
  }

  /** One ground-truth variable in one pass. */
  function PickOne(p: Problem, pass: Pass, gi: nat, s: Picks): Picks
    requires gi < |p.truths|
  {
    if gi in s.of then s
    else
      CandidatesInRange(p, p.truths[gi], pass);
      var i := Claim(p.vars, p.truths[gi], Candidates(p, p.truths[gi], pass), s.used);
      if i.None? then s else Picks(s.used + {i.value}, s.of[gi := Pick(i.value, pass)])
  }

  function PickFrom(p: Problem, pass: Pass, gi: nat, s: Picks): Picks
    requires gi <= |p.truths|
    decreases |p.truths| - gi
  {
    if gi == |p.truths| then s else PickFrom(p, pass, gi + 1, PickOne(p, pass, gi, s))
  }

  function Pairs(p: Problem): Picks {
    PickFrom(p, ByName, 0, PickFrom(p, ByOffset, 0, PickFrom(p, ByArg, 0, Picks({}, map[]))))
  }

  // ---------- what the pairing guarantees ----------

  /** A pick of a non-matching candidate outside the argument pass: every candidate that matches is taken. */
  predicate Forced(p: Problem, t: Truth, pick: Pick, used: set<nat>) {
    pick.variable < |p.vars| &&
    (pick.pass != ByArg && !Matches(t, p.vars[pick.variable]) ==>
      forall i | i in Candidates(p, t, pick.pass) && i < |p.vars| && Matches(t, p.vars[i]) :: i in used)
  }

  predicate InRange(p: Problem, s: Picks) {
    forall gi | gi in s.of :: gi < |p.truths| && s.of[gi].variable in s.used
  }

  predicate FromCandidates(p: Problem, s: Picks)
    requires InRange(p, s)
  {
    forall gi | gi in s.of :: s.of[gi].variable in Candidates(p, p.truths[gi], s.of[gi].pass)
  }

  predicate AllForced(p: Problem, s: Picks)
    requires InRange(p, s)
  {
    forall gi | gi in s.of :: Forced(p, p.truths[gi], s.of[gi], s.used)
  }

  predicate OneToOne(s: Picks) {
    forall g, h | g in s.of && h in s.of && g != h :: s.of[g].variable != s.of[h].variable
  }

  predicate Covered(s: Picks) { forall i | i in s.used :: exists gi :: gi in s.of && s.of[gi].variable == i }

  predicate Good(p: Problem, s: Picks) {
    InRange(p, s) && FromCandidates(p, s) && AllForced(p, s) && OneToOne(s) && Covered(s)
  }

  function Rank(pass: Pass): nat {
    match pass
    case ByArg => 0
    case ByOffset => 1
    case ByName => 2
  }

  /** A ground-truth variable that is not paired in this pass or before has no candidate left in it. */
  predicate Exhausted(p: Problem, pass: Pass, gi: nat, s: Picks)
    requires gi < |p.truths|
  {
    || (gi in s.of && Rank(s.of[gi].pass) <= Rank(pass))
    || forall i | i in Candidates(p, p.truths[gi], pass) :: i in s.used
  }

  /** No pick of a later pass yet. */
  predicate UpTo(pass: Pass, s: Picks) { forall gi | gi in s.of :: Rank(s.of[gi].pass) <= Rank(pass) }

  predicate Grows(s: Picks, t: Picks) {
    s.used <= t.used && forall gi | gi in s.of :: gi in t.of && t.of[gi] == s.of[gi]
  }

  lemma PickOneKeeps(p: Problem, pass: Pass, gi: nat, s: Picks)
    requires gi < |p.truths| && Good(p, s) && UpTo(pass, s)
    ensures var t := PickOne(p, pass, gi, s); Good(p, t) && Grows(s, t) && UpTo(pass, t) && Exhausted(p, pass, gi, t)
  {
    if gi !in s.of {
      CandidatesInRange(p, p.truths[gi], pass);
      var i := Claim(p.vars, p.truths[gi], Candidates(p, p.truths[gi], pass), s.used);
      if i.Some? {
        NewPickKeeps(p, pass, gi, s, i.value);
      }
    }
    hide Candidates, Matches, Good, Claim;
  }

  lemma NewPickKeeps(p: Problem, pass: Pass, gi: nat, s: Picks, i: nat)
    requires gi < |p.truths| && Good(p, s) && gi !in s.of && i !in s.used
    requires var cands := Candidates(p, p.truths[gi], pass);
      && i in cands && (forall j | j in cands :: j < |p.vars|)
      && (!Matches(p.truths[gi], p.vars[i]) ==> forall j | j in cands && j !in s.used :: !Matches(p.truths[gi], p.vars[j]))
    ensures var t := Picks(s.used + {i}, s.of[gi := Pick(i, pass)]); Good(p, t) && Grows(s, t)
  {
    var t := Picks(s.used + {i}, s.of[gi := Pick(i, pass)]);
    hide Candidates, Matches;
    assert InRange(p, t);
    assert FromCandidates(p, t) by { hide AllForced, OneToOne, Covered, Forced; }
    assert OneToOne(t) by { hide AllForced, FromCandidates, Covered, Forced; }
    assert Covered(t) by { NewPickCovers(s, gi, Pick(i, pass)); hide AllForced, FromCandidates, OneToOne, Forced; }
    assert AllForced(p, t) by {
      hide FromCandidates, OneToOne, Covered;
      forall g | g in t.of ensures Forced(p, p.truths[g], t.of[g], t.used) {
        if g != gi {
          assert Forced(p, p.truths[g], s.of[g], s.used);
        }
      }
    }
  }

  lemma NewPickCovers(s: Picks, gi: nat, pick: Pick)
    requires Covered(s) && gi !in s.of
    ensures Covered(Picks(s.used + {pick.variable}, s.of[gi := pick]))
  {
    var t := Picks(s.used + {pick.variable}, s.of[gi := pick]);
    forall j | j in t.used ensures exists g :: g in t.of && t.of[g].variable == j {
      if j in s.used {
        var g :| g in s.of && s.of[g].variable == j;
        assert g in t.of && t.of[g].variable == j;
      } else {
        assert gi in t.of && t.of[gi].variable == j;
      }
    }
  }

  lemma {:induction false} PickFromKeeps(p: Problem, pass: Pass, gi: nat, s: Picks)
    requires gi <= |p.truths| && Good(p, s) && UpTo(pass, s)
    ensures var t := PickFrom(p, pass, gi, s);
      && Good(p, t) && Grows(s, t) && UpTo(pass, t)
      && forall g | gi <= g < |p.truths| :: Exhausted(p, pass, g, t)
    decreases |p.truths| - gi
  {
    hide Good, Candidates, PickOne;
    if gi < |p.truths| {
      PickOneKeeps(p, pass, gi, s);
      PickFromKeeps(p, pass, gi + 1, PickOne(p, pass, gi, s));
      ExhaustedGrows(p, pass, gi, PickOne(p, pass, gi, s), PickFrom(p, pass, gi + 1, PickOne(p, pass, gi, s)));
    }
  }

  lemma ExhaustedGrows(p: Problem, pass: Pass, gi: nat, s: Picks, t: Picks)
    requires gi < |p.truths| && Exhausted(p, pass, gi, s) && Grows(s, t)
    ensures Exhausted(p, pass, gi, t)
  {
    hide Candidates;
  }

  /** Main result: the pairing is one to one, every pair comes from the candidates of its pass, a pair
      whose types do not match outside the argument pass was made only because every matching candidate
      was taken, and a ground-truth variable that is unpaired, or paired in a later pass, has all its
      candidates in the earlier ones taken. */
  lemma PairingGuarantees(p: Problem)
    ensures var s := Pairs(p);
      && Good(p, s)
      && forall gi, pass: Pass | 0 <= gi < |p.truths| :: Exhausted(p, pass, gi, s)
  {
    hide *;
    var s0 := Picks({}, map[]);
    NothingPicked(p);
    var s1 := PickFrom(p, ByArg, 0, s0);
    var s2 := PickFrom(p, ByOffset, 0, s1);
    var s3 := PickFrom(p, ByName, 0, s2);
    PickFromKeeps(p, ByArg, 0, s0);
    assert Rank(ByArg) <= Rank(ByOffset) <= Rank(ByName) by { Ranks(); }
    UpToLater(ByArg, ByOffset, s1);
    PickFromKeeps(p, ByOffset, 0, s1);
    UpToLater(ByOffset, ByName, s2);
    PickFromKeeps(p, ByName, 0, s2);
    PairsAre(p);
    forall gi, pass: Pass | 0 <= gi < |p.truths| ensures Exhausted(p, pass, gi, s3) {
      match pass
      case ByArg => GrowsTwice(s1, s2, s3); ExhaustedGrows(p, ByArg, gi, s1, s3);
      case ByOffset => ExhaustedGrows(p, ByOffset, gi, s2, s3);
      case ByName =>
    }
  }

  lemma Ranks()
    ensures Rank(ByArg) <= Rank(ByOffset) <= Rank(ByName)
  {
  }

  lemma UpToLater(a: Pass, b: Pass, s: Picks)
    requires UpTo(a, s) && Rank(a) <= Rank(b)
    ensures UpTo(b, s)
  {
  }

  lemma NothingPicked(p: Problem)
    ensures Good(p, Picks({}, map[])) && UpTo(ByArg, Picks({}, map[]))
  {
  }

  lemma PairsAre(p: Problem)
    ensures Pairs(p) == PickFrom(p, ByName, 0, PickFrom(p, ByOffset, 0, PickFrom(p, ByArg, 0, Picks({}, map[]))))
  {
    hide PickFrom;
  }

  lemma GrowsTwice(s: Picks, t: Picks, u: Picks)
    requires Grows(s, t) && Grows(t, u)
    ensures Grows(s, u)
  {
  }
}
