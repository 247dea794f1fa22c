/** The pairing of ground-truth variables in literal terms: which shift, which candidates in which order, and who
    goes first. */
module PairingMeaning {
  import opened Pairing

  // ---------- the shift ----------

  /** The shift puts some variable on an offset of the ground truth. */
  ghost predicate Aligns(vars: seq<Var>, truths: seq<Truth>, shift: int) {
    exists v, t | v in vars && t in truths :: v.offset.Some? && v.offset.value + shift in t.offsets
  }

  lemma {:induction false} OffsetsAre(vars: seq<Var>)
    ensures forall d :: d in Offsets(vars) <==> exists v | v in vars :: v.offset == Some(d)
  {
    if vars != [] {
      OffsetsAre(vars[1..]);
      assert forall v :: v in vars <==> v == vars[0] || v in vars[1..];
    }
  }

  lemma {:induction false} TruthOffsetsAre(truths: seq<Truth>)
    ensures forall d :: d in TruthOffsets(truths) <==> exists t | t in truths :: d in t.offsets
  {
    if truths != [] {
      TruthOffsetsAre(truths[1..]);
      assert forall t :: t in truths <==> t == truths[0] || t in truths[1..];
    }
  }

  lemma AlignedIs(vars: seq<Var>, truths: seq<Truth>, shift: int)
    ensures Aligned(Offsets(vars), TruthOffsets(truths), shift) > 0 <==> Aligns(vars, truths, shift)
  {
    OffsetsAre(vars);
    TruthOffsetsAre(truths);
    var dec, gt := Offsets(vars), TruthOffsets(truths);
    hide Offsets, TruthOffsets;
    var hits := set d | d in dec && d + shift in gt :: d + shift;
    if Aligns(vars, truths, shift) {
      var v, t :| v in vars && t in truths && v.offset.Some? && v.offset.value + shift in t.offsets;
      assert v.offset.value in dec && v.offset.value + shift in gt;
      assert v.offset.value + shift in hits;
    }
    if hits != {} {
      var h :| h in hits;
      var d :| d in dec && d + shift in gt && h == d + shift;
      var v :| v in vars && v.offset == Some(d);
      var t :| t in truths && d + shift in t.offsets;
      assert v.offset.value + shift in t.offsets;
    }
    assert hits != {} <==> |hits| > 0;
  }

  /** The shift of the whole binary, 0 when there is none, is used whenever it aligns something; the function's own one
      only when that does and the other does not. So the chosen one aligns something whenever either does. */
  lemma ShiftIs(calibrate: (seq<int>, seq<int>) -> Option<int>, binaryShift: Option<int>, vars: seq<Var>, truths: seq<Truth>)
    ensures var chosen := Shift(calibrate, binaryShift, vars, truths);
      var whole := if binaryShift.Some? then binaryShift.value else 0;
      var own := calibrate(TruthOffsets(truths), Offsets(vars));
      && (Aligns(vars, truths, whole) ==> chosen == whole)
      && (own.None? ==> chosen == whole)
      && (!Aligns(vars, truths, whole) && own.Some? ==> chosen == if Aligns(vars, truths, own.value) then own.value else whole)
      && (Aligns(vars, truths, chosen) <==> Aligns(vars, truths, whole) || (own.Some? && Aligns(vars, truths, own.value)))
  {
    var whole := if binaryShift.Some? then binaryShift.value else 0;
    var own := calibrate(TruthOffsets(truths), Offsets(vars));
    AlignedIs(vars, truths, whole);
    if own.Some? {
      AlignedIs(vars, truths, own.value);
    }
    hide Aligns, Aligned;
  }

  // ---------- candidates ----------

  predicate Ascending(s: seq<nat>) { forall i, j | 0 <= i < j < |s| :: s[i] < s[j] }

  lemma {:induction false} IndicesAscend(vars: seq<Var>, n: nat, key: Key)
    requires n <= |vars|
    ensures Ascending(Indices(vars, n, key)) && forall i | i in Indices(vars, n, key) :: i < n
  {
    if n > 0 {
      IndicesAscend(vars, n - 1, key);
      var init := Indices(vars, n - 1, key);
      assert forall i | 0 <= i < |init| :: init[i] in init;
    }
  }

  /** By argument position: the first variable at that position, for an argument with a position. By offset: the variables
      that the shift puts on one of the offsets. By name: the variables of that name, if it has one, in order. */
  lemma CandidatesAre(p: Problem, t: Truth)
    ensures forall i: nat :: i in Candidates(p, t, ByArg) <==>
      && i < |p.vars| && t.isArg && t.argIndex.Some? && p.vars[i].argIndex == t.argIndex
      && forall j | 0 <= j < i :: p.vars[j].argIndex != t.argIndex
    ensures |Candidates(p, t, ByArg)| <= 1
    ensures forall i: nat :: i in Candidates(p, t, ByOffset) <==>
      i < |p.vars| && p.vars[i].offset.Some? && p.vars[i].offset.value + p.shift in t.offsets
    ensures forall i: nat :: i in Candidates(p, t, ByName) <==> i < |p.vars| && t.name != "" && p.vars[i].name == t.name
    ensures Ascending(Candidates(p, t, ByName))
  {
    ArgCandidate(p, t);
    AtOffsetsAre(p.vars, p.shift, t.offsets);
    IndicesAre(p.vars, |p.vars|, Named(t.name));
    IndicesAscend(p.vars, |p.vars|, Named(t.name));
    hide Indices, AtOffsets;
  }

  lemma NotBeforeFirst(all: seq<nat>, j: nat)
    requires Ascending(all) && all != [] && j < all[0]
    ensures j !in all
  {
    assert forall k | 0 <= k < |all| :: all[0] <= all[k];
  }

  lemma ArgCandidate(p: Problem, t: Truth)
    ensures |Candidates(p, t, ByArg)| <= 1
    ensures forall i: nat :: i in Candidates(p, t, ByArg) <==>
      && i < |p.vars| && t.isArg && t.argIndex.Some? && p.vars[i].argIndex == t.argIndex
      && forall j | 0 <= j < i :: p.vars[j].argIndex != t.argIndex
  {
    if t.isArg && t.argIndex.Some? {
      var key := Arg(t.argIndex.value);
      var all := All(p.vars, key);
      IndicesAre(p.vars, |p.vars|, key);
      IndicesAscend(p.vars, |p.vars|, key);
      hide Indices;
      if all != [] {
        assert all[0] in all;
        forall j: nat | j < all[0] ensures p.vars[j].argIndex != t.argIndex {
          NotBeforeFirst(all, j);
        }
      }
      forall i: nat | i < |p.vars| && p.vars[i].argIndex == t.argIndex ensures i in all {
      }
      if all != [] {
        forall i: nat | i < |p.vars| && p.vars[i].argIndex == t.argIndex && forall j | 0 <= j < i :: p.vars[j].argIndex != t.argIndex
          ensures i == all[0]
        {
          assert i in all && all[0] in all && p.vars[all[0]].argIndex == t.argIndex;
        }
      }
    }
  }

  /** Several offsets: the candidates of the first, then those of the others; of one offset, in order. */
  lemma OffsetCandidatesInOrder(p: Problem, t: Truth, o: int, rest: seq<int>)
    requires t.offsets == [o] + rest
    ensures exists first: seq<nat> ::
      && Candidates(p, t, ByOffset) == first + Candidates(p, t.(offsets := rest), ByOffset) && Ascending(first)
      && forall i: nat :: i in first <==> i < |p.vars| && p.vars[i].offset.Some? && p.vars[i].offset.value + p.shift == o
  {
    var first := All(p.vars, At(o, p.shift));
    IndicesAre(p.vars, |p.vars|, At(o, p.shift));
    IndicesAscend(p.vars, |p.vars|, At(o, p.shift));
    assert t.offsets[1..] == rest;
    hide Indices;
    assert Candidates(p, t, ByOffset) == first + Candidates(p, t.(offsets := rest), ByOffset);
  }

  // ---------- who claims what ----------

  /** The types fit: they share a normalised form, or the uncommitted size accepts one. */
  ghost predicate Fits(t: Truth, v: Var) { exists f | f in t.forms :: f in v.forms || f in v.free }

  lemma FitsIs(t: Truth, v: Var)
    ensures Matches(t, v) <==> Fits(t, v)
  {
    if t.forms * v.forms != {} {
      var f :| f in t.forms * v.forms;
      assert f in t.forms && f in v.forms;
    }
    if v.free * t.forms != {} {
      var f :| f in v.free * t.forms;
      assert f in t.forms && f in v.free;
    }
    if Fits(t, v) {
      var f :| f in t.forms && (f in v.forms || f in v.free);
      assert f in t.forms * v.forms || f in v.free * t.forms;
    }
  }

  predicate Within(vars: seq<Var>, candidates: seq<nat>) { forall j | 0 <= j < |candidates| :: candidates[j] < |vars| }

  /** The k-th candidate is the one claimed: it is free, and each one before it is taken, or does not fit while it does. */
  ghost predicate First(vars: seq<Var>, t: Truth, candidates: seq<nat>, used: set<nat>, k: nat)
    requires Within(vars, candidates)
  {
    && k < |candidates| && candidates[k] !in used
    && forall j | 0 <= j < k ::
         candidates[j] in used || (Fits(t, vars[candidates[k]]) && !Fits(t, vars[candidates[j]]))
  }

  lemma {:induction false} FirstFree(vars: seq<Var>, t: Truth, candidates: seq<nat>, used: set<nat>)
    requires Within(vars, candidates)
    ensures var free := Free(candidates, used);
      && (forall j | 0 <= j < |free| :: free[j] < |vars|)
      && (free != [] ==> exists k: nat ::
            k < |candidates| && candidates[k] == free[0] && forall j | 0 <= j < k :: candidates[j] in used)
  {
    FreeAre(candidates, used);
    forall j | 0 <= j < |Free(candidates, used)| ensures Free(candidates, used)[j] < |vars| {
      assert Free(candidates, used)[j] in candidates;
    }
    if candidates != [] {
      var rest := candidates[1..];
      FirstFree(vars, t, rest, used);
      if candidates[0] in used {
        assert Free(candidates, used) == Free(rest, used);
        if Free(rest, used) != [] {
          var k: nat :| k < |rest| && rest[k] == Free(rest, used)[0] && forall j | 0 <= j < k :: rest[j] in used;
          assert candidates[k + 1] == rest[k] && forall j | 0 <= j < k + 1 :: candidates[j] in used;
        }
      } else {
        assert candidates[0] == Free(candidates, used)[0];
      }
    }
  }

  lemma {:induction false} FirstMatching(vars: seq<Var>, t: Truth, candidates: seq<nat>, used: set<nat>)
    requires Within(vars, candidates) && Within(vars, Free(candidates, used))
    ensures var hit := FirstMatch(vars, t, Free(candidates, used));
      hit.Some? ==> exists k: nat | k < |candidates| ::
        && candidates[k] == hit.value && candidates[k] !in used
        && forall j | 0 <= j < k :: candidates[j] in used || !Matches(t, vars[candidates[j]])
  {
    hide Matches;
    if candidates != [] {
      var rest := candidates[1..];
      assert forall j | 0 <= j < |rest| :: rest[j] == candidates[j + 1];
      MatchStep(vars, t, candidates, used);
      FirstMatching(vars, t, rest, used);
      hide FirstMatch, Free;
      var hit := FirstMatch(vars, t, Free(candidates, used));
      if hit.Some? && !(candidates[0] !in used && Matches(t, vars[candidates[0]])) {
        var k: nat :| k < |rest| && rest[k] == hit.value && rest[k] !in used
          && forall j | 0 <= j < k :: rest[j] in used || !Matches(t, vars[rest[j]]);
        OneLater(vars, t, candidates, used, k);
      }
    }
  }

  lemma MatchStep(vars: seq<Var>, t: Truth, candidates: seq<nat>, used: set<nat>)
    requires candidates != [] && Within(vars, candidates) && Within(vars, Free(candidates, used))
    ensures Within(vars, candidates[1..]) && Within(vars, Free(candidates[1..], used))
    ensures FirstMatch(vars, t, Free(candidates, used)) ==
      if candidates[0] !in used && Matches(t, vars[candidates[0]]) then Some(candidates[0])
      else FirstMatch(vars, t, Free(candidates[1..], used))
  {
    hide Matches;
    var rest, free := candidates[1..], Free(candidates, used);
    if candidates[0] in used {
      assert free == Free(rest, used);
    } else {
      assert free[0] == candidates[0] && free[1..] == Free(rest, used);
      assert forall j | 0 <= j < |Free(rest, used)| :: Free(rest, used)[j] == free[j + 1];
    }
  }

  lemma OneLater(vars: seq<Var>, t: Truth, candidates: seq<nat>, used: set<nat>, k: nat)
    requires candidates != [] && Within(vars, candidates) && k < |candidates[1..]|
    requires candidates[0] in used || !Matches(t, vars[candidates[0]])
    requires forall j | 0 <= j < k :: candidates[1..][j] in used || !Matches(t, vars[candidates[1..][j]])
    ensures candidates[k + 1] == candidates[1..][k]
    ensures forall j | 0 <= j < k + 1 :: candidates[j] in used || !Matches(t, vars[candidates[j]])
  {
    hide Matches;
    forall j | 0 <= j < k + 1 ensures candidates[j] in used || !Matches(t, vars[candidates[j]]) {
      if j > 0 {
        assert candidates[1..][j - 1] == candidates[j];
      }
    }
  }

  /** claim() takes the first free candidate that fits, or, when none fits, the first free one. */
  lemma ClaimIsFirst(vars: seq<Var>, t: Truth, candidates: seq<nat>, used: set<nat>)
    requires forall i | i in candidates :: i < |vars|
    ensures Within(vars, candidates)
    ensures var r := Claim(vars, t, candidates, used);
      r.Some? ==> exists k: nat :: k < |candidates| && candidates[k] == r.value && First(vars, t, candidates, used, k)
  {
    assert forall j | 0 <= j < |candidates| :: candidates[j] in candidates;
    FirstFree(vars, t, candidates, used);
    FirstMatching(vars, t, candidates, used);
    FreeAre(candidates, used);
    forall v | v in vars ensures Matches(t, v) <==> Fits(t, v) {
      FitsIs(t, v);
    }
    hide Matches, Fits;
    var r, free := Claim(vars, t, candidates, used), Free(candidates, used);
    if r.Some? {
      var hit := FirstMatch(vars, t, free);
      if hit.Some? {
        var k: nat :| k < |candidates| && candidates[k] == hit.value && candidates[k] !in used
          && forall j | 0 <= j < k :: candidates[j] in used || !Matches(t, vars[candidates[j]]);
        assert Fits(t, vars[candidates[k]]);
        assert First(vars, t, candidates, used, k);
      } else {
        var k: nat :| k < |candidates| && candidates[k] == free[0] && forall j | 0 <= j < k :: candidates[j] in used;
        assert free[0] in free;
        assert First(vars, t, candidates, used, k);
      }
    }
  }

  // ---------- who goes first ----------

  /** The variable was taken before ground-truth variable gi had its turn in the pass: in an earlier pass, or in this
      one by an earlier ground-truth variable. */
  ghost predicate TakenBefore(s: Picks, i: nat, pass: Pass, gi: nat) {
    exists g | g in s.of :: s.of[g].variable == i && Before(s.of[g].pass, g, pass, gi)
  }

  predicate Before(p: Pass, g: nat, q: Pass, h: nat) {
    (p == ByArg && q != ByArg) || (p == ByOffset && q == ByName) || (p == q && g < h)
  }

  /** The pick was the first choice: every candidate before it was taken earlier, or did not fit while it does. */
  ghost predicate FirstChoice(p: Problem, s: Picks, gi: nat)
    requires gi in s.of && gi < |p.truths|
  {
    var t, c, pick := p.truths[gi], Candidates(p, p.truths[gi], s.of[gi].pass), s.of[gi];
    && pick.variable < |p.vars|
    && exists k: nat | k < |c| ::
         && c[k] == pick.variable
         && forall j | 0 <= j < k && c[j] < |p.vars| ::
              TakenBefore(s, c[j], pick.pass, gi) || (Fits(t, p.vars[c[k]]) && !Fits(t, p.vars[c[j]]))
  }

  /** It went without in the pass because every candidate was taken earlier. */
  ghost predicate WentWithout(p: Problem, s: Picks, pass: Pass, gi: nat)
    requires gi < |p.truths|
  {
    forall i | i in Candidates(p, p.truths[gi], pass) :: TakenBefore(s, i, pass, gi)
  }

  /** Where the run stands: every pick so far came before this turn, and was a first choice. */
  ghost predicate Ordered(p: Problem, s: Picks, pass: Pass, gi: nat) {
    && (forall g | g in s.of :: g < |p.truths| && s.of[g].variable in s.used && Before(s.of[g].pass, g, pass, gi))
    && (forall i | i in s.used :: exists g | g in s.of :: s.of[g].variable == i)
    && (forall g | g in s.of :: g < |p.truths| && FirstChoice(p, s, g))
  }

  lemma TakenGrows(s: Picks, t: Picks, i: nat, pass: Pass, gi: nat)
    requires Grows(s, t) && TakenBefore(s, i, pass, gi)
    ensures TakenBefore(t, i, pass, gi)
  {
    var g :| g in s.of && s.of[g].variable == i && Before(s.of[g].pass, g, pass, gi);
    assert g in t.of && t.of[g] == s.of[g];
  }

  lemma FirstChoiceGrows(p: Problem, s: Picks, t: Picks, gi: nat)
    requires Grows(s, t) && gi in s.of && gi < |p.truths| && FirstChoice(p, s, gi)
    ensures gi in t.of && FirstChoice(p, t, gi)
  {
    hide Candidates, Fits, TakenBefore;
    var c, pick := Candidates(p, p.truths[gi], s.of[gi].pass), s.of[gi];
    assert gi in t.of && t.of[gi] == pick;
    var k: nat :| k < |c| && c[k] == pick.variable && forall j | 0 <= j < k && c[j] < |p.vars| ::
      TakenBefore(s, c[j], pick.pass, gi) || (Fits(p.truths[gi], p.vars[c[k]]) && !Fits(p.truths[gi], p.vars[c[j]]));
    forall j | 0 <= j < k && c[j] < |p.vars|
      ensures TakenBefore(t, c[j], pick.pass, gi) || (Fits(p.truths[gi], p.vars[c[k]]) && !Fits(p.truths[gi], p.vars[c[j]]))
    {
      if TakenBefore(s, c[j], pick.pass, gi) {
        TakenGrows(s, t, c[j], pick.pass, gi);
      }
    }
  }

  lemma UsedIsTaken(p: Problem, s: Picks, pass: Pass, gi: nat, i: nat)
    requires Ordered(p, s, pass, gi) && i in s.used
    ensures TakenBefore(s, i, pass, gi)
  {
    hide FirstChoice;
    var g :| g in s.of && s.of[g].variable == i;
    assert Before(s.of[g].pass, g, pass, gi);
  }

  lemma NewPick(p: Problem, pass: Pass, gi: nat, s: Picks, i: nat)
    requires gi < |p.truths| && gi !in s.of && Ordered(p, s, pass, gi)
    requires forall j | j in Candidates(p, p.truths[gi], pass) :: j < |p.vars|
    requires Claim(p.vars, p.truths[gi], Candidates(p, p.truths[gi], pass), s.used) == Some(i)
    ensures var t := Picks(s.used + {i}, s.of[gi := Pick(i, pass)]); Grows(s, t) && gi in t.of && FirstChoice(p, t, gi)
  {
    var t := Picks(s.used + {i}, s.of[gi := Pick(i, pass)]);
    var c, truth := Candidates(p, p.truths[gi], pass), p.truths[gi];
    ClaimIsFirst(p.vars, truth, c, s.used);
    hide Candidates, Fits, Claim, Ordered, TakenBefore, FirstChoice;
    NewGrows(p, s, pass, gi, i);
    var k: nat :| k < |c| && c[k] == i && First(p.vars, truth, c, s.used, k);
    assert c[k] in c;
    forall j | 0 <= j < k && c[j] < |p.vars|
      ensures TakenBefore(t, c[j], pass, gi) || (Fits(truth, p.vars[c[k]]) && !Fits(truth, p.vars[c[j]]))
    {
      if c[j] in s.used {
        UsedIsTaken(p, s, pass, gi, c[j]);
        TakenGrows(s, t, c[j], pass, gi);
      }
    }
    ChosenFirst(p, t, gi, k);
  }

  lemma NewGrows(p: Problem, s: Picks, pass: Pass, gi: nat, i: nat)
    requires gi !in s.of
    ensures Grows(s, Picks(s.used + {i}, s.of[gi := Pick(i, pass)]))
  {
  }

  lemma ChosenFirst(p: Problem, s: Picks, gi: nat, k: nat)
    requires gi in s.of && gi < |p.truths| && s.of[gi].variable < |p.vars|
    requires var c := Candidates(p, p.truths[gi], s.of[gi].pass);
      && k < |c| && c[k] == s.of[gi].variable
      && forall j | 0 <= j < k && c[j] < |p.vars| ::
           TakenBefore(s, c[j], s.of[gi].pass, gi) || (Fits(p.truths[gi], p.vars[c[k]]) && !Fits(p.truths[gi], p.vars[c[j]]))
    ensures FirstChoice(p, s, gi)
  {
    hide Candidates, TakenBefore, Fits;
  }

  lemma PickOneOrdered(p: Problem, pass: Pass, gi: nat, s: Picks)
    requires gi < |p.truths| && Ordered(p, s, pass, gi)
    ensures var t := PickOne(p, pass, gi, s);
      && Grows(s, t) && Ordered(p, t, pass, gi + 1)
      && (gi !in t.of ==> WentWithout(p, t, pass, gi))
  {
    CandidatesInRange(p, p.truths[gi], pass);
    var c, truth := Candidates(p, p.truths[gi], pass), p.truths[gi];
    var r := Claim(p.vars, truth, c, s.used);
    var t := PickOne(p, pass, gi, s);
    if gi !in s.of && r.Some? {
      NewPick(p, pass, gi, s, r.value);
    }
    hide Candidates, Fits, Claim, FirstChoice, TakenBefore;
    assert Grows(s, t);
    forall g | g in t.of ensures FirstChoice(p, t, g) {
      if g in s.of {
        FirstChoiceGrows(p, s, t, g);
      }
    }
    if gi !in t.of {
      forall i | i in c ensures TakenBefore(t, i, pass, gi) {
        UsedIsTaken(p, s, pass, gi, i);
      }
    }
    PickedOrder(p, pass, gi, s, t);
  }

  lemma PickedOrder(p: Problem, pass: Pass, gi: nat, s: Picks, t: Picks)
    requires gi < |p.truths| && Ordered(p, s, pass, gi)
    requires t == s || (gi !in s.of && exists i :: t == Picks(s.used + {i}, s.of[gi := Pick(i, pass)]))
    requires forall g | g in t.of :: g < |p.truths| && FirstChoice(p, t, g)
    ensures Ordered(p, t, pass, gi + 1)
  {
    hide FirstChoice;
    if t != s {
      var i :| t == Picks(s.used + {i}, s.of[gi := Pick(i, pass)]);
      forall u | u in t.used ensures exists g | g in t.of :: t.of[g].variable == u {
        if u == i {
          assert t.of[gi].variable == i;
        } else {
          var g :| g in s.of && s.of[g].variable == u;
          assert g in t.of && t.of[g] == s.of[g];
        }
      }
    }
  }

  lemma {:induction false} PickFromOrdered(p: Problem, pass: Pass, gi: nat, s: Picks)
    requires gi <= |p.truths| && Ordered(p, s, pass, gi)
    ensures var t := PickFrom(p, pass, gi, s);
      && Grows(s, t) && Ordered(p, t, pass, |p.truths|)
      && forall g | gi <= g < |p.truths| && g !in t.of :: WentWithout(p, t, pass, g)
    decreases |p.truths| - gi
  {
    hide PickOne, Ordered, WentWithout;
    if gi < |p.truths| {
      var u, t := PickOne(p, pass, gi, s), PickFrom(p, pass, gi, s);
      PickOneOrdered(p, pass, gi, s);
      PickFromOrdered(p, pass, gi + 1, u);
      GrowsTwice(s, u, t);
      if gi !in t.of {
        assert gi !in u.of;
        WithoutGrows(p, u, t, pass, gi);
      }
    }
  }

  lemma WithoutGrows(p: Problem, s: Picks, t: Picks, pass: Pass, gi: nat)
    requires gi < |p.truths| && Grows(s, t) && WentWithout(p, s, pass, gi)
    ensures WentWithout(p, t, pass, gi)
  {
    hide Candidates, TakenBefore;
    forall i | i in Candidates(p, p.truths[gi], pass) ensures TakenBefore(t, i, pass, gi) {
      TakenGrows(s, t, i, pass, gi);
    }
  }

  lemma NextPass(p: Problem, s: Picks, pass: Pass, next: Pass)
    requires Ordered(p, s, pass, |p.truths|) && ((pass == ByArg && next == ByOffset) || (pass == ByOffset && next == ByName))
    ensures Ordered(p, s, next, 0)
  {
    hide FirstChoice;
  }

  /** Main result: each pair was a first choice when its ground-truth variable had its turn, in the order of the passes
      and then of the ground truth; and a variable that is not paired at all went without in every pass. */
  lemma TurnsInOrder(p: Problem)
    ensures var s := Pairs(p);
      && (forall g | g in s.of :: g < |p.truths| && FirstChoice(p, s, g))
      && forall g, pass: Pass | 0 <= g < |p.truths| && g !in s.of :: WentWithout(p, s, pass, g)
  {
    var s0 := Picks({}, map[]);
    assert Ordered(p, s0, ByArg, 0);
    PairsAre(p);
    hide Pairs, PickFrom, Ordered, FirstChoice, WentWithout;
    var s1 := PickFrom(p, ByArg, 0, s0);
    var s2 := PickFrom(p, ByOffset, 0, s1);
    var s3 := PickFrom(p, ByName, 0, s2);
    PickFromOrdered(p, ByArg, 0, s0);
    NextPass(p, s1, ByArg, ByOffset);
    PickFromOrdered(p, ByOffset, 0, s1);
    NextPass(p, s2, ByOffset, ByName);
    PickFromOrdered(p, ByName, 0, s2);
    GrowsTwice(s1, s2, s3);
    OrderedChoices(p, s3);
    forall g, pass: Pass | 0 <= g < |p.truths| && g !in s3.of ensures WentWithout(p, s3, pass, g) {
      match pass
      case ByArg => WithoutGrows(p, s1, s3, pass, g);
      case ByOffset => WithoutGrows(p, s2, s3, pass, g);
      case ByName =>
    }
  }

  lemma OrderedChoices(p: Problem, s: Picks)
    requires Ordered(p, s, ByName, |p.truths|)
    ensures forall g | g in s.of :: g < |p.truths| && FirstChoice(p, s, g)
  {
    hide FirstChoice;
  }
}
