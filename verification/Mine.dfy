/** The stratified greedy picker of scripts/decbench/mine.py: which groups become triage cases. */
module Mine {

  datatype Option<+T> = None | Some(value: T)

  datatype Case = Case(id: string, project: string, opt: string, margin: real, specific: bool, suspect: bool, degenerate: bool)

  /** A dedup group: its representative, its largest margin and the number of optimisation levels it occurs at. */
  datatype Group = Group(id: string, rep: Case, margin: real, opts: nat)

  datatype Tier = L | M | S | A | X

  datatype Pick = Pick(tier: Tier, group: Group)

  function Project(g: Group): string { g.rep.project }

  // ---------- representatives ----------

  /** Python's order of strings. */
  predicate Before(a: string, b: string) {
    b != "" && (a == "" || a[0] < b[0] || (a[0] == b[0] && Before(a[1..], b[1..])))
  }

  predicate Better(a: Case, b: Case) { a.margin > b.margin || (a.margin == b.margin && Before(b.id, a.id)) }

  function Best(cases: seq<Case>): Case
    requires cases != []
  {
    if |cases| == 1 then cases[0]
    else
      var init := Best(cases[..|cases| - 1]);
      var last := cases[|cases| - 1];
      if Better(last, init) then last else init
  }

  const O0: string := "O0"

  function Unoptimised(cases: seq<Case>): seq<Case> {
    if cases == [] then [] else (if cases[0].opt == O0 then [cases[0]] else []) + Unoptimised(cases[1..])
  }

  function PickRepresentative(cases: seq<Case>): Case
    requires cases != []
  {
    var o0 := Unoptimised(cases);
    Best(if o0 != [] then o0 else cases)
  }

  lemma BetterTransitive(a: Case, b: Case, c: Case)
    requires Better(a, b) && Better(b, c)
    ensures Better(a, c)
  {
    if Before(c.id, b.id) && Before(b.id, a.id) {
      BeforeTransitive(c.id, b.id, a.id);
    }
    hide Before;
  }

  lemma {:induction false} BestIsLargest(cases: seq<Case>)
    requires cases != []
    ensures Best(cases) in cases && forall c | c in cases :: !Better(c, Best(cases))
  {
    hide Better;
    if |cases| == 1 {
      NotBetterThanItself(cases[0]);
    } else {
      var last, init := cases[|cases| - 1], cases[..|cases| - 1];
      BestIsLargest(init);
      NotBetterThanItself(last);
      forall c | c in cases ensures !Better(c, Best(cases)) {
        assert c == last || c in init;
        if Better(last, Best(init)) && Better(c, last) {
          BetterTransitive(c, last, Best(init));
        }
      }
    }
  }

  lemma NotBetterThanItself(c: Case)
    ensures !Better(c, c)
  {
    NotBeforeItself(c.id);
  }

  lemma {:induction false} UnoptimisedAre(cases: seq<Case>)
    ensures forall c :: c in Unoptimised(cases) <==> c in cases && c.opt == O0
  {
    if cases != [] {
      UnoptimisedAre(cases[1..]);
    }
  }

  /** The representative is an unoptimised case when there is one; no eligible case has a larger margin, and none of
      the same margin a later id. */
  lemma RepresentativeIs(cases: seq<Case>)
    requires cases != []
    ensures var r := PickRepresentative(cases);
      && r in cases
      && ((exists c | c in cases :: c.opt == O0) ==> r.opt == O0)
      && forall c | c in cases && (c.opt == O0 <==> r.opt == O0) ::
           c.margin <= r.margin && (c.margin == r.margin ==> !Before(r.id, c.id))
  {
    UnoptimisedAre(cases);
    var o0 := Unoptimised(cases);
    if o0 != [] {
      BestIsLargest(o0);
      assert o0[0] in o0;
    } else {
      BestIsLargest(cases);
    }
    hide Before;
    assert forall a: Case, b: Case :: !Better(a, b) <==> a.margin <= b.margin && (a.margin == b.margin ==> !Before(b.id, a.id));
  }

  // ---------- ordered pools ----------

  /** Which tier's order: bucket, margin and id; S prefers groups at several levels, X breaks ties by their number
      unless the metric is structural. */
  predicate Sooner(structural: bool, tier: Tier, a: Group, b: Group) {
    if tier == L && a.rep.specific != b.rep.specific then a.rep.specific
    else if tier == S && (a.opts > 1) != (b.opts > 1) then a.opts > 1
    else if a.margin != b.margin then a.margin > b.margin
    else if tier == X && !structural && a.opts != b.opts then a.opts > b.opts
    else Before(a.id, b.id)
  }

  function Insert(structural: bool, tier: Tier, g: Group, pool: seq<Group>): seq<Group> {
    if pool == [] || Sooner(structural, tier, g, pool[0]) then [g] + pool
    else [pool[0]] + Insert(structural, tier, g, pool[1..])
  }

  predicate InPool(tier: Tier, g: Group) {
    match tier
    case L => g.margin >= 100.0
    case M => 20.0 <= g.margin < 100.0
    case S => 5.0 <= g.margin < 20.0
    case A => g.rep.suspect
    case X => true
  }

  /** The tier's groups in the tier's order. */
  function Pool(structural: bool, tier: Tier, groups: seq<Group>): seq<Group> {
    if groups == [] then []
    else
      var rest := Pool(structural, tier, groups[1..]);
      if InPool(tier, groups[0]) then Insert(structural, tier, groups[0], rest) else rest
  }

  lemma {:induction false} InsertAre(structural: bool, tier: Tier, g: Group, pool: seq<Group>)
    ensures forall h :: h in Insert(structural, tier, g, pool) <==> h == g || h in pool
  {
    if pool != [] && !Sooner(structural, tier, g, pool[0]) {
      InsertAre(structural, tier, g, pool[1..]);
      assert forall h :: h in pool <==> h == pool[0] || h in pool[1..];
    }
  }

  lemma {:induction false} PoolAre(structural: bool, tier: Tier, groups: seq<Group>)
    ensures forall h :: h in Pool(structural, tier, groups) <==> h in groups && InPool(tier, h)
  {
    if groups != [] {
      hide InPool, Sooner;
      PoolAre(structural, tier, groups[1..]);
      InsertAre(structural, tier, groups[0], Pool(structural, tier, groups[1..]));
      assert forall h :: h in groups <==> h == groups[0] || h in groups[1..];
    }
  }

  lemma {:induction false} BeforeTransitive(a: string, b: string, c: string)
    requires Before(a, b) && Before(b, c)
    ensures Before(a, c)
  {
    if a != "" && a[0] == b[0] && b[0] == c[0] {
      BeforeTransitive(a[1..], b[1..], c[1..]);
    }
  }

  lemma SoonerTransitive(structural: bool, tier: Tier, a: Group, b: Group, c: Group)
    requires Sooner(structural, tier, a, b) && Sooner(structural, tier, b, c)
    ensures Sooner(structural, tier, a, c)
  {
    hide Before;
    if Before(a.id, b.id) && Before(b.id, c.id) {
      BeforeTransitive(a.id, b.id, c.id);
    }
  }

  predicate InOrder(structural: bool, tier: Tier, pool: seq<Group>) {
    forall i, j | 0 <= i < j < |pool| :: !Sooner(structural, tier, pool[j], pool[i])
  }

  lemma {:induction false} InsertInOrder(structural: bool, tier: Tier, g: Group, pool: seq<Group>)
    requires InOrder(structural, tier, pool)
    ensures InOrder(structural, tier, Insert(structural, tier, g, pool))
  {
    hide Sooner;
    if pool == [] {
    } else if Sooner(structural, tier, g, pool[0]) {
      forall j | 0 <= j < |pool| ensures !Sooner(structural, tier, pool[j], g) {
        if Sooner(structural, tier, pool[j], g) {
          SoonerTransitive(structural, tier, pool[j], g, pool[0]);
          SoonerIrreflexive(structural, tier, pool[0]);
        }
      }
    } else {
      InsertInOrder(structural, tier, g, pool[1..]);
      InsertAre(structural, tier, g, pool[1..]);
      var r := Insert(structural, tier, g, pool[1..]);
      forall j | 0 <= j < |r| ensures !Sooner(structural, tier, r[j], pool[0]) {
        assert r[j] in r;
        if r[j] != g {
          var k :| 0 <= k < |pool[1..]| && pool[1..][k] == r[j];
          assert pool[k + 1] == r[j];
        }
      }
    }
  }

  lemma {:induction false} NotBeforeItself(s: string)
    ensures !Before(s, s)
  {
    if s != "" {
      NotBeforeItself(s[1..]);
    }
  }

  lemma SoonerIrreflexive(structural: bool, tier: Tier, g: Group)
    ensures !Sooner(structural, tier, g, g)
  {
    NotBeforeItself(g.id);
  }

  /** A pool is gone through in its tier's order: kuna-specific groups first in L, groups at several levels first in S,
      and within these by falling margin. */
  lemma {:induction false} PoolInOrder(structural: bool, tier: Tier, groups: seq<Group>)
    ensures var pool := Pool(structural, tier, groups);
      InOrder(structural, tier, pool) && forall i, j | 0 <= i < j < |pool| ::
        && (tier == L && pool[j].rep.specific ==> pool[i].rep.specific)
        && (tier == S && pool[j].opts > 1 ==> pool[i].opts > 1)
        && (tier == M || tier == A || tier == X ==> pool[i].margin >= pool[j].margin)
  {
    if groups != [] {
      hide InPool;
      PoolInOrder(structural, tier, groups[1..]);
      InsertInOrder(structural, tier, groups[0], Pool(structural, tier, groups[1..]));
    }
    var pool := Pool(structural, tier, groups);
    hide Pool, Before;
    forall i, j | 0 <= i < j < |pool| ensures
      && (tier == L && pool[j].rep.specific ==> pool[i].rep.specific)
      && (tier == S && pool[j].opts > 1 ==> pool[i].opts > 1)
      && (tier == M || tier == A || tier == X ==> pool[i].margin >= pool[j].margin)
    {
      assert !Sooner(structural, tier, pool[j], pool[i]);
    }
  }

  // ---------- counts ----------

  function OfTier(picked: seq<Pick>, tier: Tier): nat {
    if picked == [] then 0 else OfTier(picked[..|picked| - 1], tier) + if picked[|picked| - 1].tier == tier then 1 else 0
  }

  function OfProject(picked: seq<Pick>, project: string): nat {
    if picked == [] then 0
    else OfProject(picked[..|picked| - 1], project) + if Project(picked[|picked| - 1].group) == project then 1 else 0
  }

  function OfBoth(picked: seq<Pick>, tier: Tier, project: string): nat {
    if picked == [] then 0
    else
      var last := picked[|picked| - 1];
      OfBoth(picked[..|picked| - 1], tier, project) + if last.tier == tier && Project(last.group) == project then 1 else 0
  }

  lemma CountsOne(picked: seq<Pick>, p: Pick)
    ensures forall t :: OfTier(picked + [p], t) == OfTier(picked, t) + if p.tier == t then 1 else 0
    ensures forall j :: OfProject(picked + [p], j) == OfProject(picked, j) + if Project(p.group) == j then 1 else 0
    ensures forall t, j :: OfBoth(picked + [p], t, j) == OfBoth(picked, t, j) + if p.tier == t && Project(p.group) == j then 1 else 0
  {
    assert (picked + [p])[..|picked|] == picked;
  }

  lemma {:induction false} PrefixCounts(picked: seq<Pick>, n: nat, tier: Tier, project: string)
    requires n <= |picked|
    ensures OfTier(picked[..n], tier) <= OfTier(picked, tier) && OfProject(picked[..n], project) <= OfProject(picked, project)
  {
    if n < |picked| {
      PrefixCounts(picked[..|picked| - 1], n, tier, project);
      assert picked[..|picked| - 1][..n] == picked[..n];
    } else {
      assert picked[..n] == picked;
    }
  }

  const PER_PROJECT: nat := 4

  function Cap(tier: Tier): Option<nat> {
    match tier
    case L => Some(8)
    case M => Some(10)
    case S => Some(7)
    case A => Some(3)
    case X => None
  }

  predicate Picked(picked: seq<Pick>, id: string) { exists i | 0 <= i < |picked| :: picked[i].group.id == id }

  predicate Distinct(picked: seq<Pick>) { forall i, j | 0 <= i < j < |picked| :: picked[i].group.id != picked[j].group.id }

  /** Nothing can pick g in this tier any more. */
  predicate Blocked(structural: bool, picked: seq<Pick>, tier: Tier, g: Group) {
    || Picked(picked, g.id)
    || OfProject(picked, Project(g)) >= PER_PROJECT
    || (structural && tier != A && g.rep.degenerate)
  }

  ghost predicate Good(structural: bool, picked: seq<Pick>) {
    && Distinct(picked)
    && (forall p :: OfProject(picked, p) <= PER_PROJECT)
    && (forall t | t != X :: OfTier(picked, t) <= Cap(t).value)
    && (structural ==> forall i | 0 <= i < |picked| && picked[i].tier != A :: !picked[i].group.rep.degenerate)
  }

  /** Blocked stays blocked, and what was picked stays picked. */
  lemma {:induction false} BlockedGrows(structural: bool, a: seq<Pick>, b: seq<Pick>, tier: Tier, g: Group)
    requires a <= b && Blocked(structural, a, tier, g)
    ensures Blocked(structural, b, tier, g)
  {
    PrefixCounts(b, |a|, tier, Project(g));
    assert b[..|a|] == a;
    if i :| 0 <= i < |a| && a[i].group.id == g.id {
      assert b[i].group.id == g.id;
    }
  }

  lemma GoodOne(structural: bool, picked: seq<Pick>, g: Group, tier: Tier)
    requires Good(structural, picked) && !Blocked(structural, picked, tier, g)
    requires tier != X ==> OfTier(picked, tier) < Cap(tier).value
    ensures Good(structural, picked + [Pick(tier, g)])
  {
    CountsOne(picked, Pick(tier, g));
    hide OfTier, OfProject, OfBoth;
    var more := picked + [Pick(tier, g)];
    forall i, j | 0 <= i < j < |more| ensures more[i].group.id != more[j].group.id {
      assert more[i] == picked[i];
      assert Picked(picked, g.id) <== picked[i].group.id == g.id;
    }
  }

  lemma {:induction false} GoodPrefix(structural: bool, picked: seq<Pick>, n: nat)
    requires Good(structural, picked) && n <= |picked|
    ensures Good(structural, picked[..n])
  {
    forall p ensures OfProject(picked[..n], p) <= PER_PROJECT {
      PrefixCounts(picked, n, X, p);
    }
    forall t | t != X ensures OfTier(picked[..n], t) <= Cap(t).value {
      PrefixCounts(picked, n, t, "");
    }
    hide OfTier, OfProject;
  }

  // ---------- the picker ----------

  /** Every group of the pool is blocked, unless the tier is full (or, for L and M, its two places for the project are). */
  predicate Spent(structural: bool, picked: seq<Pick>, tier: Tier, pool: seq<Group>) {
    (tier != X && OfTier(picked, tier) >= Cap(tier).value) ||
    forall g | g in pool ::
      Blocked(structural, picked, tier, g) || ((tier == L || tier == M) && OfBoth(picked, tier, Project(g)) >= 2)
  }

  lemma {:induction false} BothPrefix(picked: seq<Pick>, n: nat, tier: Tier, project: string)
    requires n <= |picked|
    ensures OfBoth(picked[..n], tier, project) <= OfBoth(picked, tier, project)
  {
    if n < |picked| {
      BothPrefix(picked[..|picked| - 1], n, tier, project);
      assert picked[..|picked| - 1][..n] == picked[..n];
    } else {
      assert picked[..n] == picked;
    }
  }

  /** A spent tier stays spent. */
  lemma SpentGrows(structural: bool, a: seq<Pick>, b: seq<Pick>, tier: Tier, pool: seq<Group>)
    requires a <= b && Spent(structural, a, tier, pool)
    ensures Spent(structural, b, tier, pool)
  {
    assert b[..|a|] == a;
    PrefixCounts(b, |a|, tier, "");
    forall g | g in pool && Blocked(structural, a, tier, g) ensures Blocked(structural, b, tier, g) {
      BlockedGrows(structural, a, b, tier, g);
    }
    forall g | g in pool ensures OfBoth(a, tier, Project(g)) <= OfBoth(b, tier, Project(g)) {
      BothPrefix(b, |a|, tier, Project(g));
    }
    hide OfTier, OfProject, OfBoth, Blocked;
  }

  /** Only this tier's picks were added, each from its pool. */
  predicate Added(a: seq<Pick>, b: seq<Pick>, tier: Tier, pool: seq<Group>) {
    a <= b && forall i | |a| <= i < |b| :: b[i].tier == tier && b[i].group in pool
  }

  // ---------- what the loops compute ----------

  /** The tier, or for X the queue, has all it may have. */
  predicate Full(picked: seq<Pick>, tier: Tier, want: nat) {
    if tier == X then |picked| >= want else OfTier(picked, tier) >= Cap(tier).value
  }

  /** Blocked, or in L and M one of a project with two places in the tier. */
  predicate Held(structural: bool, picked: seq<Pick>, tier: Tier, g: Group) {
    Blocked(structural, picked, tier, g) || ((tier == L || tier == M) && OfBoth(picked, tier, Project(g)) >= 2)
  }

  /** The picks of a tier that goes through its pool in order. */
  function Greedy(structural: bool, picked: seq<Pick>, tier: Tier, pool: seq<Group>, want: nat): seq<Pick>
    decreases |pool|
  {
    if pool == [] || Full(picked, tier, want) then picked
    else
      var more := if Held(structural, picked, tier, pool[0]) then picked else picked + [Pick(tier, pool[0])];
      Greedy(structural, more, tier, pool[1..], want)
  }

  lemma GreedyStep(structural: bool, picked: seq<Pick>, tier: Tier, pool: seq<Group>, i: nat, want: nat)
    requires i <= |pool|
    ensures Greedy(structural, picked, tier, pool[i..], want) ==
      if i == |pool| || Full(picked, tier, want) then picked
      else if Held(structural, picked, tier, pool[i]) then Greedy(structural, picked, tier, pool[i + 1..], want)
      else Greedy(structural, picked + [Pick(tier, pool[i])], tier, pool[i + 1..], want)
  {
    hide Full, Held;
    if i < |pool| {
      assert pool[i..][1..] == pool[i + 1..];
    }
  }

  /** One project's turn: the picks after it and what is left of its queue. */
  function Turn(structural: bool, picked: seq<Pick>, queue: seq<Group>): (r: (seq<Pick>, seq<Group>))
    ensures |r.1| <= |queue| && (queue != [] ==> |r.1| < |queue|) && (queue == [] ==> r.0 == picked)
  {
    if queue == [] then (picked, queue)
    else if Blocked(structural, picked, S, queue[0]) then Turn(structural, picked, queue[1..])
    else (picked + [Pick(S, queue[0])], queue[1..])
  }

  lemma TurnStep(structural: bool, picked: seq<Pick>, queue: seq<Group>, i: nat)
    requires i <= |queue|
    ensures Turn(structural, picked, queue[i..]) ==
      if i == |queue| then (picked, queue[i..])
      else if Blocked(structural, picked, S, queue[i]) then Turn(structural, picked, queue[i + 1..])
      else (picked + [Pick(S, queue[i])], queue[i + 1..])
  {
    hide Blocked;
    if i < |queue| {
      assert queue[i..][1..] == queue[i + 1..];
    }
  }

  /** Every project's turn, until the tier is full. */
  function Round(structural: bool, picked: seq<Pick>, queues: seq<seq<Group>>): (r: (seq<Pick>, seq<seq<Group>>))
    ensures |r.1| == |queues|
    decreases |queues|
  {
    if queues == [] || Full(picked, S, 0) then (picked, queues)
    else
      var turn := Turn(structural, picked, queues[0]);
      var rest := Round(structural, turn.0, queues[1..]);
      (rest.0, [turn.1] + rest.1)
  }

  function Waiting(queues: seq<seq<Group>>): nat { if queues == [] then 0 else |queues[0]| + Waiting(queues[1..]) }

  predicate AllTried(queues: seq<seq<Group>>) { forall k | 0 <= k < |queues| :: queues[k] == [] }

  lemma {:induction false} RoundLess(structural: bool, picked: seq<Pick>, queues: seq<seq<Group>>)
    ensures var rest := Round(structural, picked, queues).1;
      Waiting(rest) <= Waiting(queues) && (!Full(picked, S, 0) && !AllTried(queues) ==> Waiting(rest) < Waiting(queues))
    decreases |queues|
  {
    hide Full, Turn;
    if queues != [] && !Full(picked, S, 0) {
      var turn := Turn(structural, picked, queues[0]);
      RoundLess(structural, turn.0, queues[1..]);
      assert ([turn.1] + Round(structural, turn.0, queues[1..]).1)[1..] == Round(structural, turn.0, queues[1..]).1;
    }
  }

  /** Tier S: rounds until it is full or every group has had its turn. */
  function RoundRobin(structural: bool, picked: seq<Pick>, queues: seq<seq<Group>>): seq<Pick>
    decreases Waiting(queues)
  {
    if Full(picked, S, 0) || AllTried(queues) then picked
    else
      var r := Round(structural, picked, queues);
      RoundLess(structural, picked, queues);
      RoundRobin(structural, r.0, r.1)
  }

  lemma RoundRobinStep(structural: bool, picked: seq<Pick>, queues: seq<seq<Group>>)
    ensures RoundRobin(structural, picked, queues) ==
      if Full(picked, S, 0) || AllTried(queues) then picked
      else RoundRobin(structural, Round(structural, picked, queues).0, Round(structural, picked, queues).1)
  {
    hide Full, AllTried, Round, Waiting;
  }

  lemma FullIs(picked: seq<Pick>)
    ensures Full(picked, S, 0) <==> OfTier(picked, S) >= 7
  {
    hide OfTier;
  }

  lemma CapOfS()
    ensures Cap(S) == Some(7)
  {
  }

  /** A round that has come to queue k; the queues before it are those left over. */
  function RoundFrom(structural: bool, picked: seq<Pick>, queues: seq<seq<Group>>, k: nat): (seq<Pick>, seq<seq<Group>>)
    requires k <= |queues|
  {
    var r := Round(structural, picked, queues[k..]);
    (r.0, queues[..k] + r.1)
  }

  lemma RoundStart(structural: bool, picked: seq<Pick>, queues: seq<seq<Group>>)
    ensures RoundFrom(structural, picked, queues, 0) == Round(structural, picked, queues)
  {
    hide Round;
    var r := Round(structural, picked, queues);
    assert queues[0..] == queues && queues[..0] + r.1 == r.1;
  }

  lemma RoundStep(structural: bool, picked: seq<Pick>, queues: seq<seq<Group>>, k: nat)
    requires k <= |queues|
    ensures k == |queues| || Full(picked, S, 0) ==> RoundFrom(structural, picked, queues, k) == (picked, queues)
    ensures k < |queues| && !Full(picked, S, 0) ==>
      var turn := Turn(structural, picked, queues[k]);
      && RoundFrom(structural, picked, queues, k) == RoundFrom(structural, turn.0, queues[k := turn.1], k + 1)
      && (queues[k] == [] ==> turn.0 == picked && queues[k := turn.1] == queues)
  {
    hide Full, Turn;
    assert queues[..k] + queues[k..] == queues;
    if k < |queues| && !Full(picked, S, 0) {
      var turn := Turn(structural, picked, queues[k]);
      var next := queues[k := turn.1];
      assert queues[k..][1..] == queues[k + 1..] && next[k + 1..] == queues[k + 1..];
      assert next[..k + 1] == queues[..k] + [turn.1];
      var rest := Round(structural, turn.0, queues[k + 1..]);
      assert queues[..k] + ([turn.1] + rest.1) == next[..k + 1] + rest.1;
      assert queues[k] == [] ==> turn.1 == queues[k] && next == queues;
    }
  }

  lemma RestAt(queues: seq<seq<Group>>, ptr: seq<nat>, k: nat, next: nat)
    requires Within(queues, ptr) && k < |queues| && next <= |queues[k]|
    ensures |Rest(queues, ptr)| == |queues| && Rest(queues, ptr)[k] == queues[k][ptr[k]..]
    ensures Within(queues, ptr[k := next]) && Rest(queues, ptr[k := next]) == Rest(queues, ptr)[k := queues[k][next..]]
  {
  }

  lemma RestStart(queues: seq<seq<Group>>, ptr: seq<nat>)
    requires |ptr| == |queues| && forall k | 0 <= k < |ptr| :: ptr[k] == 0
    ensures Rest(queues, ptr) == queues
  {
    assert forall k | 0 <= k < |queues| :: queues[k][0..] == queues[k];
  }

  lemma RestTried(queues: seq<seq<Group>>, ptr: seq<nat>)
    requires Within(queues, ptr)
    ensures AllTried(Rest(queues, ptr)) <==> forall k | 0 <= k < |queues| :: ptr[k] == |queues[k]|
  {
    var r := Rest(queues, ptr);
    forall k | 0 <= k < |queues| ensures r[k] == [] <==> ptr[k] == |queues[k]| {
      assert |r[k]| == |queues[k]| - ptr[k];
    }
  }

  /** What is left of the queues. */
  function Rest(queues: seq<seq<Group>>, ptr: seq<nat>): (r: seq<seq<Group>>)
    requires Within(queues, ptr)
    ensures |r| == |queues|
  {
    seq(|queues|, k requires 0 <= k < |queues| => queues[k][ptr[k]..])
  }

  /** All tiers one after the other. */
  function Selection(structural: bool, groups: seq<Group>, want: nat): seq<Pick> {
    var l := Greedy(structural, [], L, Pool(structural, L, groups), 0);
    var m := Greedy(structural, l, M, Pool(structural, M, groups), 0);
    var s := RoundRobin(structural, m, Queues(Pool(structural, S, groups)));
    var a := Greedy(structural, s, A, Pool(structural, A, groups), 0);
    Greedy(structural, a, X, Pool(structural, X, groups), want)
  }

  class Picker {
    const structural: bool
    var picked: seq<Pick>
    var perProject: map<string, nat>

    ghost predicate Valid()
      reads this
    {
      Good(structural, picked) && forall p :: OfProject(picked, p) == if p in perProject then perProject[p] else 0
    }

    constructor (s: bool)
      ensures Valid() && picked == [] && structural == s
    {
      structural, picked, perProject := s, [], map[];
    }

    method Take(g: Group, tier: Tier) returns (taken: bool)
      requires Valid() && (tier != X ==> OfTier(picked, tier) < Cap(tier).value)
      modifies this
      ensures Valid() && taken == !Blocked(structural, old(picked), tier, g)
      ensures picked == if taken then old(picked) + [Pick(tier, g)] else old(picked)
    {
      hide OfTier, OfProject, Good;
      var project := Project(g);
      var n := if project in perProject then perProject[project] else 0;
      if n >= PER_PROJECT || Picked(picked, g.id) {
        return false;
      }
      if structural && tier != A && g.rep.degenerate {
        return false;
      }
      GoodOne(structural, picked, g, tier);
      CountsOne(picked, Pick(tier, g));
      picked := picked + [Pick(tier, g)];
      perProject := perProject[project := n + 1];
      return true;
    }

    method CountTier(tier: Tier) returns (n: nat)
      ensures n == OfTier(picked, tier)
    {
      n := 0;
      for i := 0 to |picked|
        invariant n == OfTier(picked[..i], tier)
      {
        assert picked[..i + 1][..i] == picked[..i];
        if picked[i].tier == tier {
          n := n + 1;
        }
      }
      assert picked[..|picked|] == picked;
    }

    /** Tiers L and M: at most two of a project within the tier. */
    method PickSpread(tier: Tier, pool: seq<Group>)
      requires Valid() && (tier == L || tier == M) && OfTier(picked, tier) == 0 && forall p :: OfBoth(picked, tier, p) == 0
      modifies this
      ensures Valid() && Added(old(picked), picked, tier, pool) && Spent(structural, picked, tier, pool)
      ensures forall p :: OfBoth(picked, tier, p) <= 2
      ensures picked == Greedy(structural, old(picked), tier, pool, 0)
    {
      hide OfTier, OfProject, OfBoth, Good, Blocked, Greedy;
      var tierProject: map<string, nat> := map[];
      assert pool[0..] == pool;
      for i := 0 to |pool|
        invariant Valid() && Added(old(picked), picked, tier, pool)
        invariant Greedy(structural, picked, tier, pool[i..], 0) == Greedy(structural, old(picked), tier, pool, 0)
        invariant forall p :: OfBoth(picked, tier, p) == (if p in tierProject then tierProject[p] else 0) <= 2
        invariant forall j | 0 <= j < i :: Blocked(structural, picked, tier, pool[j]) || OfBoth(picked, tier, Project(pool[j])) >= 2
      {
        var g := pool[i];
        GreedyStep(structural, picked, tier, pool, i, 0);
        var full := CountTier(tier);
        if full >= Cap(tier).value {
          break;
        }
        var n := if Project(g) in tierProject then tierProject[Project(g)] else 0;
        if n >= 2 {
          continue;
        }
        ghost var before := picked;
        var taken := Take(g, tier);
        if taken {
          tierProject := tierProject[Project(g) := n + 1];
          CountsOne(before, Pick(tier, g));
          TakenIsBlocked(structural, before, tier, g);
          forall j | 0 <= j < i && Blocked(structural, before, tier, pool[j]) ensures Blocked(structural, picked, tier, pool[j]) {
            BlockedGrows(structural, before, picked, tier, pool[j]);
          }
        }
      }
      GreedyStep(structural, picked, tier, pool, |pool|, 0);
    }

    /** Tiers A and X: in order, up to the cap or to the wanted size. */
    method PickInOrder(tier: Tier, pool: seq<Group>, want: Option<nat>)
      requires Valid() && ((tier == A && want.None?) || (tier == X && want.Some?))
      modifies this
      ensures Valid() && Added(old(picked), picked, tier, pool)
      ensures tier == A ==> Spent(structural, picked, tier, pool)
      ensures tier == X ==> |picked| >= want.value || Spent(structural, picked, tier, pool)
      ensures picked == Greedy(structural, old(picked), tier, pool, if want.Some? then want.value else 0)
    {
      hide OfTier, OfProject, OfBoth, Good, Blocked, Greedy;
      ghost var limit := if want.Some? then want.value else 0;
      assert pool[0..] == pool;
      for i := 0 to |pool|
        invariant Valid() && Added(old(picked), picked, tier, pool)
        invariant Greedy(structural, picked, tier, pool[i..], limit) == Greedy(structural, old(picked), tier, pool, limit)
        invariant forall j | 0 <= j < i :: Blocked(structural, picked, tier, pool[j])
      {
        var g := pool[i];
        GreedyStep(structural, picked, tier, pool, i, limit);
        var full := CountTier(tier);
        if if tier == A then full >= Cap(tier).value else |picked| >= want.value {
          break;
        }
        ghost var before := picked;
        var taken := Take(g, tier);
        if taken {
          TakenIsBlocked(structural, before, tier, g);
          forall j | 0 <= j < i ensures Blocked(structural, picked, tier, pool[j]) {
            BlockedGrows(structural, before, picked, tier, pool[j]);
          }
        }
      }
      GreedyStep(structural, picked, tier, pool, |pool|, limit);
    }

    /** One project's turn: its next groups up to the first that is taken. */
    method OneTurn(queue: seq<Group>, at: nat) returns (next: nat)
      requires Valid() && OfTier(picked, S) < 7 && at < |queue|
      modifies this
      ensures Valid() && at < next <= |queue| && old(picked) <= picked
      ensures forall i | |old(picked)| <= i < |picked| :: picked[i].tier == S && picked[i].group in queue
      ensures forall j | at <= j < next :: Blocked(structural, picked, S, queue[j])
      ensures Turn(structural, old(picked), queue[at..]) == (picked, queue[next..])
    {
      hide OfTier, OfProject, OfBoth, Good, Blocked, Turn;
      next := at;
      var taken := false;
      while next < |queue| && !taken
        invariant at <= next <= |queue| && Valid() && (next == at ==> !taken)
        invariant !taken ==> picked == old(picked)
        invariant taken ==> next > at && picked == old(picked) + [Pick(S, queue[next - 1])]
        invariant forall j | at <= j < next :: Blocked(structural, picked, S, queue[j])
        invariant Turn(structural, old(picked), queue[at..])
               == if taken then (picked, queue[next..]) else Turn(structural, picked, queue[next..])
        decreases |queue| - next
      {
        ghost var before := picked;
        TurnStep(structural, picked, queue, next);
        var g := queue[next];
        next := next + 1;
        taken := Take(g, S);
        if taken {
          TakenIsBlocked(structural, before, S, g);
          forall j | at <= j < next - 1 ensures Blocked(structural, picked, S, queue[j]) {
            BlockedGrows(structural, before, picked, S, queue[j]);
          }
        }
      }
      if !taken {
        TurnStep(structural, picked, queue, next);
      }
    }

    /** Every project in turn, until the tier is full. */
    method OneRound(queues: seq<seq<Group>>, ptr0: seq<nat>) returns (ptr: seq<nat>)
      requires Valid() && OfTier(picked, S) < 7 && Within(queues, ptr0) && Tried(structural, picked, queues, ptr0)
      requires exists k :: 0 <= k < |queues| && ptr0[k] < |queues[k]|
      modifies this
      ensures Valid() && Within(queues, ptr) && Tried(structural, picked, queues, ptr)
      ensures FromQueues(old(picked), picked, queues) && Left(queues, ptr) < Left(queues, ptr0)
      ensures Round(structural, old(picked), Rest(queues, ptr0)) == (picked, Rest(queues, ptr))
    {
      hide OfTier, OfProject, OfBoth, Good, Blocked, Tried, Left, LeftFrom, Round, Turn, Rest;
      ptr := ptr0;
      RoundStart(structural, picked, Rest(queues, ptr0));
      for k := 0 to |queues|
        invariant Valid() && Within(queues, ptr) && Tried(structural, picked, queues, ptr)
        invariant FromQueues(old(picked), picked, queues)
        invariant Left(queues, ptr) <= Left(queues, ptr0)
        invariant Left(queues, ptr) == Left(queues, ptr0) ==>
          ptr == ptr0 && picked == old(picked) && forall m | 0 <= m < k :: ptr0[m] == |queues[m]|
        invariant forall m | k <= m < |queues| :: ptr[m] == ptr0[m]
        invariant RoundFrom(structural, picked, Rest(queues, ptr), k) == Round(structural, old(picked), Rest(queues, ptr0))
      {
        RoundStep(structural, picked, Rest(queues, ptr), k);
        RestAt(queues, ptr, k, ptr[k]);
        var full := CountTier(S);
        if full >= 7 {
          break;
        }
        if ptr[k] < |queues[k]| {
          ghost var before := picked;
          var next := OneTurn(queues[k], ptr[k]);
          RestAt(queues, ptr, k, next);
          TriedMore(structural, before, picked, queues, ptr, k, next);
          LeftLess(queues, ptr, k, next);
          ptr := ptr[k := next];
        }
      }
      RoundStep(structural, picked, Rest(queues, ptr), |queues|);
    }

    /** Tier S: round robin over the projects. */
    method PickRoundRobin(queues: seq<seq<Group>>, pool: seq<Group>)
      requires Valid() && forall g :: g in pool <==> Queued(queues, g)
      modifies this
      ensures Valid() && Added(old(picked), picked, S, pool) && Spent(structural, picked, S, pool)
      ensures picked == RoundRobin(structural, old(picked), queues)
    {
      hide OfTier, OfProject, OfBoth, Good, Blocked, Left, LeftFrom, Round, RoundRobin, Waiting, Rest, AllTried, Cap;
      var ptr: seq<nat> := seq(|queues|, _ => 0);
      RestStart(queues, ptr);
      FullIs(picked);
      var full := CountTier(S);
      while full < 7 && exists k | 0 <= k < |queues| :: ptr[k] < |queues[k]|
        invariant Valid() && Within(queues, ptr) && Tried(structural, picked, queues, ptr)
        invariant FromQueues(old(picked), picked, queues) && full == OfTier(picked, S)
        invariant RoundRobin(structural, picked, Rest(queues, ptr)) == RoundRobin(structural, old(picked), queues)
        decreases Left(queues, ptr)
      {
        ghost var before := picked;
        RestTried(queues, ptr);
        FullIs(picked);
        RoundRobinStep(structural, picked, Rest(queues, ptr));
        ptr := OneRound(queues, ptr);
        FromQueuesTwice(old(picked), before, picked, queues);
        full := CountTier(S);
      }
      RestTried(queues, ptr);
      FullIs(picked);
      RoundRobinStep(structural, picked, Rest(queues, ptr));
      CapOfS();
      if full < 7 {
        forall g | g in pool ensures Blocked(structural, picked, S, g) {
          var k :| 0 <= k < |queues| && g in queues[k];
          var j :| 0 <= j < |queues[k]| && queues[k][j] == g;
        }
      }
    }
  }

  /** Each project's place is in its queue. */
  predicate Within(queues: seq<seq<Group>>, ptr: seq<nat>) {
    |ptr| == |queues| && forall k | 0 <= k < |queues| :: ptr[k] <= |queues[k]|
  }

  /** Every group before its project's place has been tried. */
  predicate Tried(structural: bool, picked: seq<Pick>, queues: seq<seq<Group>>, ptr: seq<nat>)
    requires Within(queues, ptr)
  {
    forall k, j | 0 <= k < |queues| && 0 <= j < ptr[k] :: Blocked(structural, picked, S, queues[k][j])
  }

  predicate Queued(queues: seq<seq<Group>>, g: Group) { exists k :: 0 <= k < |queues| && g in queues[k] }

  predicate FromQueues(a: seq<Pick>, b: seq<Pick>, queues: seq<seq<Group>>) {
    a <= b && forall i | |a| <= i < |b| :: b[i].tier == S && Queued(queues, b[i].group)
  }

  lemma FromQueuesTwice(a: seq<Pick>, b: seq<Pick>, c: seq<Pick>, queues: seq<seq<Group>>)
    requires FromQueues(a, b, queues) && FromQueues(b, c, queues)
    ensures FromQueues(a, c, queues)
  {
    hide Queued;
    forall i | |a| <= i < |c| ensures c[i].tier == S && Queued(queues, c[i].group) {
      if i < |b| {
        assert c[i] == b[i];
      }
    }
  }

  lemma TriedMore(structural: bool, a: seq<Pick>, b: seq<Pick>, queues: seq<seq<Group>>, ptr: seq<nat>, k: nat, next: nat)
    requires Within(queues, ptr) && k < |queues| && ptr[k] <= next <= |queues[k]|
    requires a <= b && Tried(structural, a, queues, ptr)
    requires forall j | ptr[k] <= j < next :: Blocked(structural, b, S, queues[k][j])
    ensures Tried(structural, b, queues, ptr[k := next])
  {
    hide Blocked;
    var more := ptr[k := next];
    forall m, j | 0 <= m < |queues| && 0 <= j < more[m] ensures Blocked(structural, b, S, queues[m][j]) {
      if m != k || j < ptr[k] {
        assert Blocked(structural, a, S, queues[m][j]);
        BlockedGrows(structural, a, b, S, queues[m][j]);
      }
    }
  }

  /** How many groups of the first n projects are still to be tried. */
  function LeftFrom(queues: seq<seq<Group>>, ptr: seq<nat>, n: nat): nat
    requires Within(queues, ptr) && n <= |queues|
  {
    if n == 0 then 0 else LeftFrom(queues, ptr, n - 1) + |queues[n - 1]| - ptr[n - 1]
  }

  function Left(queues: seq<seq<Group>>, ptr: seq<nat>): nat
    requires Within(queues, ptr)
  {
    LeftFrom(queues, ptr, |queues|)
  }

  lemma {:induction false} LeftFromLess(queues: seq<seq<Group>>, ptr: seq<nat>, k: nat, next: nat, n: nat)
    requires Within(queues, ptr) && k < |queues| && n <= |queues| && ptr[k] < next <= |queues[k]|
    ensures Within(queues, ptr[k := next])
    ensures LeftFrom(queues, ptr[k := next], n) == LeftFrom(queues, ptr, n) - if k < n then next - ptr[k] else 0
  {
    if n > 0 {
      LeftFromLess(queues, ptr, k, next, n - 1);
    }
  }

  lemma LeftLess(queues: seq<seq<Group>>, ptr: seq<nat>, k: nat, next: nat)
    requires Within(queues, ptr) && k < |queues| && ptr[k] < next <= |queues[k]|
    ensures Within(queues, ptr[k := next]) && Left(queues, ptr[k := next]) < Left(queues, ptr)
  {
    LeftFromLess(queues, ptr, k, next, |queues|);
  }

  lemma TakenIsBlocked(structural: bool, picked: seq<Pick>, tier: Tier, g: Group)
    ensures Blocked(structural, picked + [Pick(tier, g)], tier, g)
  {
    assert (picked + [Pick(tier, g)])[|picked|].group.id == g.id;
  }

  // ---------- the projects of tier S ----------

  function OfOneProject(pool: seq<Group>, project: string): seq<Group> {
    if pool == [] then []
    else (if Project(pool[0]) == project then [pool[0]] else []) + OfOneProject(pool[1..], project)
  }

  function Projects(pool: seq<Group>): seq<string> {
    if pool == [] then []
    else
      var rest := Projects(pool[1..]);
      if Project(pool[0]) in rest then rest else [Project(pool[0])] + rest
  }

  /** The project with more groups first, then by name. */
  predicate Earlier(pool: seq<Group>, a: string, b: string) {
    |OfOneProject(pool, a)| > |OfOneProject(pool, b)| || (|OfOneProject(pool, a)| == |OfOneProject(pool, b)| && Before(a, b))
  }

  function InsertName(pool: seq<Group>, name: string, names: seq<string>): seq<string> {
    if names == [] || Earlier(pool, name, names[0]) then [name] + names
    else [names[0]] + InsertName(pool, name, names[1..])
  }

  function SortNames(pool: seq<Group>, names: seq<string>): seq<string> {
    if names == [] then [] else InsertName(pool, names[0], SortNames(pool, names[1..]))
  }

  function Queues(pool: seq<Group>): seq<seq<Group>> {
    var names := SortNames(pool, Projects(pool));
    seq(|names|, i requires 0 <= i < |names| => OfOneProject(pool, names[i]))
  }

  lemma {:induction false} OfOneProjectAre(pool: seq<Group>, project: string)
    ensures forall g :: g in OfOneProject(pool, project) <==> g in pool && Project(g) == project
  {
    if pool != [] {
      OfOneProjectAre(pool[1..], project);
      assert forall g :: g in pool <==> g == pool[0] || g in pool[1..];
    }
  }

  lemma {:induction false} ProjectsAre(pool: seq<Group>)
    ensures forall g | g in pool :: Project(g) in Projects(pool)
  {
    if pool != [] {
      ProjectsAre(pool[1..]);
      assert forall g | g in pool :: g == pool[0] || g in pool[1..];
    }
  }

  lemma {:induction false} InsertNameAre(pool: seq<Group>, name: string, names: seq<string>)
    ensures forall n :: n in InsertName(pool, name, names) <==> n == name || n in names
  {
    hide Earlier;
    if names != [] && !Earlier(pool, name, names[0]) {
      InsertNameAre(pool, name, names[1..]);
      assert forall n :: n in names <==> n == names[0] || n in names[1..];
    }
  }

  lemma {:induction false} SortNamesAre(pool: seq<Group>, names: seq<string>)
    ensures forall n :: n in SortNames(pool, names) <==> n in names
  {
    if names != [] {
      SortNamesAre(pool, names[1..]);
      InsertNameAre(pool, names[0], SortNames(pool, names[1..]));
      assert forall n :: n in names <==> n == names[0] || n in names[1..];
    }
  }

  /** The queues hold exactly the groups of the pool. */
  lemma QueuesAre(pool: seq<Group>)
    ensures forall g :: g in pool <==> Queued(Queues(pool), g)
  {
    hide SortNames, Projects, OfOneProject;
    var names := SortNames(pool, Projects(pool));
    ProjectsAre(pool);
    SortNamesAre(pool, Projects(pool));
    forall g | g in pool ensures Queued(Queues(pool), g) {
      var k :| 0 <= k < |names| && names[k] == Project(g);
      OfOneProjectAre(pool, names[k]);
      assert g in Queues(pool)[k];
    }
    forall k | 0 <= k < |names| ensures forall g | g in Queues(pool)[k] :: g in pool {
      OfOneProjectAre(pool, names[k]);
    }
  }

  // ---------- the whole queue ----------

  /** What the picks are worth: all the rules hold, every tier went on until it was full or nothing was left to
      pick, and so did the top-up. */
  ghost predicate Complete(structural: bool, groups: seq<Group>, picked: seq<Pick>, want: nat) {
    && Good(structural, picked)
    && (forall i | 0 <= i < |picked| :: picked[i].group in groups && InPool(picked[i].tier, picked[i].group))
    && (forall t | t != X :: Spent(structural, picked, t, Pool(structural, t, groups)))
    && (|picked| >= want || Spent(structural, picked, X, groups))
  }

  method SelectAll(structural: bool, groups: seq<Group>, want: nat) returns (picked: seq<Pick>)
    ensures Complete(structural, groups, picked, want) && picked == Selection(structural, groups, want)
  {
    hide Greedy, RoundRobin, OfTier, OfProject, OfBoth, Good, Blocked, Spent, Pool, Queues, InPool, Cap;
    var p := new Picker(structural);
    var l, m, s := Pool(structural, L, groups), Pool(structural, M, groups), Pool(structural, S, groups);
    var a, x := Pool(structural, A, groups), Pool(structural, X, groups);
    NothingCounted();
    p.PickSpread(L, l);
    ghost var afterL := p.picked;
    NoneOfTier([], afterL, L, l, M);
    p.PickSpread(M, m);
    ghost var afterM := p.picked;
    QueuesAre(s);
    p.PickRoundRobin(Queues(s), s);
    ghost var afterS := p.picked;
    p.PickInOrder(A, a, None);
    ghost var afterA := p.picked;
    p.PickInOrder(X, x, Some(want));
    picked := p.picked;
    SpentGrows(structural, afterL, picked, L, l);
    SpentGrows(structural, afterM, picked, M, m);
    SpentGrows(structural, afterS, picked, S, s);
    SpentGrows(structural, afterA, picked, A, a);
    AddedFrom(structural, groups, [], afterL, L);
    AddedFrom(structural, groups, afterL, afterM, M);
    AddedFrom(structural, groups, afterM, afterS, S);
    AddedFrom(structural, groups, afterS, afterA, A);
    AddedFrom(structural, groups, afterA, picked, X);
    if |picked| < want {
      AllInX(structural, groups, picked);
    }
    forall t: Tier | t != X ensures Spent(structural, picked, t, Pool(structural, t, groups)) {
      match t {
        case L =>
        case M =>
        case S =>
        case A =>
      }
    }
  }

  lemma NothingCounted()
    ensures forall t :: OfTier([], t) == 0
    ensures forall t, p :: OfBoth([], t, p) == 0
  {
  }

  lemma {:induction false} NoneOfTier(a: seq<Pick>, b: seq<Pick>, tier: Tier, pool: seq<Group>, other: Tier)
    requires Added(a, b, tier, pool) && other != tier && OfTier(a, other) == 0 && forall p :: OfBoth(a, other, p) == 0
    ensures OfTier(b, other) == 0 && forall p :: OfBoth(b, other, p) == 0
    decreases |b|
  {
    if |b| == |a| {
      assert b == a;
    } else {
      var init, last := b[..|b| - 1], b[|b| - 1];
      assert b == init + [last];
      assert Added(a, init, tier, pool);
      NoneOfTier(a, init, tier, pool, other);
      CountsOne(init, last);
      hide OfTier, OfBoth;
    }
  }

  lemma AddedFrom(structural: bool, groups: seq<Group>, a: seq<Pick>, b: seq<Pick>, tier: Tier)
    requires Added(a, b, tier, Pool(structural, tier, groups))
    requires forall i | 0 <= i < |a| :: a[i].group in groups && InPool(a[i].tier, a[i].group)
    ensures forall i | 0 <= i < |b| :: b[i].group in groups && InPool(b[i].tier, b[i].group)
  {
    PoolAre(structural, tier, groups);
    hide Pool, InPool;
    forall i | 0 <= i < |b| ensures b[i].group in groups && InPool(b[i].tier, b[i].group) {
      if i < |a| {
        assert b[i] == a[i];
      }
    }
  }

  lemma AllInX(structural: bool, groups: seq<Group>, picked: seq<Pick>)
    requires Spent(structural, picked, X, Pool(structural, X, groups))
    ensures Spent(structural, picked, X, groups)
  {
    PoolAre(structural, X, groups);
    hide Pool, Blocked;
  }

  /** Main result: the queue has distinct groups, at most four of a project, at most 8, 10, 7 and 3 of the tiers
      L, M, S and A, no degenerate source outside tier A on a structural metric, and at most want entries; and
      if it has fewer, every group left out is held back by its project's cap or, on a structural metric, by a
      degenerate source. */
  method SelectQueue(structural: bool, groups: seq<Group>, want: nat) returns (queue: seq<Pick>)
    ensures var all := Selection(structural, groups, want); queue == all[..if want < |all| then want else |all|]
    ensures Good(structural, queue) && |queue| <= want
    ensures forall i | 0 <= i < |queue| :: queue[i].group in groups && InPool(queue[i].tier, queue[i].group)
    ensures |queue| < want ==> (
      && Complete(structural, groups, queue, want)
      && forall g | g in groups && !Picked(queue, g.id) ::
        OfProject(queue, Project(g)) >= PER_PROJECT || (structural && g.rep.degenerate))
  {
    hide OfProject, OfTier, OfBoth, Pool, InPool, Picked, Selection;
    var picked := SelectAll(structural, groups, want);
    queue := if want < |picked| then picked[..want] else picked;
    GoodPrefix(structural, picked, |queue|);
    assert picked[..|picked|] == picked;
    hide Good;
  }
}
