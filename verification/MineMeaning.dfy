/** What the picker of scripts/decbench/mine.py takes next, in literal terms: which groups each tier goes through and in
    which order, when a group is held back, that the first group that is not held back is taken, when a tier is full,
    and in which order the projects of tier S have their turns. */
module MineMeaning {
  import opened Mine

  // ---------- the order of names ----------

  /** a and b agree up to some place, where a ends or has the smaller character. */
  ghost predicate Precedes(a: string, b: string) {
    exists n: nat :: n <= |a| && n < |b| && a[..n] == b[..n] && (n == |a| || a[n] < b[n])
  }

  lemma {:induction false} BeforeIs(a: string, b: string)
    ensures Before(a, b) <==> Precedes(a, b)
  {
    if a != "" && b != "" {
      BeforeIs(a[1..], b[1..]);
      if a[0] < b[0] {
        assert a[..0] == b[..0];
      } else if Before(a, b) {
        var n: nat :| n <= |a[1..]| && n < |b[1..]| && a[1..][..n] == b[1..][..n] && (n == |a[1..]| || a[1..][n] < b[1..][n]);
        assert a[..n + 1] == [a[0]] + a[1..][..n] && b[..n + 1] == [b[0]] + b[1..][..n];
      }
      if Precedes(a, b) {
        var n: nat :| n <= |a| && n < |b| && a[..n] == b[..n] && (n == |a| || a[n] < b[n]);
        if n > 0 {
          assert a[0] == a[..n][0] && b[0] == b[..n][0];
          assert a[1..][..n - 1] == a[..n][1..] && b[1..][..n - 1] == b[..n][1..];
          assert Precedes(a[1..], b[1..]) by {
            assert n - 1 == |a[1..]| || a[1..][n - 1] < b[1..][n - 1];
          }
        }
      }
    } else if a == "" && b != "" {
      assert a[..0] == b[..0];
    }
  }

  /** Of two different names exactly one precedes the other. */
  lemma {:induction false} NamesOrdered(a: string, b: string)
    ensures a == b || Before(a, b) || Before(b, a)
  {
    if a != "" && b != "" {
      NamesOrdered(a[1..], b[1..]);
      assert a == [a[0]] + a[1..] && b == [b[0]] + b[1..];
    }
  }

  // ---------- the tiers ----------

  /** By decreasing margin and then by id. */
  predicate ByMargin(a: Group, b: Group) { a.margin > b.margin || (a.margin == b.margin && !Before(b.id, a.id)) }

  /** Which groups each tier goes through. */
  lemma TierGroups(structural: bool, groups: seq<Group>, g: Group)
    ensures g in Pool(structural, L, groups) <==> g in groups && g.margin >= 100.0
    ensures g in Pool(structural, M, groups) <==> g in groups && 20.0 <= g.margin < 100.0
    ensures g in Pool(structural, S, groups) <==> g in groups && 5.0 <= g.margin < 20.0
    ensures g in Pool(structural, A, groups) <==> g in groups && g.rep.suspect
    ensures g in Pool(structural, X, groups) <==> g in groups
  {
    forall t: Tier ensures g in Pool(structural, t, groups) <==> g in groups && InPool(t, g) {
      PoolAre(structural, t, groups);
    }
    hide Pool;
  }

  /** Main result: each tier goes through its groups by margin and then by id; in L the kuna-specific ones come first, in
      S those at several levels, and in X, off a structural metric, more levels go before the id. */
  lemma TierOrder(structural: bool, groups: seq<Group>, tier: Tier, i: nat, j: nat)
    requires i < j < |Pool(structural, tier, groups)|
    ensures var a, b := Pool(structural, tier, groups)[i], Pool(structural, tier, groups)[j];
      match tier
      case L => if a.rep.specific == b.rep.specific then ByMargin(a, b) else a.rep.specific
      case S => if (a.opts >= 2) == (b.opts >= 2) then ByMargin(a, b) else a.opts >= 2
      case X => if a.margin == b.margin && !structural && a.opts != b.opts then a.opts > b.opts else ByMargin(a, b)
      case _ => ByMargin(a, b)
  {
    PoolInOrder(structural, tier, groups);
    assert !Sooner(structural, tier, Pool(structural, tier, groups)[j], Pool(structural, tier, groups)[i]);
    hide Pool, Before;
  }

  // ---------- the projects of tier S ----------

  lemma {:induction false} NamesInOrder(pool: seq<Group>, names: seq<string>)
    ensures forall i, j | 0 <= i < j < |SortNames(pool, names)| ::
      !Earlier(pool, SortNames(pool, names)[j], SortNames(pool, names)[i])
  {
    if names != [] {
      NamesInOrder(pool, names[1..]);
      hide Earlier, SortNames;
      SortStep(pool, names);
      InsertedInOrder(pool, names[0], SortNames(pool, names[1..]));
    }
  }

  lemma SortStep(pool: seq<Group>, names: seq<string>)
    requires names != []
    ensures SortNames(pool, names) == InsertName(pool, names[0], SortNames(pool, names[1..]))
  {
  }

  lemma EarlierTransitive(pool: seq<Group>, a: string, b: string, c: string)
    requires Earlier(pool, a, b) && !Earlier(pool, c, b)
    ensures !Earlier(pool, c, a)
  {
    hide OfOneProject;
    if Earlier(pool, c, a) {
      if Before(c, a) && Before(a, b) {
        BeforeTransitive(c, a, b);
      }
      assert false;
    }
  }

  lemma {:induction false} InsertedInOrder(pool: seq<Group>, name: string, names: seq<string>)
    requires forall i, j | 0 <= i < j < |names| :: !Earlier(pool, names[j], names[i])
    ensures forall i, j | 0 <= i < j < |InsertName(pool, name, names)| ::
      !Earlier(pool, InsertName(pool, name, names)[j], InsertName(pool, name, names)[i])
  {
    hide Earlier;
    if names != [] {
      if Earlier(pool, name, names[0]) {
        forall k | 0 <= k < |names| ensures !Earlier(pool, names[k], name) {
          EarlierOnce(pool, names[0]);
          EarlierTransitive(pool, name, names[0], names[k]);
        }
      } else {
        var rest := InsertName(pool, name, names[1..]);
        InsertedInOrder(pool, name, names[1..]);
        InsertNameAre(pool, name, names[1..]);
        forall k | 0 <= k < |rest| ensures !Earlier(pool, rest[k], names[0]) {
          assert rest[k] in rest;
          assert rest[k] == name || rest[k] in names[1..];
        }
      }
    }
  }

  lemma EarlierOnce(pool: seq<Group>, a: string)
    ensures !Earlier(pool, a, a)
  {
    NotBeforeItself(a);
  }

  lemma {:induction false} ProjectOrderKept(pool: seq<Group>, name: string, i: nat, j: nat)
    requires i < j < |OfOneProject(pool, name)|
    ensures exists a, b | 0 <= a < b < |pool| :: pool[a] == OfOneProject(pool, name)[i] && pool[b] == OfOneProject(pool, name)[j]
  {
    var q, rest := OfOneProject(pool, name), OfOneProject(pool[1..], name);
    var off := |q| - |rest|;
    if i >= off {
      ProjectOrderKept(pool[1..], name, i - off, j - off);
      var a, b :| 0 <= a < b < |pool[1..]| && pool[1..][a] == rest[i - off] && pool[1..][b] == rest[j - off];
      assert pool[a + 1] == q[i] && pool[b + 1] == q[j];
    } else {
      OfOneProjectAre(pool[1..], name);
      assert rest[j - off] in rest;
      var b :| 0 <= b < |pool[1..]| && pool[1..][b] == rest[j - off];
      assert pool[0] == q[i] && pool[b + 1] == q[j];
    }
  }

  /** The projects of tier S: each queue holds the groups of one project, in the order of the pool; longer queues come
      first, and queues of equal length by the name of the project. */
  lemma ProjectsInOrder(pool: seq<Group>, k: nat, i: nat, j: nat)
    requires k < |Queues(pool)|
    ensures i < |Queues(pool)[k]| && j < |Queues(pool)[k]| ==> Project(Queues(pool)[k][i]) == Project(Queues(pool)[k][j])
    ensures i < j < |Queues(pool)[k]| ==>
      exists a, b | 0 <= a < b < |pool| :: pool[a] == Queues(pool)[k][i] && pool[b] == Queues(pool)[k][j]
    ensures forall m | 0 <= m < k ::
      || |Queues(pool)[m]| > |Queues(pool)[k]|
      || (|Queues(pool)[m]| == |Queues(pool)[k]| &&
           forall x, y | x in Queues(pool)[m] && y in Queues(pool)[k] :: !Before(Project(y), Project(x)))
  {
    var names := SortNames(pool, Projects(pool));
    NamesInOrder(pool, Projects(pool));
    var q := OfOneProject(pool, names[k]);
    OfOneProjectAre(pool, names[k]);
    assert Queues(pool)[k] == q;
    assert (i < |q| ==> q[i] in q) && (j < |q| ==> q[j] in q);
    if i < j < |q| {
      ProjectOrderKept(pool, names[k], i, j);
    }
    hide SortNames, OfOneProject, Projects;
    forall m | 0 <= m < k
      ensures |Queues(pool)[m]| >= |Queues(pool)[k]|
      ensures |Queues(pool)[m]| == |Queues(pool)[k]| ==>
        forall x, y | x in Queues(pool)[m] && y in Queues(pool)[k] :: !Before(Project(y), Project(x))
    {
      OfOneProjectAre(pool, names[m]);
      assert !Earlier(pool, names[k], names[m]);
    }
  }

  // ---------- what is taken next ----------

  /** Nothing holds the group back: it is not picked, its project has fewer than four places, in L and M fewer than two
      of them in the tier, and its source is not degenerate where that counts. */
  predicate Free(structural: bool, picked: seq<Pick>, tier: Tier, g: Group) {
    && (forall p | p in picked :: p.group.id != g.id)
    && OfProject(picked, g.rep.project) < 4
    && (tier == L || tier == M ==> OfBoth(picked, tier, g.rep.project) < 2)
    && (g.rep.degenerate ==> tier == A || !structural)
  }

  /** L, M, S and A have 8, 10, 7 and 3 places, and the queue as many as wanted. */
  predicate HasPlace(picked: seq<Pick>, tier: Tier, want: nat) {
    match tier
    case L => OfTier(picked, L) < 8
    case M => OfTier(picked, M) < 10
    case S => OfTier(picked, S) < 7
    case A => OfTier(picked, A) < 3
    case X => |picked| < want
  }

  lemma FreeIs(structural: bool, picked: seq<Pick>, tier: Tier, g: Group)
    ensures Free(structural, picked, tier, g) <==> !Held(structural, picked, tier, g)
  {
    hide OfProject, OfBoth;
    forall i | 0 <= i < |picked| ensures picked[i] in picked {
    }
    assert Picked(picked, g.id) <==> exists p | p in picked :: p.group.id == g.id;
  }

  lemma PlaceIs(picked: seq<Pick>, tier: Tier, want: nat)
    ensures HasPlace(picked, tier, want) <==> !Full(picked, tier, want)
  {
    hide OfTier;
  }

  /** Main result: while there is a place, the first group of the pool that nothing holds back is taken, and the tier
      goes on behind it; without a place or without such a group it ends. */
  lemma {:induction false} FirstFreeIsTaken(structural: bool, picked: seq<Pick>, tier: Tier, pool: seq<Group>, want: nat, j: nat)
    requires j <= |pool| && forall i | 0 <= i < j :: !Free(structural, picked, tier, pool[i])
    ensures !HasPlace(picked, tier, want) || j == |pool| ==> Greedy(structural, picked, tier, pool, want) == picked
    ensures HasPlace(picked, tier, want) && j < |pool| && Free(structural, picked, tier, pool[j]) ==>
      Greedy(structural, picked, tier, pool, want)
      == Greedy(structural, picked + [Pick(tier, pool[j])], tier, pool[j + 1..], want)
    decreases j
  {
    hide Free, HasPlace, Held, Full, Greedy;
    assert pool[0..] == pool;
    GreedyStep(structural, picked, tier, pool, 0, want);
    PlaceIs(picked, tier, want);
    if pool != [] {
      FreeIs(structural, picked, tier, pool[0]);
      if j > 0 && HasPlace(picked, tier, want) {
        FirstFreeIsTaken(structural, picked, tier, pool[1..], want, j - 1);
        assert j < |pool| ==> pool[1..][j..] == pool[j + 1..];
      }
    }
  }

  /** A project's turn takes its first group that nothing holds back, and passes over those before it for good. */
  lemma {:induction false} TurnTakesFirstFree(structural: bool, picked: seq<Pick>, queue: seq<Group>, j: nat)
    requires j <= |queue| && forall i | 0 <= i < j :: !Free(structural, picked, S, queue[i])
    ensures j == |queue| ==> Turn(structural, picked, queue) == (picked, [])
    ensures j < |queue| && Free(structural, picked, S, queue[j]) ==>
      Turn(structural, picked, queue) == (picked + [Pick(S, queue[j])], queue[j + 1..])
    decreases j
  {
    hide Free, Blocked, Turn;
    assert queue[0..] == queue;
    TurnStep(structural, picked, queue, 0);
    if queue != [] {
      FreeIs(structural, picked, S, queue[0]);
      if j > 0 {
        TurnTakesFirstFree(structural, picked, queue[1..], j - 1);
        assert j < |queue| ==> queue[1..][j..] == queue[j + 1..];
      }
    }
  }

  /** The rules in numbers. */
  lemma RulesAre(structural: bool, picked: seq<Pick>, project: string, i: nat, j: nat)
    requires Good(structural, picked)
    ensures OfTier(picked, L) <= 8 && OfTier(picked, M) <= 10 && OfTier(picked, S) <= 7 && OfTier(picked, A) <= 3
    ensures OfProject(picked, project) <= 4 && (i < j < |picked| ==> picked[i].group.id != picked[j].group.id)
    ensures structural && i < |picked| && picked[i].group.rep.degenerate ==> picked[i].tier == A
  {
    assert Cap(L) == Some(8) && Cap(M) == Some(10) && Cap(S) == Some(7) && Cap(A) == Some(3);
    hide OfTier, OfProject, Cap;
  }
}
