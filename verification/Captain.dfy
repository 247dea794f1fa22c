/** The three guarded machines of scripts/repipe/captain.py. */
module Captain {

  // Many processes hold stale copies of the round document; the log of transitions is nevertheless a
  // path of each machine's table.

  datatype State =
    | BOOT | RUNNING | DRAINING | HALTED | STOPPED
    | T_IDLE | T_PLAN | T_WORKSPACE | T_FANOUT | T_DRAIN | T_GATE | T_DEDUP | T_REFUTE | T_TRIAGE | T_READY
    | B_IDLE | B_PLAN | B_FANOUT | B_DRAIN | B_PROPOSAL_REVIEW | B_MERGE | B_VERIFY | B_ROLLBACK | B_DONE
    | Unknown(name: string)

  datatype Machine = Supervisor | Test | Build

  /** table.get(from, []) */
  function Legal(m: Machine, from: State): seq<State> {
    match (m, from)
    case (Supervisor, BOOT) => [RUNNING, HALTED]
    case (Supervisor, RUNNING) => [DRAINING, HALTED]
    case (Supervisor, DRAINING) => [STOPPED, HALTED]
    case (Test, T_IDLE) => [T_PLAN]
    case (Test, T_PLAN) => [T_WORKSPACE, T_IDLE]
    case (Test, T_WORKSPACE) => [T_FANOUT]
    case (Test, T_FANOUT) => [T_DRAIN]
    case (Test, T_DRAIN) => [T_GATE]
    case (Test, T_GATE) => [T_DEDUP]
    case (Test, T_DEDUP) => [T_REFUTE]
    case (Test, T_REFUTE) => [T_TRIAGE]
    case (Test, T_TRIAGE) => [T_READY]
    case (Test, T_READY) => [T_IDLE]
    case (Build, B_IDLE) => [B_PLAN, B_DONE]
    case (Build, B_PLAN) => [B_FANOUT, B_IDLE]
    case (Build, B_FANOUT) => [B_DRAIN]
    case (Build, B_DRAIN) => [B_MERGE, B_PROPOSAL_REVIEW]
    case (Build, B_PROPOSAL_REVIEW) => [B_FANOUT, B_MERGE, B_IDLE]
    case (Build, B_MERGE) => [B_VERIFY]
    case (Build, B_VERIFY) => [B_DONE, B_ROLLBACK]
    case (Build, B_ROLLBACK) => [B_VERIFY, HALTED]
    case (Build, B_DONE) => [B_IDLE]
    case _ => []
  }

  function Initial(m: Machine): State {
    match m
    case Supervisor => BOOT
    case Test => T_IDLE
    case Build => B_IDLE
  }

  /** The round document, as far as the machines use it. */
  datatype Doc = Doc(supervisor: State, test: State, build: State, notes: seq<string>)

  datatype Rec = Rec(machine: Machine, source: State, target: State, note: string, operator: bool)

  datatype Option<+T> = None | Some(value: T)

  const FRESH := Doc(BOOT, T_IDLE, B_IDLE, [])

  function At(d: Doc, m: Machine): State {
    match m
    case Supervisor => d.supervisor
    case Test => d.test
    case Build => d.build
  }

  function Set(d: Doc, m: Machine, s: State): Doc {
    match m
    case Supervisor => d.(supervisor := s)
    case Test => d.(test := s)
    case Build => d.(build := s)
  }

  /** One round on disk, and the copies recover() is holding between its load and its save. */
  datatype World = World(stored: Option<Doc>, log: seq<Rec>, copies: map<nat, Doc>)

  function Load(w: World): Doc { if w.stored.Some? then w.stored.value else FRESH }

  datatype Event =
    | Transit(caller: Doc, machine: Machine, target: State, note: string)
    | Resume(expected: State, guarded: bool, resumeNote: string)
    | RecoverLoad(process: nat)
    | RecoverSave(process: nat)

  /** transition(): read again under the lock, check, append, save. The caller's copy plays no part. */
  function TransitWorld(w: World, m: Machine, target: State, note: string): Option<World> {
    var current := Load(w);
    var cur := At(current, m);
    if target !in Legal(m, cur) then None
    else Some(w.(stored := Some(Set(current, m, target)), log := w.log + [Rec(m, cur, target, note, false)]))
  }

  /** _operator_resume(); guarded says that every control-file, live-agent and preflight check passed. */
  function ResumeWorld(w: World, expected: State, guarded: bool, note: string): Option<World> {
    var doc := Load(w);
    if !guarded || doc.supervisor != expected then None
    else
      var saved := doc.(supervisor := RUNNING, notes := doc.notes + [note]);
      Some(w.(stored := Some(saved), log := w.log + [Rec(Supervisor, expected, RUNNING, note, true)]))
  }

  const RECOVERED := "recovered"

  function Next(w: World, e: Event): World {
    match e
    case Transit(_, m, target, note) =>
      (match TransitWorld(w, m, target, note) case Some(t) => t case None => w)
    case Resume(expected, guarded, note) =>
      (match ResumeWorld(w, expected, guarded, note) case Some(t) => t case None => w)
    case RecoverLoad(p) =>
      w.(copies := w.copies[p := Load(w).(notes := Load(w).notes + [RECOVERED])])
    case RecoverSave(p) =>
      if p in w.copies then w.(stored := Some(w.copies[p]), copies := w.copies - {p}) else w
  }

  /** The operator entry points only ever expect one of these two. */
  predicate Proper(e: Event) { e.Resume? ==> e.expected == HALTED || e.expected == STOPPED }

  // ---------- the code ----------

  class Round {
    var stored: Option<Doc>
    var log: seq<Rec>
    ghost var copies: map<nat, Doc>

    ghost function Now(): World
      reads this
    {
      World(stored, log, copies)
    }

    constructor ()
      ensures Now() == World(None, [], map[])
    {
      stored, log, copies := None, [], map[];
    }

    method LoadRound() returns (doc: Doc)
      ensures doc == Load(Now())
    {
      if stored.None? {
        return FRESH;
      }
      doc := stored.value;
    }

    /** Returns the caller's updated document, or None for an illegal transition. */
    method Transition(doc: Doc, machine: Machine, target: State, note: string) returns (updated: Option<Doc>)
      modifies this
      ensures Now() == Next(old(Now()), Transit(doc, machine, target, note))
      ensures updated == if target in Legal(machine, At(Load(old(Now())), machine)) then stored else None
    {
      var current := LoadRound();
      var cur := At(current, machine);
      if target !in Legal(machine, cur) {
        return None;
      }
      current := Set(current, machine, target);
      log := log + [Rec(machine, cur, target, note, false)];
      stored := Some(current);
      updated := Some(current);
    }

    method OperatorResume(expected: State, guarded: bool, note: string) returns (ok: bool)
      modifies this
      ensures Now() == Next(old(Now()), Resume(expected, guarded, note))
      ensures ok <==> guarded && Load(old(Now())).supervisor == expected
    {
      if !guarded {
        return false;
      }
      var doc := LoadRound();
      if doc.supervisor != expected {
        return false;
      }
      doc := doc.(supervisor := RUNNING, notes := doc.notes + [note]);
      log := log + [Rec(Supervisor, expected, RUNNING, note, true)];
      stored := Some(doc);
      ok := true;
    }

    /** recover() when nothing else runs between its load and its save. */
    method Recover(process: nat)
      requires process !in copies
      modifies this
      ensures Now() == Next(Next(old(Now()), RecoverLoad(process)), RecoverSave(process))
    {
      var doc := LoadRound();
      stored := Some(doc.(notes := doc.notes + [RECOVERED]));
      assert copies == copies[process := doc] - {process};
    }
  }

  // ---------- the log is a path ----------

  function Records(log: seq<Rec>, m: Machine): seq<Rec> {
    if log == [] then []
    else
      var last := |log| - 1;
      Records(log[..last], m) + if log[last].machine == m then [log[last]] else []
  }

  predicate Edge(m: Machine, r: Rec) {
    || (!r.operator && r.target in Legal(m, r.source))
    || (r.operator && m == Supervisor && r.source in {HALTED, STOPPED} && r.target == RUNNING)
  }

  /** The records lead along edges from start to end. */
  predicate Path(m: Machine, recs: seq<Rec>, start: State, end: State) {
    if recs == [] then start == end
    else
      var last := |recs| - 1;
      recs[last].target == end && Edge(m, recs[last]) && Path(m, recs[..last], start, recs[last].source)
  }

  /** Each machine's records form a path of its table from its first state to the stored one. */
  predicate Inv(w: World) {
    forall m: Machine :: Path(m, Records(w.log, m), Initial(m), At(Load(w), m))
  }

  /** A stale save would put back an earlier state of some machine. */
  predicate StaleSave(w: World, e: Event) {
    e.RecoverSave? && e.process in w.copies && exists m: Machine :: At(w.copies[e.process], m) != At(Load(w), m)
  }

  lemma RecordsSnoc(log: seq<Rec>, r: Rec, m: Machine)
    ensures Records(log + [r], m) == Records(log, m) + if r.machine == m then [r] else []
  {
    assert (log + [r])[..|log|] == log;
  }

  lemma PathSnoc(m: Machine, recs: seq<Rec>, r: Rec, start: State)
    requires Path(m, recs, start, r.source) && Edge(m, r)
    ensures Path(m, recs + [r], start, r.target)
  {
    assert (recs + [r])[..|recs|] == recs;
    hide Edge;
  }

  lemma {:induction false} PathEnd(m: Machine, recs: seq<Rec>, start: State, end: State, other: State)
    requires Path(m, recs, start, end) && Path(m, recs, start, other)
    ensures end == other
  {
    hide Edge;
  }

  lemma LoggedStep(w: World, r: Rec, doc: Doc)
    requires Inv(w) && r.source == At(Load(w), r.machine) && Edge(r.machine, r)
    requires At(doc, r.machine) == r.target && forall m: Machine | m != r.machine :: At(doc, m) == At(Load(w), m)
    ensures Inv(w.(stored := Some(doc), log := w.log + [r]))
  {
    hide Path, Records, Edge, At;
    forall m: Machine ensures Path(m, Records(w.log + [r], m), Initial(m), At(doc, m)) {
      assert Path(m, Records(w.log, m), Initial(m), At(Load(w), m));
      RecordsSnoc(w.log, r, m);
      if m == r.machine {
        PathSnoc(m, Records(w.log, m), r, Initial(m));
      } else {
        assert Records(w.log, m) + [] == Records(w.log, m);
      }
    }
  }

  /** One step, by any caller with any copy of the document, keeps the log a path that ends in the stored
      states, with the single exception of recover() saving a copy that has become stale. */
  lemma StepKeepsPath(w: World, e: Event)
    requires Inv(w) && Proper(e)
    ensures Inv(Next(w, e)) <==> !StaleSave(w, e)
  {
    hide Path, Records, Legal;
    match e
    case Transit(_, m, target, note) =>
      var cur := At(Load(w), m);
      if target in Legal(m, cur) {
        LoggedStep(w, Rec(m, cur, target, note, false), Set(Load(w), m, target));
      }
    case Resume(expected, guarded, note) =>
      if guarded && Load(w).supervisor == expected {
        var saved := Load(w).(supervisor := RUNNING, notes := Load(w).notes + [note]);
        LoggedStep(w, Rec(Supervisor, expected, RUNNING, note, true), saved);
      }
    case RecoverLoad(_) =>
      assert Load(Next(w, e)) == Load(w);
    case RecoverSave(p) =>
      if StaleSave(w, e) {
        var m: Machine :| At(w.copies[p], m) != At(Load(w), m);
        if Path(m, Records(w.log, m), Initial(m), At(w.copies[p], m)) {
          PathEnd(m, Records(w.log, m), Initial(m), At(Load(w), m), At(w.copies[p], m));
        }
      }
  }

  function After(w: World, run: seq<Event>): World {
    if run == [] then w
    else Next(After(w, run[..|run| - 1]), run[|run| - 1])
  }

  /** No save by recover() in the run is stale. */
  predicate NoStaleSave(w: World, run: seq<Event>) {
    forall k | 0 <= k < |run| :: !StaleSave(After(w, run[..k]), run[k])
  }

  /** Main result: over every interleaving the log of each machine is a path of its table, plus the
      operator's edges, ending in the stored state, as long as recover() saves nothing stale. */
  lemma {:induction false} RunKeepsPath(w: World, run: seq<Event>)
    requires Inv(w) && (forall e | e in run :: Proper(e)) && NoStaleSave(w, run)
    ensures Inv(After(w, run))
  {
    hide Next, Inv, Proper, StaleSave;
    if run != [] {
      var before, e := run[..|run| - 1], run[|run| - 1];
      forall k | 0 <= k < |before| ensures !StaleSave(After(w, before[..k]), before[k]) {
        assert before[..k] == run[..k] && before[k] == run[k];
      }
      RunKeepsPath(w, before);
      assert e in run;
      StepKeepsPath(After(w, before), e);
    }
  }

  lemma StartsAsPath()
    ensures Inv(World(None, [], map[]))
  {
  }

  lemma AfterThree(w: World, a: Event, b: Event, c: Event)
    ensures After(w, [a, b, c]) == Next(Next(Next(w, a), b), c)
  {
    assert [a, b, c][..2] == [a, b] && [a, b][..1] == [a] && [a][..0] == [];
    hide Next;
    assert After(w, [a]) == Next(w, a);
    assert After(w, [a, b]) == Next(Next(w, a), b);
  }

  /** The unlocked save can lose a transition: recover loads, a tick plans, recover saves. */
  lemma StaleRecover(doc: Doc)
    ensures var run := [RecoverLoad(0), Transit(doc, Test, T_PLAN, ""), RecoverSave(0)];
      var t := After(World(None, [], map[]), run);
      !Inv(t) && At(Load(t), Test) == T_IDLE && |Records(t.log, Test)| == 1
  {
    var w := World(None, [], map[]);
    var e := Transit(doc, Test, T_PLAN, "");
    AfterThree(w, RecoverLoad(0), e, RecoverSave(0));
    StartsAsPath();
    var w1 := Next(w, RecoverLoad(0));
    var w2 := Next(w1, e);
    StepKeepsPath(w, RecoverLoad(0));
    StepKeepsPath(w1, e);
    StepKeepsPath(w2, RecoverSave(0));
    RecordsSnoc([], Rec(Test, T_IDLE, T_PLAN, "", false), Test);
    assert [] + w2.log == w2.log;
    hide Inv, After;
  }

  // ---------- what the paths rule out ----------

  /** The states a machine was in, in order. */
  function Visited(start: State, recs: seq<Rec>): (v: seq<State>)
    ensures |v| == |recs| + 1
  {
    [start] + seq(|recs|, i requires 0 <= i < |recs| => recs[i].target)
  }

  /** Each step of the history follows the table, or is the operator's. */
  ghost predicate Follows(m: Machine, v: seq<State>) {
    forall i, j | 0 <= i && j == i + 1 && j < |v| :: Step(m, v[i], v[j])
  }

  predicate Step(m: Machine, from: State, next: State) {
    next in Legal(m, from) || (m == Supervisor && from in {HALTED, STOPPED} && next == RUNNING)
  }

  lemma {:induction false} PathFollows(m: Machine, recs: seq<Rec>, start: State, end: State)
    requires Path(m, recs, start, end)
    ensures Follows(m, Visited(start, recs)) && Visited(start, recs)[|recs|] == end
  {
    hide Legal;
    if recs != [] {
      var last := |recs| - 1;
      PathFollows(m, recs[..last], start, recs[last].source);
      var v, u := Visited(start, recs), Visited(start, recs[..last]);
      assert v == u + [recs[last].target];
      hide Path;
      forall i, j | 0 <= i && j == i + 1 && j < |v| ensures Step(m, v[i], v[j]) {
        if j < |u| {
          assert Step(m, u[i], u[j]);
        }
      }
    }
  }

  /** The history of one machine at the end of a run from an empty round. */
  function History(run: seq<Event>, m: Machine): seq<State> {
    Visited(Initial(m), Records(After(World(None, [], map[]), run).log, m))
  }

  predicate Sound(run: seq<Event>) {
    (forall e | e in run :: Proper(e)) && NoStaleSave(World(None, [], map[]), run)
  }

  /** The logged history of a run follows the table and ends in the stored state. */
  lemma HistoryFollows(run: seq<Event>, m: Machine)
    requires Sound(run)
    ensures var v := History(run, m);
      && Follows(m, v) && v[0] == Initial(m)
      && v[|v| - 1] == At(Load(After(World(None, [], map[]), run)), m)
  {
    var w := World(None, [], map[]);
    StartsAsPath();
    RunKeepsPath(w, run);
    hide After, Path, Records, NoStaleSave, Proper;
    var t := After(w, run);
    PathFollows(m, Records(t.log, m), Initial(m), At(Load(t), m));
  }

  /** Between the merge and the end of a build: the verify and rollback states. */
  predicate Landing(s: State) { s == B_MERGE || s == B_VERIFY || s == B_ROLLBACK }

  lemma NotHaltedYet(v: seq<State>, k: nat)
    requires Follows(Build, v) && k + 1 < |v|
    ensures v[k] != HALTED
  {
    assert Step(Build, v[k], v[k + 1]);
  }

  lemma {:induction false} LandingUntil(v: seq<State>, i: nat, k: nat)
    requires Follows(Build, v) && i <= k < |v| && v[i] == B_MERGE && forall j | i < j < k :: v[j] != B_DONE
    ensures Landing(v[k]) || (v[k] == B_DONE && k > 0 && v[k - 1] == B_VERIFY)
         || (v[k] == HALTED && k == |v| - 1)
    ensures k > i ==> v[k] != B_MERGE
    decreases k - i
  {
    if k > i {
      LandingUntil(v, i, k - 1);
      assert Step(Build, v[k - 1], v[k]);
      if k + 1 < |v| {
        NotHaltedYet(v, k);
      }
    }
  }

  /** After a merge a build only verifies or rolls back until it is done, and it is done only straight from
      a verification; a halted build goes nowhere. */
  lemma MergeIsVerified(run: seq<Event>, i: nat, k: nat)
    requires Sound(run) && i < k < |History(run, Build)| && History(run, Build)[i] == B_MERGE
    requires forall j | i < j < k :: History(run, Build)[j] != B_DONE
    ensures var v := History(run, Build);
      || v[k] == B_VERIFY || v[k] == B_ROLLBACK
      || (v[k] == B_DONE && v[k - 1] == B_VERIFY)
      || (v[k] == HALTED && k == |v| - 1)
  {
    hide Sound, History, Follows;
    HistoryFollows(run, Build);
    LandingUntil(History(run, Build), i, k);
  }

  /** A pass reaches triage only through the gate, the deduplication and the refuter, in this order and
      without anything in between. */
  lemma TriageIsGated(run: seq<Event>, k: nat)
    requires Sound(run) && k < |History(run, Test)| && History(run, Test)[k] == T_TRIAGE
    ensures k >= 7 && History(run, Test)[k - 7..k] == [T_PLAN, T_WORKSPACE, T_FANOUT, T_DRAIN, T_GATE, T_DEDUP, T_REFUTE]
  {
    hide Sound, History;
    HistoryFollows(run, Test);
    var v := History(run, Test);
    StepBack(v, k, T_REFUTE);
    StepBack(v, k - 1, T_DEDUP);
    StepBack(v, k - 2, T_GATE);
    StepBack(v, k - 3, T_DRAIN);
    StepBack(v, k - 4, T_FANOUT);
    StepBack(v, k - 5, T_WORKSPACE);
    StepBack(v, k - 6, T_PLAN);
  }

  /** A state of the test track entered from one other state only. */
  lemma StepBack(v: seq<State>, k: nat, from: State)
    requires k < |v| && Follows(Test, v) && v[0] == T_IDLE
    requires (v[k], from) in {(T_TRIAGE, T_REFUTE), (T_REFUTE, T_DEDUP), (T_DEDUP, T_GATE), (T_GATE, T_DRAIN),
                              (T_DRAIN, T_FANOUT), (T_FANOUT, T_WORKSPACE), (T_WORKSPACE, T_PLAN)}
    ensures k > 0 && v[k - 1] == from
  {
    if k > 0 {
      assert Step(Test, v[k - 1], v[k]);
    }
  }

  /** A halted or stopped supervisor leaves that state only for RUNNING. */
  lemma OnlyTheOperatorRestarts(run: seq<Event>, k: nat)
    requires Sound(run) && k + 1 < |History(run, Supervisor)| && History(run, Supervisor)[k] in {HALTED, STOPPED}
    ensures History(run, Supervisor)[k + 1] == RUNNING
    ensures Records(After(World(None, [], map[]), run).log, Supervisor)[k].operator
  {
    hide After;
    var w := World(None, [], map[]);
    StartsAsPath();
    RunKeepsPath(w, run);
    var recs := Records(After(w, run).log, Supervisor);
    RecordIsEdge(Supervisor, recs, BOOT, At(Load(After(w, run)), Supervisor), k);
  }

  lemma {:induction false} RecordIsEdge(m: Machine, recs: seq<Rec>, start: State, end: State, k: nat)
    requires Path(m, recs, start, end) && k < |recs|
    ensures Edge(m, recs[k]) && recs[k].source == Visited(start, recs)[k] && recs[k].target == Visited(start, recs)[k + 1]
  {
    hide Edge;
    var last := |recs| - 1;
    if k < last {
      RecordIsEdge(m, recs[..last], start, recs[last].source, k);
    } else {
      PathFollows(m, recs[..last], start, recs[last].source);
    }
  }
}
