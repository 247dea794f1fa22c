/** The tables and the steps of scripts/repipe/captain.py in literal terms: every legal move of each machine, what a
    transition writes to the round document and to the log, what it leaves, and which calls are refused; and, over every
    run, that nothing but these steps ever moves a machine. */
module CaptainMeaning {
  import opened Captain

  /** The moves of the supervisor, of the test track and of the build track, and no others. */
  lemma TablesAre(m: Machine, from: State, next: State)
    ensures next in Legal(m, from) <==>
      match m
      case Supervisor => (from, next) in {
        (BOOT, RUNNING), (BOOT, HALTED), (RUNNING, DRAINING), (RUNNING, HALTED), (DRAINING, STOPPED), (DRAINING, HALTED)}
      case Test => (from, next) in {
        (T_IDLE, T_PLAN), (T_PLAN, T_WORKSPACE), (T_PLAN, T_IDLE), (T_WORKSPACE, T_FANOUT), (T_FANOUT, T_DRAIN),
        (T_DRAIN, T_GATE), (T_GATE, T_DEDUP), (T_DEDUP, T_REFUTE), (T_REFUTE, T_TRIAGE), (T_TRIAGE, T_READY),
        (T_READY, T_IDLE)}
      case Build => (from, next) in {
        (B_IDLE, B_PLAN), (B_IDLE, B_DONE), (B_PLAN, B_FANOUT), (B_PLAN, B_IDLE), (B_FANOUT, B_DRAIN), (B_DRAIN, B_MERGE),
        (B_DRAIN, B_PROPOSAL_REVIEW), (B_PROPOSAL_REVIEW, B_FANOUT), (B_PROPOSAL_REVIEW, B_MERGE),
        (B_PROPOSAL_REVIEW, B_IDLE), (B_MERGE, B_VERIFY), (B_VERIFY, B_DONE), (B_VERIFY, B_ROLLBACK),
        (B_ROLLBACK, B_VERIFY), (B_ROLLBACK, HALTED), (B_DONE, B_IDLE)}
  {
  }

  /** The stored document, or a fresh one. */
  predicate Stored(w: World, d: Doc) {
    match w.stored case Some(x) => d == x case None => d == Doc(BOOT, T_IDLE, B_IDLE, [])
  }

  /** A legal transition moves its machine in the stored document and writes one record; the other two machines, the
      notes and the copies stay, whatever copy the caller holds. An illegal one changes nothing. */
  lemma TransitionIs(w: World, d: Doc, caller: Doc, next: State, note: string)
    requires Stored(w, d)
    ensures Next(w, Transit(caller, Supervisor, next, note)) ==
      if next in Legal(Supervisor, d.supervisor)
      then World(Some(Doc(next, d.test, d.build, d.notes)), w.log + [Rec(Supervisor, d.supervisor, next, note, false)], w.copies)
      else w
    ensures Next(w, Transit(caller, Test, next, note)) ==
      if next in Legal(Test, d.test)
      then World(Some(Doc(d.supervisor, next, d.build, d.notes)), w.log + [Rec(Test, d.test, next, note, false)], w.copies)
      else w
    ensures Next(w, Transit(caller, Build, next, note)) ==
      if next in Legal(Build, d.build)
      then World(Some(Doc(d.supervisor, d.test, next, d.notes)), w.log + [Rec(Build, d.build, next, note, false)], w.copies)
      else w
  {
    hide Legal;
  }

  /** The operator's restart, from the expected state alone and past every guard. */
  lemma RestartIs(w: World, d: Doc, expected: State, guarded: bool, note: string)
    requires Stored(w, d)
    ensures Next(w, Resume(expected, guarded, note)) ==
      if guarded && d.supervisor == expected
      then World(Some(Doc(RUNNING, d.test, d.build, d.notes + [note])),
                 w.log + [Rec(Supervisor, expected, RUNNING, note, true)], w.copies)
      else w
  {
  }

  /** recover() takes a copy with one more note and later stores it, without a record. */
  lemma RecoveryIs(w: World, d: Doc, process: nat)
    requires Stored(w, d)
    ensures Next(w, RecoverLoad(process)) ==
      World(w.stored, w.log, w.copies[process := Doc(d.supervisor, d.test, d.build, d.notes + ["recovered"])])
    ensures process in w.copies ==>
      Next(w, RecoverSave(process)) == World(Some(w.copies[process]), w.log, w.copies - {process})
    ensures process !in w.copies ==> Next(w, RecoverSave(process)) == w
  {
  }

  /** Main result: in a run without a stale save the state of a machine is the target of its last record in the log, or its
      first state if there is none. */
  lemma StateIsLastRecord(run: seq<Event>, m: Machine)
    requires Sound(run)
    ensures var t := After(World(None, [], map[]), run);
      var recs := Records(t.log, m);
      match m
      case Supervisor => Load(t).supervisor == if recs == [] then BOOT else recs[|recs| - 1].target
      case Test => Load(t).test == if recs == [] then T_IDLE else recs[|recs| - 1].target
      case Build => Load(t).build == if recs == [] then B_IDLE else recs[|recs| - 1].target
  {
    var w := World(None, [], map[]);
    StartsAsPath();
    RunKeepsPath(w, run);
    hide After, Records, Sound, NoStaleSave, Edge, Load;
  }
}
