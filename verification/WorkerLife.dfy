/** The life of the worker client in literal terms: what a failed, a closed and a fresh client still does, when the
    binary is sent to the worker and when not, and what a worker answers before it is ready. */
module WorkerLife {
  import opened WorkerClient
  import opened Worker
  import opened WorkerProtocol

  /** The first failure of a worker is the one that is reported until another worker is spawned, and as long as it
      stands nothing is posted. */
  lemma FirstFailureStays(w: World, e: Event)
    requires w.client.Linked() && Enabled(w, e) && w.client.fatal.Some?
    requires Next(w, e).client.generation == w.client.generation
    ensures Next(w, e).client.fatal == w.client.fatal && Next(w, e).client.log == w.client.log
  {
  }

  lemma ClosedStep(w: World, e: Event)
    requires w.client.Linked() && Enabled(w, e) && w.client.closed
    ensures var c := Next(w, e).client;
      c.closed && c.log == w.client.log && c.generation == w.client.generation && c.pending <= w.client.pending
  {
  }

  /** Over every run, a closed client stays closed, posts nothing more, and has nothing pending. */
  lemma {:induction false} ClosedForGood(w: World, events: seq<Event>)
    requires Inv(w) && IsRun(w, events) && w.client.closed
    ensures var c := After(w, events).client;
      c.closed && c.log == w.client.log && c.generation == w.client.generation && c.pending == {}
    decreases |events|
  {
    hide TaskInv, WorkerInv, SettledInv, LogInv, MirrorInv;
    if events != [] {
      StepKeepsInv(w, events[0]);
      ClosedStep(w, events[0]);
      hide Next, Inv, Enabled;
      ClosedForGood(Next(w, events[0]), events[1..]);
    }
  }

  /** close() and clear() forget the session; close() rejects what is pending as cancelled. */
  lemma SessionForgotten(w: World, posted: bool)
    requires Inv(w) && !w.client.closed
    ensures var c := Next(w, Close).client;
      && c.closed && c.session.None? && c.pending == {} && c.generation > w.client.generation
      && forall id | id in w.client.pending :: id in c.settled && c.settled[id] == Err(Cancelled)
    ensures var c := Next(w, Clear(posted)).client;
      && !c.closed && c.session.None? && c.workerSession.None? && c.generation > w.client.generation
      && forall id | id in w.client.pending :: id in c.settled && c.settled[id] == Err(Cancelled)
  {
    hide TaskInv, WorkerInv, SettledInv, LogInv, MirrorInv;
    forall id | id in w.client.pending ensures 1 <= id <= |w.client.log| {
    }
  }

  /** A new load is the newest session, and no worker has it yet. */
  lemma LoadStarts(w: World, bytes: bytes, fileName: string, mode: string)
    requires w.client.Linked()
    ensures var c := Next(w, Load(bytes, fileName, mode)).client;
      && c.sessions == w.client.sessions + [Session(bytes, fileName, mode, None)]
      && c.session == Some(|w.client.sessions|) && c.workerSession.None? && c.log == w.client.log
  {
  }

  /** The binary is sent only while the worker is not known to have it: once it has the newest session, no step posts
      a setBinary; and what a setBinary carries is that session. */
  lemma BinarySentWhenNeeded(w: World, e: Event)
    requires w.client.Linked() && Enabled(w, e)
    requires |Next(w, e).client.log| > |w.client.log| && Next(w, e).client.log[|w.client.log|].params.SetBinary?
    ensures w.client.session.Some? && w.client.workerSession != w.client.session
    ensures var id := w.client.session.value;
      var s := w.client.sessions[id];
      Next(w, e).client.log[|w.client.log|].params == SetBinary(id, s.bytes, s.fileName, s.mode)
    ensures e.Resume? && w.tasks[e.task].pc.AwaitReady? && w.tasks[e.task].gen == w.client.generation
  {
    if e.Resume? {
      TaskPosts(w.client, w.tasks[e.task], e.posted);
    } else {
      OthersPostInit(w, e);
    }
    hide ResumeTask;
  }

  /** Of the tasks only one that waits for the worker posts a setBinary. */
  lemma TaskPosts(c: Client, t: Task, posted: bool)
    requires c.Linked() && CanResume(c, t.pc)
    ensures var d := ResumeTask(c, t, posted).0;
      |d.log| > |c.log| && d.log[|c.log|].params.SetBinary? ==>
        && t.pc.AwaitReady? && t.gen == c.generation && c.session.Some? && c.workerSession != c.session
        && var s := c.sessions[c.session.value];
           d.log[|c.log|].params == SetBinary(c.session.value, s.bytes, s.fileName, s.mode)
  {
  }

  lemma OthersPostInit(w: World, e: Event)
    requires w.client.Linked() && Enabled(w, e) && !e.Resume?
    ensures var d := Next(w, e).client; |d.log| > |w.client.log| ==> d.log[|w.client.log|].params.Init?
  {
  }

  /** A call that finds the worker holding the newest session goes on without sending it. */
  lemma SessionReused(w: World, i: nat, posted: bool)
    requires w.client.Linked() && Enabled(w, Resume(i, posted)) && w.tasks[i].pc.AwaitReady?
    requires w.tasks[i].gen == w.client.generation && OutcomeOf(w.client, w.tasks[i].pc.promise).value.Ok?
    requires w.client.session.Some? && w.client.workerSession == w.client.session
    ensures Next(w, Resume(i, posted)).client == w.client && Next(w, Resume(i, posted)).tasks[i].pc == SessionSet
  {
  }

  /** Until its init has finished a worker refuses everything but init, and until it has a binary every query. */
  lemma RefusesUntilReady(k: Worker, g: Generation, id: RequestId, params: Params, named: bool)
    requires !params.Init? && (!k.kuna || (!params.SetBinary? && (k.binary.None? || k.holds.None?)))
    ensures k.Dispatch(g, id, params, named) == k.(replies := k.replies + {(id, Err(RequestFailed))})
  {
  }

  /** setBinary replaces everything that later queries read, also when its format can not be named. */
  lemma BinaryIsTaken(k: Worker, g: Generation, id: RequestId, s: SessionId, b: bytes, name: string, m: string, named: bool)
    requires k.kuna
    ensures var t := k.Dispatch(g, id, SetBinary(s, b, name, m), named);
      && t.binary == Some(b) && t.holds == Some(s) && t.jobs == k.jobs
      && t.fileName == (if name == "" then "binary" else name) && t.mode == (if m == "" then "auto" else m)
      && t.replies == k.replies + {(id, if named then Ok(Details(b)) else Err(RequestFailed))}
  {
  }

  /** A query reads the worker when it begins, and its answer, whenever it comes, is for what it read then. */
  lemma QueryIsComputed(k: Worker, g: Generation, id: RequestId, params: Params, named: bool, other: Worker, ok: bool)
    requires k.kuna && k.binary.Some? && k.holds.Some? && !params.Init? && !params.SetBinary?
    requires other.jobs == k.Dispatch(g, id, params, named).jobs
    ensures other.Finish(id, ok).replies == other.replies +
      {(id, if ok then Ok(Output(Snapshot(g, k.holds.value, k.binary.value, k.fileName, k.mode, params))) else Err(RequestFailed))}
    ensures other.Finish(id, ok).jobs == other.jobs - {id}
  {
  }
}
