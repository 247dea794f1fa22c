/** Client, workers and callers together, in every interleaving. */
module WorkerProtocol {
  import opened WorkerClient
  import opened Worker

  // Calls, replies, worker errors, cancels and further loads come in any order. A worker that was
  // replaced keeps running and keeps replying.

  /** One call of an async method, and the generation it read when it started. */
  datatype Task = Task(call: Call, gen: Generation, pc: Pc)

  datatype World = World(client: Client, workers: map<Generation, Worker>, tasks: seq<Task>) {
    function WorkerOf(g: Generation): Worker {
      if g in workers then workers[g] else NewWorker()
    }
  }

  datatype Event =
    | Load(bytes: bytes, fileName: string, mode: string)
    | Start(call: Call)
    | Resume(task: nat, posted: bool)
    | Take(g: Generation, id: RequestId, named: bool)
    | Finish(g: Generation, id: RequestId, ok: bool)
    | Deliver(g: Generation, id: RequestId, outcome: Outcome)
    | WorkerError(g: Generation)
    | MessageError(g: Generation)
    | Cancel(posted: bool)
    | Clear(posted: bool)
    | Close

  /** The message with this id was posted to worker g. */
  predicate SentTo(c: Client, id: RequestId, g: Generation) {
    1 <= id <= |c.log| && c.log[id - 1].worker == g && c.log[id - 1].sent
  }

  /** A settled promise's outcome. */
  function OutcomeOf(c: Client, p: Promise): Option<Outcome> {
    match p
    case Rejected(e) => Some(Err(e))
    case Issued(id) => if id in c.settled then Some(c.settled[id]) else None
  }

  predicate CanResume(c: Client, pc: Pc) {
    match pc
    case AwaitReady(p) => OutcomeOf(c, p).Some?
    case AwaitDetails(p, _) => OutcomeOf(c, p).Some?
    case SessionSet => true
    case AwaitResult(p) => OutcomeOf(c, p).Some?
    case _ => false
  }

  predicate Enabled(w: World, e: Event) {
    match e
    case Start(call) => !call.LoadCall?
    case Resume(t, _) => t < |w.tasks| && CanResume(w.client, w.tasks[t].pc)
    case Take(g, id, _) =>
      && w.WorkerOf(g).taken < id && SentTo(w.client, id, g)
      && forall j | w.WorkerOf(g).taken < j < id :: !SentTo(w.client, j, g)
    case Finish(g, id, _) => id in w.WorkerOf(g).jobs
    case Deliver(g, id, outcome) => (id, outcome) in w.WorkerOf(g).replies
    case _ => true
  }

  function ResumeTask(c: Client, t: Task, posted: bool): (Client, Pc)
    requires c.Linked() && CanResume(c, t.pc)
  {
    match t.pc
    case AwaitReady(p) => c.AfterReady(t.gen, OutcomeOf(c, p).value, posted)
    case AwaitDetails(p, chosen) => c.AfterDetails(t.gen, OutcomeOf(c, p).value, chosen)
    case SessionSet => c.AfterSession(t.call, posted)
    case AwaitResult(p) => (c, c.AfterResult(t.gen, t.call, OutcomeOf(c, p).value))
  }

  function Next(w: World, e: Event): World
    requires w.client.Linked() && Enabled(w, e)
  {
    var c := w.client;
    match e
    case Load(bytes, name, mode) =>
      var (c', call) := c.StartLoad(bytes, name, mode);
      w.(client := c', tasks := w.tasks + [Task(call, c.generation, AwaitReady(c.ready))])
    case Start(call) => w.(tasks := w.tasks + [Task(call, c.generation, AwaitReady(c.ready))])
    case Resume(t, posted) =>
      var (c', pc) := ResumeTask(c, w.tasks[t], posted);
      w.(client := c', tasks := w.tasks[t := w.tasks[t].(pc := pc)])
    case Take(g, id, named) =>
      w.(workers := w.workers[g := w.WorkerOf(g).(taken := id).Dispatch(g, id, c.log[id - 1].params, named)])
    case Finish(g, id, ok) => w.(workers := w.workers[g := w.WorkerOf(g).Finish(id, ok)])
    case Deliver(g, id, outcome) =>
      var wk := w.WorkerOf(g);
      w.(client := c.OnMessage(g, id, outcome), workers := w.workers[g := wk.(replies := wk.replies - {(id, outcome)})])
    case WorkerError(g) => w.(client := c.OnError(g))
    case MessageError(g) => w.(client := c.OnMessageError(g))
    case Cancel(posted) => w.(client := c.Cancel(posted))
    case Clear(posted) => w.(client := c.Clear(posted))
    case Close => w.(client := c.Close())
  }

  function Begin(posted: bool): World { World(Initial(posted), map[], []) }

  // ---------- the invariant ----------

  /** Every id ever issued is pending or settled, never both; only the current worker is waited for. */
  ghost predicate ClientInv(c: Client) {
    && (forall id :: 1 <= id <= |c.log| <==> id in c.pending || id in c.settled)
    && (forall id | id in c.pending :: id !in c.settled && SentTo(c, id, c.worker))
    && (c.closed || c.fatal.Some? ==> c.pending == {})
    && c.worker <= c.generation && (c.closed <==> c.worker < c.generation)
    && (forall i | 0 <= i < |c.log| :: c.log[i].worker <= c.worker)
    && (c.session.Some? ==> c.session.value + 1 == |c.sessions|)
    && (c.workerSession.Some? ==> c.workerSession.value < |c.sessions|)
    && (c.closed && c.session.Some? ==> c.workerSession.None?)
    && (forall s | 0 <= s < |c.sessions| :: c.sessions[s].format in {None, Some(c.sessions[s].bytes)})
  }

  /** A setBinary carries the data of its session, and later ones carry later sessions. */
  ghost predicate LogInv(c: Client) {
    && (forall i | 0 <= i < |c.log| && c.log[i].params.SetBinary? ::
          var p := c.log[i].params;
          && p.session < |c.sessions|
          && p.bytes == c.sessions[p.session].bytes && p.fileName == c.sessions[p.session].fileName
          && p.mode == c.sessions[p.session].mode)
    && (forall i, j | 0 <= i < j < |c.log| && c.log[i].params.SetBinary? && c.log[j].params.SetBinary? ::
          c.log[i].params.session <= c.log[j].params.session)
  }

  ghost predicate HoldsAtLeast(w: World, g: Generation, s: SessionId) {
    w.WorkerOf(g).holds.Some? && w.WorkerOf(g).holds.value >= s
  }

  /** The name and mode the worker uses for a session. */
  predicate OfSession(sessions: seq<Session>, s: SessionId, binary: bytes, fileName: string, mode: string) {
    && s < |sessions| && binary == sessions[s].bytes
    && fileName == OrDefault(sessions[s].fileName, "binary") && mode == OrDefault(sessions[s].mode, "auto")
  }

  ghost predicate GoodSnapshot(w: World, g: Generation, at: Snapshot) {
    && at.worker == g && OfSession(w.client.sessions, at.session, at.binary, at.fileName, at.mode)
    && HoldsAtLeast(w, g, at.session)
  }

  /** A result fits the request it answers and the state of the worker that computed it. */
  ghost predicate GoodResult(w: World, id: RequestId, result: Result) {
    && 1 <= id <= |w.client.log|
    && var p := w.client.log[id - 1];
       match p.params
       case Init => result == Ready
       case SetBinary(s, _, _, _) =>
         s < |w.client.sessions| && result == Details(w.client.sessions[s].bytes) && HoldsAtLeast(w, p.worker, s)
       case _ => result.Output? && GoodSnapshot(w, p.worker, result.at) && result.at.asked == p.params
  }

  /** The replies and jobs of a worker fit their requests. */
  ghost predicate WorkSound(w: World, g: Generation, k: Worker) {
    && (forall id | id in k.jobs ::
          && SentTo(w.client, id, g)
          && match k.jobs[id]
             case LoadingKuna => w.client.log[id - 1].params.Init?
             case Computing(at) => GoodResult(w, id, Output(at)))
    && (forall r | r in k.replies :: SentTo(w.client, r.0, g) && (r.1.Ok? ==> GoodResult(w, r.0, r.1.result)))
  }

  /** The module variables are those of the session held, and no waiting message goes back. */
  ghost predicate VariablesSound(c: Client, g: Generation, k: Worker) {
    && (k.holds.Some? <==> k.binary.Some?)
    && (k.holds.Some? ==>
          && OfSession(c.sessions, k.holds.value, k.binary.value, k.fileName, k.mode)
          && forall i | k.taken <= i < |c.log| && SentTo(c, i + 1, g) && c.log[i].params.SetBinary? ::
               k.holds.value <= c.log[i].params.session)
  }

  ghost predicate WorkerInv(w: World, g: Generation) {
    VariablesSound(w.client, g, w.WorkerOf(g)) && WorkSound(w, g, w.WorkerOf(g))
  }

  ghost predicate SettledInv(w: World) {
    forall id | id in w.client.settled && w.client.settled[id].Ok? :: GoodResult(w, id, w.client.settled[id].result)
  }

  /** Worker g has begun, or answered, request id with its variables as in `at`. */
  ghost predicate OutputOf(w: World, g: Generation, id: RequestId, at: Snapshot) {
    || (id in w.client.settled && w.client.settled[id] == Ok(Output(at)) && at.worker == g)
    || (id in w.WorkerOf(g).jobs && w.WorkerOf(g).jobs[id] == Computing(at))
    || (id, Ok(Output(at))) in w.WorkerOf(g).replies
  }

  /** What setWorkerSession leaves true for a load of session s: its worker took s or a later one,
      and the session knows its format unless it was superseded. */
  ghost predicate SessionSent(w: World, g: Generation, s: SessionId) {
    && HoldsAtLeast(w, g, s)
    && s < |w.client.sessions|
    && (s + 1 < |w.client.sessions| || w.client.sessions[s].format == Some(w.client.sessions[s].bytes))
  }

  ghost predicate Posted(w: World, id: RequestId, gen: Generation) {
    1 <= id <= |w.client.log| && gen <= w.client.log[id - 1].worker
  }

  /** The inventory a load of s may resolve with. */
  ghost predicate RightInventory(w: World, g: Generation, s: SessionId, result: Result, format: Option<bytes>) {
    && result.Output? && result.at.worker == g && result.at.session == s
    && OfSession(w.client.sessions, s, result.at.binary, result.at.fileName, result.at.mode)
    && result.at.asked == List && format == Some(w.client.sessions[s].bytes)
  }

  /** What a call asks of the worker once its session is set. */
  predicate Asks(call: Call, params: Params) {
    match params
    case List => call.LoadCall? || call.ListCall?
    case Decompile(target) => call == DecompileCall(target)
    case Project(name) => call == ProjectCall(name)
    case _ => false
  }

  ghost predicate TaskInv(w: World, t: Task) {
    && t.gen <= w.client.generation
    && (t.call.LoadCall? ==> t.call.session < |w.client.sessions|)
    && match t.pc
       case AwaitReady(_) => true
       case AwaitDetails(p, chosen) =>
         && chosen < |w.client.sessions|
         && (t.call.LoadCall? ==> t.call.session <= chosen)
         && (p.Issued? ==>
               && Posted(w, p.id, t.gen)
               && w.client.log[p.id - 1].params.SetBinary? && w.client.log[p.id - 1].params.session == chosen)
       case SessionSet => t.call.LoadCall? ==> SessionSent(w, t.gen, t.call.session)
       case AwaitResult(p) =>
         && !t.call.FormatCall?
         && (t.call.LoadCall? ==> SessionSent(w, t.gen, t.call.session))
         && (p.Issued? ==>
               && Posted(w, p.id, t.gen)
               && Asks(t.call, w.client.log[p.id - 1].params)
               && (t.call.LoadCall? && w.client.log[p.id - 1].worker == t.gen ==>
                     forall at | OutputOf(w, t.gen, p.id, at) :: t.call.session <= at.session))
       case Resolved(result, format) =>
         && (t.call.LoadCall? ==> RightInventory(w, t.gen, t.call.session, result, format))
         && (t.call.ListCall? || t.call.DecompileCall? || t.call.ProjectCall? ==>
               result.Output? && GoodSnapshot(w, t.gen, result.at) && Asks(t.call, result.at.asked))
       case Failed(_) => true
  }

  /** workerSession tells the truth: the worker took that session, and its format is known. */
  ghost predicate MirrorInv(w: World) {
    var c := w.client;
    c.workerSession.Some? ==>
      && HoldsAtLeast(w, c.worker, c.workerSession.value)
      && c.workerSession.value < |c.sessions|
      && c.sessions[c.workerSession.value].format == Some(c.sessions[c.workerSession.value].bytes)
  }

  ghost predicate Inv(w: World) {
    && ClientInv(w.client) && LogInv(w.client) && MirrorInv(w)
    && (forall g: Generation :: WorkerInv(w, g))
    && SettledInv(w)
    && (forall t | 0 <= t < |w.tasks| :: TaskInv(w, w.tasks[t]))
  }

  // ---------- how the client may change ----------

  /** Sessions keep their data, ids are only appended, settled promises stay settled, and a promise
      settled by the client's own doing is rejected. */
  ghost predicate Grows(c: Client, d: Client) {
    && |c.sessions| <= |d.sessions|
    && (forall s | 0 <= s < |c.sessions| ::
          && d.sessions[s].bytes == c.sessions[s].bytes && d.sessions[s].fileName == c.sessions[s].fileName
          && d.sessions[s].mode == c.sessions[s].mode
          && (c.sessions[s].format.Some? ==> d.sessions[s].format == c.sessions[s].format))
    && c.generation <= d.generation
    && c.log <= d.log
    && (forall i | |c.log| <= i < |d.log| && d.log[i].params.SetBinary? :: d.log[i].params.session + 1 >= |c.sessions|)
    && (forall id | id in c.settled :: id in d.settled && d.settled[id] == c.settled[id])
  }

  ghost predicate OnlyRejects(c: Client, d: Client) {
    forall id | id in d.settled && id !in c.settled :: d.settled[id].Err?
  }

  /** A setBinary request carries the newest session. */
  predicate OfNewestSession(c: Client, params: Params) {
    params.SetBinary? ==>
      && params.session + 1 == |c.sessions| && params.bytes == c.sessions[params.session].bytes
      && params.fileName == c.sessions[params.session].fileName && params.mode == c.sessions[params.session].mode
  }

  lemma LogSnoc(c: Client, d: Client, post: Post)
    requires LogInv(c) && d.log == c.log + [post] && d.sessions == c.sessions && OfNewestSession(c, post.params)
    ensures LogInv(d)
  {
  }

  lemma RequestKeeps(c: Client, params: Params, posted: bool)
    requires ClientInv(c) && LogInv(c)
    requires OfNewestSession(c, params)
    ensures var (d, p) := c.Request(params, posted);
            && ClientInv(d) && LogInv(d) && Grows(c, d) && OnlyRejects(c, d)
            && d.generation == c.generation && d.sessions == c.sessions && d.session == c.session
            && (p.Issued? ==>
                  && p.id == |d.log| && p.id !in c.settled && d.log == c.log + [Post(c.generation, params, posted)]
                  && (p.id in d.settled ==> d.settled[p.id].Err?))
  {
    if !c.closed && c.fatal.None? {
      LogSnoc(c, c.Request(params, posted).0, Post(c.generation, params, posted));
    }
    hide LogInv;
  }

  lemma RejectPendingKeeps(c: Client, error: Error)
    requires forall id :: 1 <= id <= |c.log| <==> id in c.pending || id in c.settled
    requires forall id | id in c.pending :: id !in c.settled
    ensures var d := c.RejectPending(error);
            && d == c.(pending := {}, settled := d.settled)
            && (forall id :: 1 <= id <= |d.log| <==> id in d.settled)
            && (forall id | id in c.settled :: id in d.settled && d.settled[id] == c.settled[id])
            && OnlyRejects(c, d)
  {
  }

  lemma SpawnKeeps(c: Client, posted: bool)
    requires (forall id :: 1 <= id <= |c.log| <==> id in c.settled) && c.pending == {} && !c.closed && LogInv(c)
    requires forall i | 0 <= i < |c.log| :: c.log[i].worker <= c.generation
    requires c.session.Some? ==> c.session.value + 1 == |c.sessions|
    requires forall s | 0 <= s < |c.sessions| :: c.sessions[s].format in {None, Some(c.sessions[s].bytes)}
    ensures var d := c.Spawn(posted);
            && ClientInv(d) && LogInv(d) && Grows(c, d) && OnlyRejects(c, d)
            && d.log == c.log + [Post(d.worker, Init, posted)] && d.pending == (if posted then {|d.log|} else {})
            && d.worker == d.generation == c.generation + 1
  {
  }

  /** cancel(): everything pending is rejected and only the new init is waited for. */
  lemma CancelKeeps(c: Client, posted: bool)
    requires ClientInv(c) && LogInv(c)
    ensures var d := c.Cancel(posted);
            ClientInv(d) && LogInv(d) && Grows(c, d) && OnlyRejects(c, d)
    ensures !c.closed ==>
              var d := c.Cancel(posted);
              && d.log == c.log + [Post(d.worker, Init, posted)]
              && d.pending == (if posted then {|d.log|} else {})
              && d.worker == d.generation > c.generation
  {
    if c.closed {
      hide LogInv;
      assert c.Cancel(posted) == c;
    } else {
      CancelRejects(c);
      CancelIs(c, posted);
      hide ClientInv, LogInv, Grows, OnlyRejects, Client.RejectPending, Client.Spawn, Client.Cancel;
      var r := c.(generation := c.generation + 1).RejectPending(Cancelled);
      SpawnKeeps(r, posted);
      GrowsThrough(c, r, c.Cancel(posted));
    }
  }

  lemma CancelIs(c: Client, posted: bool)
    requires !c.closed
    ensures c.Cancel(posted) == c.(generation := c.generation + 1).RejectPending(Cancelled).Spawn(posted)
  {
    hide Client.RejectPending, Client.Spawn;
  }

  /** The first half of a cancel: the generation moves on and nothing stays pending. */
  lemma CancelRejects(c: Client)
    requires ClientInv(c) && LogInv(c) && !c.closed
    ensures var r := c.(generation := c.generation + 1).RejectPending(Cancelled);
      && (forall id :: 1 <= id <= |r.log| <==> id in r.settled) && r.pending == {} && !r.closed && LogInv(r)
      && (forall i | 0 <= i < |r.log| :: r.log[i].worker <= r.generation)
      && (r.session.Some? ==> r.session.value + 1 == |r.sessions|)
      && (forall s | 0 <= s < |r.sessions| :: r.sessions[s].format in {None, Some(r.sessions[s].bytes)})
      && r.sessions == c.sessions && r.log == c.log && r.generation == c.generation + 1
      && (forall id | id in c.settled :: id in r.settled && r.settled[id] == c.settled[id]) && OnlyRejects(c, r)
  {
    var b := c.(generation := c.generation + 1);
    RejectPendingKeeps(b, Cancelled);
    hide Client.RejectPending;
  }

  lemma GrowsThrough(c: Client, r: Client, d: Client)
    requires r.sessions == c.sessions && r.log == c.log && r.generation >= c.generation
    requires forall id | id in c.settled :: id in r.settled && r.settled[id] == c.settled[id]
    requires OnlyRejects(c, r) && Grows(r, d) && OnlyRejects(r, d)
    ensures Grows(c, d) && OnlyRejects(c, d)
  {
  }

  lemma ClearKeeps(c: Client, posted: bool)
    requires ClientInv(c) && LogInv(c)
    ensures var d := c.Clear(posted); ClientInv(d) && LogInv(d) && Grows(c, d) && OnlyRejects(c, d)
  {
    CancelKeeps(c.(session := None), posted);
  }

  lemma CloseKeeps(c: Client)
    requires ClientInv(c) && LogInv(c)
    ensures var d := c.Close(); ClientInv(d) && LogInv(d) && Grows(c, d) && OnlyRejects(c, d)
  {
    RejectPendingKeeps(c.(closed := true, generation := c.generation + 1), Cancelled);
    hide RejectAll;
  }

  lemma FailWorkerKeeps(c: Client, error: Error, g: Generation)
    requires ClientInv(c) && LogInv(c)
    ensures var d := c.FailWorker(error, g); ClientInv(d) && LogInv(d) && Grows(c, d) && OnlyRejects(c, d)
  {
    RejectPendingKeeps(c.(fatal := Some(error)), error);
    hide RejectAll;
  }

  lemma StartLoadKeeps(c: Client, bytes: bytes, name: string, mode: string)
    requires ClientInv(c) && LogInv(c)
    ensures var (d, call) := c.StartLoad(bytes, name, mode);
            ClientInv(d) && LogInv(d) && Grows(c, d) && OnlyRejects(c, d) && call.session < |d.sessions|
  {
  }

  lemma BirthInv(posted: bool)
    ensures ClientInv(Initial(posted)) && LogInv(Initial(posted))
    ensures forall id | id in Initial(posted).settled :: Initial(posted).settled[id].Err?
  {
  }

  // ---------- how the world may change ----------

  ghost predicate Extends(w: World, v: World) {
    && Grows(w.client, v.client)
    && (forall g, s :: HoldsAtLeast(w, g, s) ==> HoldsAtLeast(v, g, s))
    && (forall g, id, at :: OutputOf(v, g, id, at) ==>
          OutputOf(w, g, id, at) || (w.WorkerOf(g).holds.Some? ==> at.session >= w.WorkerOf(g).holds.value))
  }

  lemma GoodResultStable(w: World, v: World, id: RequestId, result: Result)
    requires Extends(w, v) && GoodResult(w, id, result)
    ensures GoodResult(v, id, result)
  {
    hide OutputOf;
  }

  lemma TaskStable(w: World, v: World, t: Task)
    requires Extends(w, v) && TaskInv(w, t)
    ensures TaskInv(v, t)
  {
    hide OutputOf;
  }

  lemma WorkerStable(w: World, v: World, g: Generation)
    requires Extends(w, v) && WorkerInv(w, g) && w.WorkerOf(g) == v.WorkerOf(g)
    ensures WorkerInv(v, g)
  {
    var wk := w.WorkerOf(g);
    forall id | id in wk.jobs && wk.jobs[id].Computing? ensures GoodResult(v, id, Output(wk.jobs[id].at)) {
      GoodResultStable(w, v, id, Output(wk.jobs[id].at));
    }
    forall r | r in wk.replies && r.1.Ok? ensures GoodResult(v, r.0, r.1.result) {
      GoodResultStable(w, v, r.0, r.1.result);
    }
    hide GoodResult, OutputOf;
  }

  lemma SettledStable(w: World, v: World)
    requires Extends(w, v) && SettledInv(w) && OnlyRejects(w.client, v.client)
    ensures SettledInv(v)
  {
    forall id | id in v.client.settled && v.client.settled[id].Ok?
      ensures GoodResult(v, id, v.client.settled[id].result)
    {
      GoodResultStable(w, v, id, w.client.settled[id].result);
    }
  }

  /** Whatever only the client does extends the world. */
  lemma ClientStepExtends(w: World, d: Client)
    requires Grows(w.client, d) && OnlyRejects(w.client, d)
    ensures Extends(w, w.(client := d))
  {
  }

  /** The client forgets the worker's session or keeps it, with the worker. */
  predicate MirrorKept(c: Client, d: Client) {
    d.workerSession.Some? ==> d.workerSession == c.workerSession && d.worker == c.worker
  }

  lemma ClientStepKeeps(w: World, d: Client)
    requires Inv(w) && ClientInv(d) && LogInv(d) && Grows(w.client, d) && OnlyRejects(w.client, d)
    requires MirrorKept(w.client, d) || MirrorInv(w.(client := d))
    ensures Inv(w.(client := d)) && Extends(w, w.(client := d))
  {
    var v := w.(client := d);
    ClientStepExtends(w, d);
    hide Extends, TaskInv, WorkerInv, SettledInv;
    forall g: Generation ensures WorkerInv(v, g) {
      WorkerStable(w, v, g);
    }
    forall t | 0 <= t < |v.tasks| ensures TaskInv(v, v.tasks[t]) {
      TaskStable(w, v, w.tasks[t]);
    }
    SettledStable(w, v);
    if MirrorKept(w.client, d) {
      MirrorStable(w, v);
    }
  }

  lemma MirrorStable(w: World, v: World)
    requires MirrorInv(w) && Extends(w, v) && MirrorKept(w.client, v.client)
    ensures MirrorInv(v)
  {
    hide OutputOf;
  }

  // ---------- the worker's steps ----------

  /** The rest of the world is as before and worker g is now k. */
  lemma WorkerStepKeeps(w: World, g: Generation, k: Worker)
    requires Inv(w)
    requires var v := w.(workers := w.workers[g := k]); WorkerInv(v, g) && Extends(w, v)
    ensures Inv(w.(workers := w.workers[g := k]))
  {
    var v := w.(workers := w.workers[g := k]);
    hide Extends, TaskInv, WorkerInv, SettledInv, ClientInv, LogInv;
    forall h: Generation ensures WorkerInv(v, h) {
      if h != g {
        WorkerStable(w, v, h);
      }
    }
    forall t | 0 <= t < |v.tasks| ensures TaskInv(v, v.tasks[t]) {
      TaskStable(w, v, w.tasks[t]);
    }
    SettledStable(w, v);
    MirrorStable(w, v);
  }

  /** The next message to a worker carries no earlier session than the one the worker holds. */
  lemma TakenIsLater(w: World, g: Generation, id: RequestId)
    requires WorkerInv(w, g) && w.WorkerOf(g).taken < id && SentTo(w.client, id, g)
    requires w.WorkerOf(g).holds.Some? && w.client.log[id - 1].params.SetBinary?
    ensures w.WorkerOf(g).holds.value <= w.client.log[id - 1].params.session
  {
    assert SentTo(w.client, (id - 1) + 1, g);
  }

  ghost predicate Produces(k: Worker, id: RequestId, at: Snapshot) {
    (id in k.jobs && k.jobs[id] == Computing(at)) || (id, Ok(Output(at))) in k.replies
  }

  /** The session held never goes back, and new work starts from the session held. */
  ghost predicate WorkerGrows(wk: Worker, k: Worker) {
    && (wk.holds.Some? ==> k.holds.Some? && wk.holds.value <= k.holds.value)
    && forall id, at | Produces(k, id, at) ::
         Produces(wk, id, at) || (wk.holds.Some? ==> at.session >= wk.holds.value)
  }

  lemma WorkerGrowthExtends(w: World, g: Generation, k: Worker)
    requires WorkerGrows(w.WorkerOf(g), k)
    ensures Extends(w, w.(workers := w.workers[g := k]))
  {
    var v := w.(workers := w.workers[g := k]);
    forall h, id, at | OutputOf(v, h, id, at)
      ensures OutputOf(w, h, id, at) || (w.WorkerOf(h).holds.Some? ==> at.session >= w.WorkerOf(h).holds.value)
    {
      if h == g && Produces(k, id, at) {
        assert Produces(w.WorkerOf(g), id, at) ==> OutputOf(w, h, id, at);
      }
    }
  }

  lemma DispatchGrows(wk: Worker, g: Generation, id: RequestId, params: Params, named: bool)
    requires wk.holds.Some? && params.SetBinary? ==> wk.holds.value <= params.session
    ensures WorkerGrows(wk, wk.(taken := id).Dispatch(g, id, params, named))
  {
  }

  lemma FinishGrows(wk: Worker, id: RequestId, ok: bool)
    requires id in wk.jobs
    ensures WorkerGrows(wk, wk.Finish(id, ok))
  {
    var k := wk.Finish(id, ok);
    forall i, at | Produces(k, i, at) ensures Produces(wk, i, at) {
    }
  }

  lemma DispatchVariables(c: Client, g: Generation, wk: Worker, id: RequestId, named: bool)
    requires VariablesSound(c, g, wk) && LogInv(c) && wk.taken < id && SentTo(c, id, g)
    ensures VariablesSound(c, g, wk.(taken := id).Dispatch(g, id, c.log[id - 1].params, named))
  {
  }

  /** What a request gives at dispatch, judged in the world where the worker has moved on. */
  lemma DispatchWork(w: World, g: Generation, id: RequestId, named: bool)
    requires WorkSound(w, g, w.WorkerOf(g)) && VariablesSound(w.client, g, w.WorkerOf(g)) && LogInv(w.client)
    requires w.WorkerOf(g).taken < id && SentTo(w.client, id, g)
    requires var k := w.WorkerOf(g).(taken := id).Dispatch(g, id, w.client.log[id - 1].params, named);
             Extends(w, w.(workers := w.workers[g := k]))
    ensures var k := w.WorkerOf(g).(taken := id).Dispatch(g, id, w.client.log[id - 1].params, named);
            WorkSound(w.(workers := w.workers[g := k]), g, k)
  {
    var wk := w.WorkerOf(g);
    var k := wk.(taken := id).Dispatch(g, id, w.client.log[id - 1].params, named);
    var v := w.(workers := w.workers[g := k]);
    forall i | i in wk.jobs && wk.jobs[i].Computing? ensures GoodResult(v, i, Output(wk.jobs[i].at)) {
      GoodResultStable(w, v, i, Output(wk.jobs[i].at));
    }
    forall r | r in wk.replies && r.1.Ok? ensures GoodResult(v, r.0, r.1.result) {
      GoodResultStable(w, v, r.0, r.1.result);
    }
    hide Extends;
  }

  lemma FinishWork(w: World, g: Generation, id: RequestId, ok: bool)
    requires id in w.WorkerOf(g).jobs && WorkSound(w, g, w.WorkerOf(g))
    requires var k := w.WorkerOf(g).Finish(id, ok); Extends(w, w.(workers := w.workers[g := k]))
    ensures var k := w.WorkerOf(g).Finish(id, ok); WorkSound(w.(workers := w.workers[g := k]), g, k)
  {
    var wk := w.WorkerOf(g);
    var k := wk.Finish(id, ok);
    var v := w.(workers := w.workers[g := k]);
    forall i | i in wk.jobs && wk.jobs[i].Computing? ensures GoodResult(v, i, Output(wk.jobs[i].at)) {
      GoodResultStable(w, v, i, Output(wk.jobs[i].at));
    }
    forall r | r in wk.replies && r.1.Ok? ensures GoodResult(v, r.0, r.1.result) {
      GoodResultStable(w, v, r.0, r.1.result);
    }
    hide Extends;
  }

  lemma TakeKeeps(w: World, g: Generation, id: RequestId, named: bool)
    requires Inv(w) && Enabled(w, Take(g, id, named))
    ensures Inv(Next(w, Take(g, id, named)))
  {
    var wk, p := w.WorkerOf(g), w.client.log[id - 1].params;
    var k := wk.(taken := id).Dispatch(g, id, p, named);
    assert WorkerInv(w, g);
    if wk.holds.Some? && p.SetBinary? {
      TakenIsLater(w, g, id);
    }
    DispatchGrows(wk, g, id, p, named);
    WorkerGrowthExtends(w, g, k);
    DispatchVariables(w.client, g, wk, id, named);
    DispatchWork(w, g, id, named);
    WorkerStepKeeps(w, g, k);
  }

  lemma FinishKeeps(w: World, g: Generation, id: RequestId, ok: bool)
    requires Inv(w) && Enabled(w, Finish(g, id, ok))
    ensures Inv(Next(w, Finish(g, id, ok)))
  {
    var wk := w.WorkerOf(g);
    var k := wk.Finish(id, ok);
    assert WorkerInv(w, g);
    FinishGrows(wk, id, ok);
    WorkerGrowthExtends(w, g, k);
    FinishWork(w, g, id, ok);
    WorkerStepKeeps(w, g, k);
  }

  // ---------- delivery ----------

  /** A reply that is accepted comes from the current worker, answers a pending id, and settles it. */
  lemma DeliverClient(w: World, g: Generation, id: RequestId, outcome: Outcome)
    requires ClientInv(w.client) && LogInv(w.client) && WorkerInv(w, g) && (id, outcome) in w.WorkerOf(g).replies
    ensures var c, d := w.client, w.client.OnMessage(g, id, outcome);
            && ClientInv(d) && LogInv(d) && Grows(c, d) && MirrorKept(c, d) && d.sessions == c.sessions && d.log == c.log
            && (d != c ==> g == c.worker && id in c.pending && d.settled == c.settled[id := outcome])
            && (d == c || d.pending == c.pending - {id})
  {
    assert SentTo(w.client, id, g);
    hide GoodResult;
  }

  lemma DeliverExtends(w: World, g: Generation, id: RequestId, outcome: Outcome)
    requires ClientInv(w.client) && LogInv(w.client) && WorkerInv(w, g) && (id, outcome) in w.WorkerOf(g).replies
    ensures Extends(w, Next(w, Deliver(g, id, outcome)))
  {
    var v := Next(w, Deliver(g, id, outcome));
    DeliverClient(w, g, id, outcome);
    assert SentTo(w.client, id, g);
    if outcome.Ok? {
      assert GoodResult(w, id, outcome.result);
    }
    hide WorkSound, VariablesSound, ClientInv, LogInv, Grows;
    forall h, i, at | OutputOf(v, h, i, at) ensures OutputOf(w, h, i, at) {
      if i in v.client.settled && v.client.settled[i] == Ok(Output(at)) && at.worker == h {
        if !(i in w.client.settled && w.client.settled[i] == Ok(Output(at))) {
          assert i == id && outcome == Ok(Output(at));
          assert w.client.log[id - 1].worker == g && GoodResult(w, id, Output(at));
          OutputWorker(w, id, at);
        }
      }
    }
  }

  lemma OutputWorker(w: World, id: RequestId, at: Snapshot)
    requires GoodResult(w, id, Output(at))
    ensures at.worker == w.client.log[id - 1].worker
  {
  }

  lemma DeliverKeeps(w: World, g: Generation, id: RequestId, outcome: Outcome)
    requires Inv(w) && Enabled(w, Deliver(g, id, outcome))
    ensures Inv(Next(w, Deliver(g, id, outcome)))
  {
    var v := Next(w, Deliver(g, id, outcome));
    assert WorkerInv(w, g);
    DeliverClient(w, g, id, outcome);
    DeliverExtends(w, g, id, outcome);
    assert WorkerInv(v, g) by { DeliverWorker(w, g, id, outcome); }
    if outcome.Ok? {
      assert GoodResult(w, id, outcome.result) by { hide GoodResult; }
    }
    hide Extends, TaskInv, WorkerInv, ClientInv, LogInv, GoodResult, MirrorInv;
    forall h: Generation ensures WorkerInv(v, h) {
      if h != g {
        WorkerStable(w, v, h);
      }
    }
    forall t | 0 <= t < |v.tasks| ensures TaskInv(v, v.tasks[t]) {
      TaskStable(w, v, w.tasks[t]);
    }
    forall i | i in v.client.settled && v.client.settled[i].Ok?
      ensures GoodResult(v, i, v.client.settled[i].result)
    {
      GoodResultStable(w, v, i, v.client.settled[i].result);
    }
    MirrorStable(w, v);
  }

  lemma DeliverWorker(w: World, g: Generation, id: RequestId, outcome: Outcome)
    requires WorkerInv(w, g) && (id, outcome) in w.WorkerOf(g).replies && w.client.Linked()
    requires Extends(w, Next(w, Deliver(g, id, outcome)))
    requires var d := w.client.OnMessage(g, id, outcome); d.sessions == w.client.sessions && d.log == w.client.log
    ensures WorkerInv(Next(w, Deliver(g, id, outcome)), g)
  {
    var v, wk := Next(w, Deliver(g, id, outcome)), w.WorkerOf(g);
    forall i | i in wk.jobs && wk.jobs[i].Computing? ensures GoodResult(v, i, Output(wk.jobs[i].at)) {
      GoodResultStable(w, v, i, Output(wk.jobs[i].at));
    }
    forall r | r in wk.replies && r.1.Ok? ensures GoodResult(v, r.0, r.1.result) {
      GoodResultStable(w, v, r.0, r.1.result);
    }
    hide Extends, GoodResult;
  }

  // ---------- the async methods resume ----------

  /** The branch of AfterReady that posts setBinary. */
  lemma AskDetails(w: World, t: Task, posted: bool)
    requires Inv(w) && TaskInv(w, t) && t.pc.AwaitReady? && OutcomeOf(w.client, t.pc.promise).Some?
    requires var c := w.client;
             OutcomeOf(c, t.pc.promise).value.Ok? && t.gen == c.generation && c.session.Some? && c.workerSession != c.session
    ensures var (d, pc) := w.client.AfterReady(t.gen, OutcomeOf(w.client, t.pc.promise).value, posted);
            Inv(w.(client := d)) && TaskInv(w.(client := d), t.(pc := pc))
  {
    var c := w.client;
    var s := c.sessions[c.session.value];
    var params := SetBinary(c.session.value, s.bytes, s.fileName, s.mode);
    RequestStepKeeps(w, params, posted);
    RequestKeeps(c, params, posted);
    hide WorkerInv, SettledInv, OutputOf, MirrorInv, Inv, ClientInv, Grows;
  }

  /** Posting a request keeps the invariant of the whole. */
  lemma RequestStepKeeps(w: World, params: Params, posted: bool)
    requires Inv(w) && OfNewestSession(w.client, params)
    ensures Inv(w.(client := w.client.Request(params, posted).0))
  {
    RequestKeeps(w.client, params, posted);
    hide WorkerInv, SettledInv, OutputOf, TaskInv;
    ClientStepKeeps(w, w.client.Request(params, posted).0);
  }

  lemma AfterReadyKeeps(w: World, t: Task, posted: bool)
    requires Inv(w) && TaskInv(w, t) && t.pc.AwaitReady? && OutcomeOf(w.client, t.pc.promise).Some?
    ensures var (d, pc) := w.client.AfterReady(t.gen, OutcomeOf(w.client, t.pc.promise).value, posted);
            Inv(w.(client := d)) && TaskInv(w.(client := d), t.(pc := pc))
  {
    hide WorkerInv, SettledInv;
    var c := w.client;
    var outcome := OutcomeOf(c, t.pc.promise).value;
    if outcome.Ok? && t.gen == c.generation && c.session.Some? && c.workerSession != c.session {
      AskDetails(w, t, posted);
    } else {
      var (d, pc) := c.AfterReady(t.gen, outcome, posted);
      assert d == c && w.(client := d) == w;
    }
  }

  /** The setBinary reply proves the worker took the session, if the generation still stands. */
  lemma DetailsAreTrue(w: World, t: Task)
    requires Inv(w) && TaskInv(w, t) && t.pc.AwaitDetails? && t.gen == w.client.generation
    requires OutcomeOf(w.client, t.pc.promise).Some? && OutcomeOf(w.client, t.pc.promise).value.Ok?
    ensures var chosen := t.pc.chosen;
            && chosen < |w.client.sessions| && HoldsAtLeast(w, w.client.worker, chosen) && !w.client.closed
            && OutcomeOf(w.client, t.pc.promise).value.result == Details(w.client.sessions[chosen].bytes)
            && w.client.worker == t.gen
  {
    var id := t.pc.promise.id;
    assert GoodResult(w, id, w.client.settled[id].result);
    hide WorkerInv, SettledInv, OutputOf, LogInv;
  }

  lemma FormatKnown(w: World, chosen: SessionId)
    requires ClientInv(w.client) && LogInv(w.client) && !w.client.closed
    requires chosen < |w.client.sessions| && HoldsAtLeast(w, w.client.worker, chosen)
    ensures var c := w.client;
            var known := c.sessions[chosen].(format := Some(c.sessions[chosen].bytes));
            var d := c.(sessions := c.sessions[chosen := known], workerSession := Some(chosen));
            ClientInv(d) && LogInv(d) && Grows(c, d) && OnlyRejects(c, d) && MirrorInv(w.(client := d))
  {
  }

  lemma AfterDetailsKeeps(w: World, t: Task)
    requires Inv(w) && TaskInv(w, t) && t.pc.AwaitDetails? && OutcomeOf(w.client, t.pc.promise).Some?
    ensures var (d, pc) := w.client.AfterDetails(t.gen, OutcomeOf(w.client, t.pc.promise).value, t.pc.chosen);
            Inv(w.(client := d)) && TaskInv(w.(client := d), t.(pc := pc))
  {
    var c, chosen := w.client, t.pc.chosen;
    var outcome := OutcomeOf(c, t.pc.promise).value;
    var (d, pc) := c.AfterDetails(t.gen, outcome, chosen);
    if outcome.Ok? && t.gen == c.generation && c.session == Some(chosen) {
      DetailsAreTrue(w, t);
      FormatKnown(w, chosen);
      hide WorkerInv, SettledInv, OutputOf, LogInv, ClientInv, Grows, OnlyRejects, Extends, MirrorInv;
      ClientStepKeeps(w, d);
    } else {
      assert d == c && w.(client := d) == w;
      hide WorkerInv, SettledInv;
    }
  }

  /** A fresh request has produced nothing yet. */
  lemma NothingProduced(w: World, d: Client, g: Generation, id: RequestId)
    requires WorkerInv(w, g) && id > |w.client.log| && (id in d.settled ==> d.settled[id].Err?)
    ensures forall at :: !OutputOf(w.(client := d), g, id, at)
  {
    hide GoodResult;
  }

  function QueryOf(call: Call): Params {
    match call
    case DecompileCall(target) => Decompile(target)
    case ProjectCall(name) => Project(name)
    case _ => List
  }

  lemma AskTask(w: World, t: Task, posted: bool)
    requires ClientInv(w.client) && LogInv(w.client) && WorkerInv(w, t.gen)
    requires TaskInv(w, t) && t.pc.SessionSet? && !t.call.FormatCall?
    ensures var (d, p) := w.client.Request(QueryOf(t.call), posted);
            Extends(w, w.(client := d)) ==> TaskInv(w.(client := d), t.(pc := AwaitResult(p)))
  {
    var (d, p) := w.client.Request(QueryOf(t.call), posted);
    RequestKeeps(w.client, QueryOf(t.call), posted);
    if Extends(w, w.(client := d)) {
      TaskStable(w, w.(client := d), t);
      if p.Issued? {
        NothingProduced(w, d, t.gen, p.id);
      }
    }
    hide WorkerInv, OutputOf, LogInv, Extends, Grows;
  }

  lemma AfterSessionKeeps(w: World, t: Task, posted: bool)
    requires Inv(w) && TaskInv(w, t) && t.pc.SessionSet?
    ensures var (d, pc) := w.client.AfterSession(t.call, posted);
            Inv(w.(client := d)) && TaskInv(w.(client := d), t.(pc := pc))
  {
    hide WorkerInv, SettledInv, LogInv, MirrorInv;
    var c := w.client;
    if t.call.FormatCall? {
      assert w.(client := c) == w;
    } else {
      var (d, p) := c.Request(QueryOf(t.call), posted);
      RequestKeeps(c, QueryOf(t.call), posted);
      assert WorkerInv(w, t.gen);
      AskTask(w, t, posted);
      hide TaskInv, ClientInv, Extends, Grows, OnlyRejects;
      ClientStepKeeps(w, d);
    }
  }

  /** An output that settled a request whose caller's generation still stands is the current worker's. */
  lemma OutputIsCurrent(w: World, t: Task)
    requires Inv(w) && TaskInv(w, t) && t.pc.AwaitResult? && t.gen == w.client.generation
    requires OutcomeOf(w.client, t.pc.promise).Some? && OutcomeOf(w.client, t.pc.promise).value.Ok?
    ensures var result := OutcomeOf(w.client, t.pc.promise).value.result;
            && result.Output? && GoodSnapshot(w, t.gen, result.at) && t.gen == w.client.worker
            && Asks(t.call, result.at.asked)
            && (t.call.LoadCall? ==> t.call.session <= result.at.session)
  {
    var id := t.pc.promise.id;
    var result := w.client.settled[id].result;
    assert GoodResult(w, id, result);
    assert w.client.log[id - 1].worker == t.gen;
    assert OutputOf(w, t.gen, id, result.at);
    hide WorkerInv, SettledInv, LogInv;
  }

  lemma AfterResultKeeps(w: World, t: Task)
    requires Inv(w) && TaskInv(w, t) && t.pc.AwaitResult? && OutcomeOf(w.client, t.pc.promise).Some?
    ensures TaskInv(w, t.(pc := w.client.AfterResult(t.gen, t.call, OutcomeOf(w.client, t.pc.promise).value)))
  {
    if OutcomeOf(w.client, t.pc.promise).value.Ok? && t.gen == w.client.generation {
      OutputIsCurrent(w, t);
    }
    hide WorkerInv, SettledInv, LogInv, OutputOf;
  }

  lemma ResumeKeeps(w: World, i: nat, posted: bool)
    requires Inv(w) && Enabled(w, Resume(i, posted))
    ensures Inv(Next(w, Resume(i, posted)))
  {
    var t := w.tasks[i];
    assert TaskInv(w, t);
    ResumedTask(w, t, posted);
    var (d, pc) := ResumeTask(w.client, t, posted);
    hide Inv, TaskInv, ResumeTask;
    TaskChange(w.(client := d), w.tasks[i := t.(pc := pc)]);
  }

  lemma ResumedTask(w: World, t: Task, posted: bool)
    requires Inv(w) && TaskInv(w, t) && CanResume(w.client, t.pc)
    ensures var (d, pc) := ResumeTask(w.client, t, posted);
            Inv(w.(client := d)) && TaskInv(w.(client := d), t.(pc := pc))
  {
    hide Inv, TaskInv, OutcomeOf;
    match t.pc
    case AwaitReady(_) => AfterReadyKeeps(w, t, posted);
    case AwaitDetails(_, _) => AfterDetailsKeeps(w, t);
    case SessionSet => AfterSessionKeeps(w, t, posted);
    case AwaitResult(_) => AfterResultKeeps(w, t); assert w.(client := w.client) == w;
  }

  /** Tasks play no part in the rest of the invariant. */
  lemma TaskChange(w: World, tasks: seq<Task>)
    requires Inv(w) && forall i | 0 <= i < |tasks| :: tasks[i] in w.tasks || TaskInv(w, tasks[i])
    ensures Inv(w.(tasks := tasks))
  {
    var v := w.(tasks := tasks);
    assert Extends(w, v) by { ClientStepExtends(w, w.client); OutputSame(w, v); }
    hide Extends, TaskInv, WorkerInv, ClientInv, LogInv;
    forall g: Generation ensures WorkerInv(v, g) {
      WorkerStable(w, v, g);
    }
    forall i | 0 <= i < |tasks| ensures TaskInv(v, tasks[i]) {
      TaskStable(w, v, tasks[i]);
    }
    SettledStable(w, v);
    MirrorStable(w, v);
  }

  lemma OutputSame(w: World, v: World)
    requires v.client == w.client && v.workers == w.workers
    ensures Extends(w, v)
  {
  }

  // ---------- every step, every run ----------

  lemma StartKeeps(w: World, call: Call)
    requires Inv(w) && !call.LoadCall?
    ensures Inv(Next(w, Start(call)))
  {
    TaskChange(w, w.tasks + [Task(call, w.client.generation, AwaitReady(w.client.ready))]);
  }

  lemma LoadKeeps(w: World, bytes: bytes, name: string, mode: string)
    requires Inv(w)
    ensures Inv(Next(w, Load(bytes, name, mode)))
  {
    var c := w.client;
    var (d, call) := c.StartLoad(bytes, name, mode);
    StartLoadKeeps(c, bytes, name, mode);
    ClientStepKeeps(w, d);
    TaskChange(w.(client := d), w.tasks + [Task(call, c.generation, AwaitReady(c.ready))]);
  }

  /** The invariant survives every enabled event. */
  lemma StepKeepsInv(w: World, e: Event)
    requires Inv(w) && Enabled(w, e)
    ensures Inv(Next(w, e))
  {
    hide Inv, Enabled, Next;
    match e
    case Load(bytes, name, mode) => LoadKeeps(w, bytes, name, mode);
    case Start(call) => assert !call.LoadCall? by { EnabledStart(w, call); } StartKeeps(w, call);
    case Resume(i, posted) => ResumeKeeps(w, i, posted);
    case Take(g, id, named) => TakeKeeps(w, g, id, named);
    case Finish(g, id, ok) => FinishKeeps(w, g, id, ok);
    case Deliver(g, id, outcome) => DeliverKeeps(w, g, id, outcome);
    case _ => ControlKeeps(w, e);
  }

  lemma EnabledStart(w: World, call: Call)
    requires Enabled(w, Start(call))
    ensures !call.LoadCall?
  {
  }

  /** Worker errors, cancel, clear and close. */
  lemma ControlKeeps(w: World, e: Event)
    requires Inv(w) && (e.WorkerError? || e.MessageError? || e.Cancel? || e.Clear? || e.Close?)
    ensures Inv(Next(w, e))
  {
    hide Grows, OnlyRejects, LogInv, WorkerInv, SettledInv;
    var c := w.client;
    match e {
      case WorkerError(g) => FailWorkerKeeps(c, if c.starting then StartupFailed else WorkerFailed, g);
      case MessageError(g) => FailWorkerKeeps(c, Unreadable, g);
      case Cancel(posted) => CancelKeeps(c, posted);
      case Clear(posted) => ClearKeeps(c, posted);
      case Close => CloseKeeps(c);
    }
    var d := Next(w, e).client;
    assert ClientInv(d) && LogInv(d) && Grows(c, d) && OnlyRejects(c, d);
    ClientStepKeeps(w, d);
  }

  lemma BeginInv(posted: bool)
    ensures Inv(Begin(posted))
  {
    BirthInv(posted);
  }

  /** The events form a run from w. */
  ghost predicate IsRun(w: World, events: seq<Event>)
    decreases |events|
  {
    events == [] || (w.client.Linked() && Enabled(w, events[0]) && IsRun(Next(w, events[0]), events[1..]))
  }

  ghost function After(w: World, events: seq<Event>): World
    requires IsRun(w, events)
    decreases |events|
  {
    if events == [] then w else After(Next(w, events[0]), events[1..])
  }

  lemma {:induction false} RunKeepsInv(w: World, events: seq<Event>)
    requires Inv(w) && IsRun(w, events)
    ensures Inv(After(w, events))
    decreases |events|
  {
    hide Inv, Next, Enabled;
    if events != [] {
      StepKeepsInv(w, events[0]);
      RunKeepsInv(Next(w, events[0]), events[1..]);
    }
  }

  // ---------- what the invariant gives ----------

  /** Sessions keep their data and settled promises their outcome from one step to the next. */
  lemma StepGrows(w: World, e: Event)
    requires Inv(w) && Enabled(w, e)
    ensures Grows(w.client, Next(w, e).client)
  {
    hide Grows, LogInv, WorkerInv, SettledInv, TaskInv, MirrorInv;
    var c := w.client;
    GrowsRefl(c);
    match e
    case Load(bytes, name, mode) => StartLoadKeeps(c, bytes, name, mode);
    case Resume(i, posted) => assert TaskInv(w, w.tasks[i]); ResumeGrows(w, w.tasks[i], posted);
    case Deliver(g, id, outcome) => assert WorkerInv(w, g); DeliverClient(w, g, id, outcome);
    case WorkerError(g) => FailWorkerKeeps(c, if c.starting then StartupFailed else WorkerFailed, g);
    case MessageError(g) => FailWorkerKeeps(c, Unreadable, g);
    case Cancel(posted) => CancelKeeps(c, posted);
    case Clear(posted) => ClearKeeps(c, posted);
    case Close => CloseKeeps(c);
    case _ =>
  }

  lemma GrowsRefl(c: Client)
    ensures Grows(c, c)
  {
  }

  lemma GrowsTrans(c: Client, d: Client, f: Client)
    requires Grows(c, d) && Grows(d, f)
    ensures Grows(c, f)
  {
    assert forall i | |c.log| <= i < |d.log| :: d.log[i] == f.log[i];
  }

  lemma ResumeGrows(w: World, t: Task, posted: bool)
    requires Inv(w) && TaskInv(w, t) && CanResume(w.client, t.pc)
    ensures Grows(w.client, ResumeTask(w.client, t, posted).0)
  {
    hide Grows, LogInv, WorkerInv, SettledInv, MirrorInv, GoodResult;
    var c := w.client;
    GrowsRefl(c);
    match t.pc
    case AwaitReady(_) =>
      if c.session.Some? {
        var s := c.sessions[c.session.value];
        RequestKeeps(c, SetBinary(c.session.value, s.bytes, s.fileName, s.mode), posted);
      }
    case AwaitDetails(p, chosen) =>
      if OutcomeOf(c, p).value.Ok? && t.gen == c.generation && c.session == Some(chosen) {
        DetailsAreTrue(w, t);
        FormatKnown(w, chosen);
      }
    case SessionSet => RequestKeeps(c, QueryOf(t.call), posted);
    case _ =>
  }

  lemma CallsStay(w: World, e: Event)
    requires w.client.Linked() && Enabled(w, e)
    ensures var v := Next(w, e);
            |w.tasks| <= |v.tasks| && forall i | 0 <= i < |w.tasks| :: v.tasks[i].call == w.tasks[i].call
  {
    hide ResumeTask;
  }

  lemma {:induction false} RunGrows(w: World, events: seq<Event>)
    requires Inv(w) && IsRun(w, events)
    ensures var v := After(w, events);
            && Grows(w.client, v.client) && |w.tasks| <= |v.tasks|
            && forall i | 0 <= i < |w.tasks| :: v.tasks[i].call == w.tasks[i].call
    decreases |events|
  {
    hide Inv, Enabled, Grows;
    if events == [] {
      GrowsRefl(w.client);
    } else {
      var u := Next(w, events[0]);
      CallsStay(w, events[0]);
      hide Next;
      StepGrows(w, events[0]);
      StepKeepsInv(w, events[0]);
      RunGrows(u, events[1..]);
      GrowsTrans(w.client, u.client, After(w, events).client);
    }
  }

  /** When load() resolves, its inventory was computed by the current worker while that worker's
      binary, file name and mode were those given to this load, and its format is that binary's;
      whatever else was called, answered, failed or cancelled in between. */
  lemma LoadResolvesWithItsBinary(before: World, bytes: bytes, fileName: string, mode: string, events: seq<Event>,
                                  posted: bool)
    requires Inv(before) && IsRun(Next(before, Load(bytes, fileName, mode)), events)
    requires var i, w := |before.tasks|, After(Next(before, Load(bytes, fileName, mode)), events);
             && w.client.Linked() && Enabled(w, Resume(i, posted))
             && Next(w, Resume(i, posted)).tasks[i].pc.Resolved?
    ensures var i, w := |before.tasks|, After(Next(before, Load(bytes, fileName, mode)), events);
            var Resolved(result, format) := Next(w, Resume(i, posted)).tasks[i].pc;
            && result.Output? && result.at.worker == w.client.worker == w.client.generation
            && result.at.binary == bytes && result.at.fileName == (if fileName == "" then "binary" else fileName)
            && result.at.mode == (if mode == "" then "auto" else mode) && result.at.asked == List
            && format == Some(bytes)
            && w.client.session == Some(|before.client.sessions|)
  {
    var i, start := |before.tasks|, Next(before, Load(bytes, fileName, mode));
    LoadKeeps(before, bytes, fileName, mode);
    RunKeepsInv(start, events);
    RunGrows(start, events);
    var w := After(start, events);
    assert start.tasks[i].call == LoadCall(|before.client.sessions|);
    hide After, IsRun;
    ResolvedLoad(w, i, posted, |before.client.sessions|);
  }

  lemma ResolvedLoad(w: World, i: nat, posted: bool, s: SessionId)
    requires Inv(w) && Enabled(w, Resume(i, posted)) && w.tasks[i].call == LoadCall(s)
    requires Next(w, Resume(i, posted)).tasks[i].pc.Resolved?
    ensures var Resolved(result, format) := Next(w, Resume(i, posted)).tasks[i].pc;
            RightInventory(w, w.client.worker, s, result, format)
            && w.client.session == Some(s) && w.client.worker == w.client.generation
  {
    var t := w.tasks[i];
    assert TaskInv(w, t);
    assert t.pc.AwaitResult?;
    OutputIsCurrent(w, t);
    AfterResultKeeps(w, t);
    hide WorkerInv, SettledInv, LogInv, OutputOf, MirrorInv;
  }

  /** list(), decompile() and project() resolve with an output the current worker computed for exactly what
      was asked, from the variables of one loaded session, never a mixture of two. */
  lemma QueriesResolveConsistently(w: World, i: nat, posted: bool)
    requires Inv(w) && Enabled(w, Resume(i, posted)) && !w.tasks[i].call.LoadCall? && !w.tasks[i].call.FormatCall?
    requires Next(w, Resume(i, posted)).tasks[i].pc.Resolved?
    ensures var result := Next(w, Resume(i, posted)).tasks[i].pc.result;
            && result.Output? && result.at.worker == w.client.worker == w.client.generation
            && OfSession(w.client.sessions, result.at.session, result.at.binary, result.at.fileName, result.at.mode)
            && result.at.asked == match w.tasks[i].call
                                  case DecompileCall(target) => Decompile(target)
                                  case ProjectCall(name) => Project(name)
                                  case _ => List
  {
    var t := w.tasks[i];
    assert TaskInv(w, t);
    assert t.pc.AwaitResult?;
    OutputIsCurrent(w, t);
    hide WorkerInv, SettledInv, LogInv, OutputOf, MirrorInv;
  }

  /** Over every run, a call that waits for its answer waits for the request it made: decompile for its target,
      project for its name, load and list for the inventory. */
  lemma CallsPostWhatTheyAsk(posted: bool, events: seq<Event>, i: nat, id: RequestId)
    requires IsRun(Begin(posted), events)
    requires var w := After(Begin(posted), events); i < |w.tasks| && w.tasks[i].pc == AwaitResult(Issued(id))
    ensures var w := After(Begin(posted), events);
            var call := w.tasks[i].call;
            && 1 <= id <= |w.client.log| && !call.FormatCall?
            && (call.LoadCall? || call.ListCall? ==> w.client.log[id - 1].params == List)
            && (call.DecompileCall? ==> w.client.log[id - 1].params == Decompile(call.target))
            && (call.ProjectCall? ==> w.client.log[id - 1].params == Project(call.displayName))
  {
    BeginInv(posted);
    RunKeepsInv(Begin(posted), events);
    var w := After(Begin(posted), events);
    assert TaskInv(w, w.tasks[i]);
    hide SettledInv, WorkerInv, LogInv, MirrorInv, ClientInv, After, IsRun, OutputOf;
  }

  /** Over every run, a call that has resolved has the output for exactly what it asked, and nobody else's. */
  lemma CallsResolveWithWhatTheyAsked(posted: bool, events: seq<Event>, i: nat)
    requires IsRun(Begin(posted), events)
    requires var w := After(Begin(posted), events); i < |w.tasks| && w.tasks[i].pc.Resolved? && !w.tasks[i].call.FormatCall?
    ensures var t := After(Begin(posted), events).tasks[i];
            && t.pc.result.Output?
            && (t.call.LoadCall? || t.call.ListCall? ==> t.pc.result.at.asked == List)
            && (t.call.DecompileCall? ==> t.pc.result.at.asked == Decompile(t.call.target))
            && (t.call.ProjectCall? ==> t.pc.result.at.asked == Project(t.call.displayName))
  {
    BeginInv(posted);
    RunKeepsInv(Begin(posted), events);
    var w := After(Begin(posted), events);
    assert TaskInv(w, w.tasks[i]);
    hide SettledInv, WorkerInv, LogInv, MirrorInv, ClientInv, After, IsRun, OutputOf;
  }

  /** Over every run: each id issued so far is waited for or settled, not both; a closed or failed
      client waits for nothing; and nothing is awaited from a worker that was replaced. */
  lemma EveryRequestAccountedFor(posted: bool, events: seq<Event>)
    requires IsRun(Begin(posted), events)
    ensures var c := After(Begin(posted), events).client;
            && (forall id :: 1 <= id < c.NextId() <==> id in c.pending || id in c.settled)
            && c.pending !! c.settled.Keys
            && (c.closed || c.fatal.Some? ==> c.pending == {})
            && (forall id | id in c.pending :: SentTo(c, id, c.worker))
  {
    hide TaskInv, SettledInv, WorkerInv, LogInv, MirrorInv, After, IsRun;
    BeginInv(posted);
    RunKeepsInv(Begin(posted), events);
  }

  /** No step reuses an id or settles a promise twice: ids are handed out upwards, a settled promise
      keeps its outcome, and a promise settled by a step was pending or just issued. */
  lemma SettledAtMostOnce(w: World, e: Event)
    requires Inv(w) && Enabled(w, e)
    ensures var c, d := w.client, Next(w, e).client;
            && c.NextId() <= d.NextId()
            && (forall id | id in c.settled :: id in d.settled && d.settled[id] == c.settled[id])
            && (forall id | id in d.settled && id !in c.settled :: id in c.pending || c.NextId() <= id)
            && (forall id | id in d.pending && id !in c.pending :: c.NextId() <= id)
  {
    StepGrows(w, e);
    StepKeepsInv(w, e);
    var c, d := w.client, Next(w, e).client;
    assert ClientInv(c) && ClientInv(d);
    hide Next, TaskInv, WorkerInv, SettledInv, LogInv, MirrorInv, Enabled;
    assert forall id | id in d.settled :: 1 <= id;
  }

  /** A superseded worker's messages and errors change nothing in the client. */
  lemma SupersededWorkerIsIgnored(w: World, e: Event)
    requires Inv(w) && Enabled(w, e) && (e.Deliver? || e.WorkerError? || e.MessageError?)
    requires e.g != w.client.worker
    ensures Next(w, e).client == w.client
  {
    if e.Deliver? {
      assert WorkerInv(w, e.g);
      DeliverClient(w, e.g, e.id, e.outcome);
    }
    hide TaskInv, WorkerInv, SettledInv, LogInv, MirrorInv;
  }

  /** Right after cancel() on an open client only the new worker's init is pending. */
  lemma OnlyInitAfterCancel(w: World, posted: bool)
    requires Inv(w) && !w.client.closed
    ensures var c := Next(w, Cancel(posted)).client;
            && c.pending == (if posted then {|c.log|} else {})
            && c.log[|c.log| - 1] == Post(c.worker, Init, posted)
            && c.worker > w.client.worker && c.fatal.None? && c.workerSession.None?
  {
    CancelKeeps(w.client, posted);
    hide TaskInv, WorkerInv, SettledInv, LogInv, MirrorInv;
  }

  /** A call that started before the generation moved on fails at its next await, with the error of what it
      waited for or as cancelled. */
  lemma StaleCallsFail(w: World, i: nat, posted: bool)
    requires w.client.Linked() && Enabled(w, Resume(i, posted))
    requires w.tasks[i].gen != w.client.generation && !w.tasks[i].pc.SessionSet?
    ensures var outcome := OutcomeOf(w.client, w.tasks[i].pc.promise).value;
            Next(w, Resume(i, posted)).tasks[i].pc == Failed(if outcome.Err? then outcome.error else Cancelled)
    ensures Next(w, Resume(i, posted)).client == w.client
  {
  }

  /** format() resolves with the format of the newest session's bytes, or with none if it is not known yet. */
  lemma FormatIsCurrent(w: World, i: nat, posted: bool)
    requires Inv(w) && Enabled(w, Resume(i, posted)) && w.tasks[i].call.FormatCall?
    requires Next(w, Resume(i, posted)).tasks[i].pc.Resolved?
    ensures w.client.session.Some? && w.client.session.value + 1 == |w.client.sessions|
    ensures Next(w, Resume(i, posted)).tasks[i].pc.format in {None, Some(w.client.sessions[w.client.session.value].bytes)}
  {
    var t := w.tasks[i];
    assert TaskInv(w, t);
    assert t.pc.SessionSet?;
    hide WorkerInv, SettledInv, LogInv, OutputOf, MirrorInv;
  }

  // ---------- startup failures ----------

  /** The current worker is still starting as long as it has answered no request well. */
  ghost predicate StartingInv(c: Client) {
    c.starting <==> forall id | id in c.settled && c.settled[id].Ok? && 1 <= id <= |c.log| :: c.log[id - 1].worker != c.worker
  }

  lemma StartingGrows(c: Client, d: Client)
    requires ClientInv(c) && StartingInv(c) && Grows(c, d) && OnlyRejects(c, d)
    requires d.starting == c.starting && d.worker == c.worker
    ensures StartingInv(d)
  {
    hide LogInv;
    assert forall id | id in d.settled && d.settled[id].Ok? :: id in c.settled && d.settled[id] == c.settled[id];
    assert forall id | id in c.settled :: 1 <= id <= |c.log| && d.log[id - 1] == c.log[id - 1];
  }

  lemma StartingSpawned(c: Client, posted: bool)
    requires ClientInv(c) && LogInv(c) && !c.closed
    ensures StartingInv(c.Cancel(posted))
  {
    CancelKeeps(c, posted);
    var d := c.Cancel(posted);
    assert d.starting by { CancelIs(c, posted); }
    assert forall id | id in d.settled && d.settled[id].Ok? :: id in c.settled && d.settled[id] == c.settled[id];
    hide Client.Cancel, LogInv;
  }

  lemma StartingDelivered(w: World, g: Generation, id: RequestId, outcome: Outcome)
    requires Inv(w) && StartingInv(w.client) && Enabled(w, Deliver(g, id, outcome))
    ensures StartingInv(w.client.OnMessage(g, id, outcome))
  {
    var c, d := w.client, w.client.OnMessage(g, id, outcome);
    assert WorkerInv(w, g);
    DeliverClient(w, g, id, outcome);
    hide WorkerInv, SettledInv, LogInv, TaskInv, MirrorInv, Grows;
    if d != c {
      assert SentTo(c, id, c.worker);
      if outcome.Ok? {
        assert id in d.settled && d.settled[id].Ok? && d.log[id - 1].worker == d.worker;
      }
    }
  }

  lemma ResumeStarting(w: World, t: Task, posted: bool)
    requires Inv(w) && TaskInv(w, t) && CanResume(w.client, t.pc) && StartingInv(w.client)
    ensures StartingInv(ResumeTask(w.client, t, posted).0)
  {
    hide WorkerInv, SettledInv, MirrorInv, GoodResult;
    var c, d := w.client, ResumeTask(w.client, t, posted).0;
    ResumeGrows(w, t, posted);
    assert OnlyRejects(c, d) && d.starting == c.starting && d.worker == c.worker;
    hide ResumeTask, TaskInv;
    StartingGrows(c, d);
  }

  lemma StepKeepsStarting(w: World, e: Event)
    requires Inv(w) && StartingInv(w.client) && Enabled(w, e)
    ensures StartingInv(Next(w, e).client)
  {
    hide WorkerInv, SettledInv, LogInv, MirrorInv, Grows, OnlyRejects, StartingInv;
    var c := w.client;
    match e
    case Load(bytes, name, mode) =>
      StartLoadKeeps(c, bytes, name, mode);
      StartingGrows(c, c.StartLoad(bytes, name, mode).0);
    case Resume(i, posted) => assert TaskInv(w, w.tasks[i]); ResumeStarting(w, w.tasks[i], posted);
    case Deliver(g, id, outcome) => StartingDelivered(w, g, id, outcome);
    case WorkerError(g) =>
      FailWorkerKeeps(c, if c.starting then StartupFailed else WorkerFailed, g);
      StartingGrows(c, c.OnError(g));
    case MessageError(g) =>
      FailWorkerKeeps(c, Unreadable, g);
      StartingGrows(c, c.OnMessageError(g));
    case Cancel(posted) => if !c.closed { StartingSpawned(c, posted); }
    case Clear(posted) => StartingCleared(c, posted);
    case Close => CloseKeeps(c); StartingGrows(c, c.Close());
    case _ =>
  }

  lemma StartingCleared(c: Client, posted: bool)
    requires ClientInv(c) && LogInv(c) && StartingInv(c)
    ensures StartingInv(c.Clear(posted))
  {
    var b := c.(session := None);
    assert ClientInv(b) && LogInv(b);
    if c.closed {
      assert c.Clear(posted) == b;
    } else {
      hide ClientInv, LogInv;
      StartingSpawned(b, posted);
    }
  }

  lemma {:induction false} RunKeepsStarting(w: World, events: seq<Event>)
    requires Inv(w) && StartingInv(w.client) && IsRun(w, events)
    ensures StartingInv(After(w, events).client)
    decreases |events|
  {
    hide Inv, Next, Enabled, StartingInv;
    if events != [] {
      StepKeepsInv(w, events[0]);
      StepKeepsStarting(w, events[0]);
      RunKeepsStarting(Next(w, events[0]), events[1..]);
    }
  }

  /** Over every run, the first error of the current worker is reported as a failure to start exactly when that
      worker has answered no request well yet, and everything pending is rejected with it. */
  lemma ErrorIsStartupFailure(posted: bool, events: seq<Event>)
    requires IsRun(Begin(posted), events)
    requires var c := After(Begin(posted), events).client; !c.closed && c.fatal.None?
    ensures var c := After(Begin(posted), events).client;
            var d := c.OnError(c.worker);
            var answered := exists id | id in c.settled && c.settled[id].Ok? && 1 <= id <= |c.log| :: c.log[id - 1].worker == c.worker;
            && d.fatal == Some(if answered then WorkerFailed else StartupFailed)
            && d.pending == {} && forall id | id in c.pending :: id in d.settled && d.settled[id] == Err(d.fatal.value)
  {
    BeginInv(posted);
    assert StartingInv(Begin(posted).client);
    RunKeepsInv(Begin(posted), events);
    RunKeepsStarting(Begin(posted), events);
    hide SettledInv, WorkerInv, LogInv, MirrorInv, After, IsRun, OutputOf, TaskInv;
  }
}
