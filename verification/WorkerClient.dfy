/** The request/response facade of integrations/web/kuna-worker-client.js. `Client` is the value
    form of the object's state with one function per method (and per stretch of code between two
    awaits); `KunaWorkerClient` is the object itself, proved to follow them. */
module WorkerClient {

  type Generation = nat
  type RequestId = nat
  type SessionId = nat
  type bytes = seq<bv8>

  datatype Option<+T> = None | Some(value: T)

  /** A session object. Identity is its index in the order of creation: every load makes one. */
  datatype Session = Session(bytes: bytes, fileName: string, mode: string, format: Option<bytes>)

  datatype Params =
    | Init
    | SetBinary(session: SessionId, bytes: bytes, fileName: string, mode: string)
    | List
    | Decompile(target: string)
    | Project(displayName: string)

  /** One use of a request id: the worker it went to, and whether postMessage accepted it. */
  datatype Post = Post(worker: Generation, params: Params, sent: bool)

  /** Where the worker's module variables stood when it began a request, and what was asked of it. */
  datatype Snapshot =
    Snapshot(worker: Generation, session: SessionId, binary: bytes, fileName: string, mode: string, asked: Params)

  /** Worker results. Details carries the bytes the format name was computed from. */
  datatype Result = Ready | Details(of: bytes) | Output(at: Snapshot)

  datatype Error =
    | Cancelled | Superseded | StartupFailed | WorkerFailed | Unreadable | RequestFailed
    | IsClosed | PostFailed | NoBinary | NoSession

  datatype Outcome = Ok(result: Result) | Err(error: Error)

  /** The promise a call of request() returns: tied to an id, or already rejected. */
  datatype Promise = Issued(id: RequestId) | Rejected(error: Error)

  /** Where an async method waits. */
  datatype Pc =
    | AwaitReady(promise: Promise)
    | AwaitDetails(promise: Promise, chosen: SessionId)
    | SessionSet
    | AwaitResult(promise: Promise)
    | Resolved(result: Result, format: Option<bytes>)
    | Failed(error: Error)

  datatype Call =
    | LoadCall(session: SessionId)
    | FormatCall
    | ListCall
    | DecompileCall(target: string)
    | ProjectCall(displayName: string)

  function RejectAll(settled: map<RequestId, Outcome>, ids: set<RequestId>, error: Error): map<RequestId, Outcome> {
    settled + map id | id in ids :: Err(error)
  }

  lemma RejectOneMore(settled: map<RequestId, Outcome>, ids: set<RequestId>, id: RequestId, error: Error)
    ensures RejectAll(settled, ids, error)[id := Err(error)] == RejectAll(settled, ids + {id}, error)
    ensures RejectAll(settled, {}, error) == settled
  {
  }

  datatype Client = Client(
    log: seq<Post>,
    pending: set<RequestId>,
    settled: map<RequestId, Outcome>,
    generation: Generation,
    worker: Generation,
    starting: bool,
    ready: Promise,
    session: Option<SessionId>,
    workerSession: Option<SessionId>,
    sessions: seq<Session>,
    closed: bool,
    fatal: Option<Error>)
  {
    /** The session references point at existing session objects. */
    predicate Linked() {
      session.Some? ==> session.value < |sessions|
    }

    /** this.nextId */
    function NextId(): RequestId { |log| + 1 }

    function Settle(id: RequestId, outcome: Outcome): Client {
      this.(pending := pending - {id}, settled := settled[id := outcome])
    }

    /** request(): posted tells whether postMessage accepted the message. */
    function Request(params: Params, posted: bool): (Client, Promise) {
      if closed then (this, Rejected(IsClosed))
      else if fatal.Some? then (this, Rejected(fatal.value))
      else
        var id := NextId();
        var logged := this.(log := log + [Post(worker, params, posted)]);
        if posted then (logged.(pending := pending + {id}), Issued(id))
        else (logged.(settled := settled[id := Err(PostFailed)]), Issued(id))
    }

    function RejectPending(error: Error): Client {
      this.(pending := {}, settled := RejectAll(settled, pending, error))
    }

    /** spawn(), the worker factory succeeding. */
    function Spawn(posted: bool): Client {
      var next := this.(generation := generation + 1, worker := generation + 1, workerSession := None, fatal := None,
                         starting := true);
      var (c, promise) := next.Request(Init, posted);
      c.(ready := promise)
    }

    /** The onmessage handler of worker g. */
    function OnMessage(g: Generation, id: RequestId, outcome: Outcome): Client {
      if g != generation || id !in pending then this
      else if outcome.Ok? then this.(starting := false).Settle(id, outcome)
      else Settle(id, outcome)
    }

    function FailWorker(error: Error, g: Generation): Client {
      if g != generation || g != worker || fatal.Some? then this
      else this.(fatal := Some(error)).RejectPending(error)
    }

    function OnError(g: Generation): Client {
      if g != generation then this
      else FailWorker(if starting then StartupFailed else WorkerFailed, g)
    }

    function OnMessageError(g: Generation): Client {
      if g != generation then this else FailWorker(Unreadable, g)
    }

    function Cancel(posted: bool): Client {
      if closed then this
      else this.(generation := generation + 1).RejectPending(Cancelled).Spawn(posted)
    }

    function Clear(posted: bool): Client {
      this.(session := None).Cancel(posted)
    }

    function Close(): Client {
      if closed then this
      else this.(closed := true, generation := generation + 1).RejectPending(Cancelled).(session := None)
    }

    // ----- the async methods, one function per stretch between awaits -----

    /** load() up to the first await inside setWorkerSession. */
    function StartLoad(bytes: bytes, fileName: string, mode: string): (Client, Call) {
      var id := |sessions|;
      (this.(sessions := sessions + [Session(bytes, fileName, mode, None)], session := Some(id), workerSession := None),
       LoadCall(id))
    }

    /** setWorkerSession() after the ready promise: reuse the worker's session or send setBinary. */
    function AfterReady(gen: Generation, outcome: Outcome, posted: bool): (Client, Pc)
      requires Linked()
    {
      if outcome.Err? then (this, Failed(outcome.error))
      else if gen != generation then (this, Failed(Cancelled))
      else if session.None? then (this, Failed(NoBinary))
      else if workerSession == session then (this, SessionSet)
      else
        var s := sessions[session.value];
        var (c, promise) := Request(SetBinary(session.value, s.bytes, s.fileName, s.mode), posted);
        (c, AwaitDetails(promise, session.value))
    }

    /** setWorkerSession() after the setBinary reply. */
    function AfterDetails(gen: Generation, outcome: Outcome, chosen: SessionId): (Client, Pc)
      requires Linked()
    {
      if outcome.Err? then (this, Failed(outcome.error))
      else if gen != generation then (this, Failed(Cancelled))
      else if session != Some(chosen) then (this, Failed(Superseded))
      else
        var format := if outcome.result.Details? then Some(outcome.result.of) else None;
        (this.(sessions := sessions[chosen := sessions[chosen].(format := format)], workerSession := Some(chosen)),
         SessionSet)
    }

    /** The caller of setWorkerSession resumes: it asks the worker, with no check in between. */
    function AfterSession(call: Call, posted: bool): (Client, Pc)
      requires Linked()
    {
      match call
      case FormatCall =>
        if session.None? then (this, Failed(NoSession))
        else (this, Resolved(Ready, sessions[session.value].format))
      case LoadCall(_) =>
        var (c, promise) := Request(List, posted);
        (c, AwaitResult(promise))
      case ListCall =>
        var (c, promise) := Request(List, posted);
        (c, AwaitResult(promise))
      case DecompileCall(target) =>
        var (c, promise) := Request(Decompile(target), posted);
        (c, AwaitResult(promise))
      case ProjectCall(name) =>
        var (c, promise) := Request(Project(name), posted);
        (c, AwaitResult(promise))
    }

    /** The last stretch: only load() checks that its session is still the client's. */
    function AfterResult(gen: Generation, call: Call, outcome: Outcome): Pc
      requires Linked()
    {
      if outcome.Err? then Failed(outcome.error)
      else if gen != generation then Failed(Cancelled)
      else if call.LoadCall? then
        if session != Some(call.session) then Failed(Superseded)
        else Resolved(outcome.result, sessions[call.session].format)
      else Resolved(outcome.result, None)
    }
  }

  /** The state on entry to the constructor's spawn(). */
  function Unborn(): Client {
    Client([], {}, map[], 0, 0, false, Rejected(IsClosed), None, None, [], false, None)
  }

  function Initial(posted: bool): Client { Unborn().Spawn(posted) }

  // ---------- the object ----------

  class KunaWorkerClient {
    var log: seq<Post>
    var pending: set<RequestId>
    var settled: map<RequestId, Outcome>
    var nextId: RequestId
    var generation: Generation
    var worker: Generation
    var starting: bool
    var ready: Promise
    var session: Option<SessionId>
    var workerSession: Option<SessionId>
    var sessions: seq<Session>
    var closed: bool
    var fatalError: Option<Error>

    ghost function State(): Client
      reads this
    {
      Client(log, pending, settled, generation, worker, starting, ready, session, workerSession, sessions, closed,
             fatalError)
    }

    ghost predicate Valid()
      reads this
    {
      nextId == |log| + 1 && State().Linked()
    }

    constructor (posted: bool)
      ensures Valid() && State() == Initial(posted)
    {
      log, pending, settled, nextId := [], {}, map[], 1;
      generation, worker, starting, ready := 0, 0, false, Rejected(IsClosed);
      session, workerSession, sessions := None, None, [];
      closed, fatalError := false, None;
      new;
      assert State() == Unborn();
      SpawnWorker(posted);
    }

    method Request(params: Params, posted: bool) returns (promise: Promise)
      requires Valid()
      modifies this`log, this`pending, this`settled, this`nextId
      ensures Valid() && (State(), promise) == old(State()).Request(params, posted)
    {
      if closed {
        return Rejected(IsClosed);
      }
      if fatalError.Some? {
        return Rejected(fatalError.value);
      }
      var id := nextId;
      nextId := nextId + 1;
      log := log + [Post(worker, params, posted)];
      if posted {
        pending := pending + {id};
      } else {
        settled := settled[id := Err(PostFailed)];
      }
      promise := Issued(id);
    }

    /** rejectPending: one reject per pending entry, then clear. */
    method RejectPending(error: Error)
      requires Valid()
      modifies this`pending, this`settled
      ensures Valid() && State() == old(State()).RejectPending(error)
    {
      hide RejectAll;
      var todo := pending;
      RejectOneMore(settled, {}, 0, error);
      assert pending - todo == {};
      while todo != {}
        invariant todo <= pending == old(pending)
        invariant settled == RejectAll(old(settled), pending - todo, error)
        decreases todo
      {
        var id :| id in todo;
        RejectOneMore(old(settled), pending - todo, id, error);
        assert pending - todo + {id} == pending - (todo - {id});
        settled := settled[id := Err(error)];
        todo := todo - {id};
      }
      assert pending - todo == pending;
      pending := {};
    }

    method SpawnWorker(posted: bool)
      requires Valid()
      modifies this
      ensures Valid() && State() == old(State()).Spawn(posted)
    {
      generation := generation + 1;
      worker := generation;
      workerSession := None;
      fatalError := None;
      starting := true;
      ready := Request(Init, posted);
    }

    method OnMessage(g: Generation, id: RequestId, outcome: Outcome)
      requires Valid()
      modifies this
      ensures Valid() && State() == old(State()).OnMessage(g, id, outcome)
    {
      if g != generation || id !in pending {
        return;
      }
      pending := pending - {id};
      if outcome.Ok? {
        starting := false;
      }
      settled := settled[id := outcome];
    }

    method FailWorker(error: Error, g: Generation)
      requires Valid()
      modifies this
      ensures Valid() && State() == old(State()).FailWorker(error, g)
    {
      if g != generation || g != worker || fatalError.Some? {
        return;
      }
      fatalError := Some(error);
      RejectPending(error);
    }

    method OnError(g: Generation)
      requires Valid()
      modifies this
      ensures Valid() && State() == old(State()).OnError(g)
    {
      if g == generation {
        FailWorker(if starting then StartupFailed else WorkerFailed, g);
      }
    }

    method OnMessageError(g: Generation)
      requires Valid()
      modifies this
      ensures Valid() && State() == old(State()).OnMessageError(g)
    {
      if g == generation {
        FailWorker(Unreadable, g);
      }
    }

    method Cancel(posted: bool)
      requires Valid()
      modifies this
      ensures Valid() && State() == old(State()).Cancel(posted)
    {
      if closed {
        return;
      }
      generation := generation + 1;
      RejectPending(Cancelled);
      SpawnWorker(posted);
    }

    method Clear(posted: bool)
      requires Valid()
      modifies this
      ensures Valid() && State() == old(State()).Clear(posted)
    {
      session := None;
      Cancel(posted);
    }

    method Close()
      requires Valid()
      modifies this
      ensures Valid() && State() == old(State()).Close()
    {
      if closed {
        return;
      }
      closed := true;
      generation := generation + 1;
      RejectPending(Cancelled);
      session := None;
    }

    method StartLoad(bytes: bytes, fileName: string, mode: string) returns (call: Call)
      requires Valid()
      modifies this
      ensures Valid() && (State(), call) == old(State()).StartLoad(bytes, fileName, mode)
    {
      var created := |sessions|;
      sessions := sessions + [Session(bytes, fileName, mode, None)];
      session := Some(created);
      workerSession := None;
      call := LoadCall(created);
    }

    method AfterReady(gen: Generation, outcome: Outcome, posted: bool) returns (pc: Pc)
      requires Valid()
      modifies this
      ensures Valid() && (State(), pc) == old(State()).AfterReady(gen, outcome, posted)
    {
      if outcome.Err? {
        return Failed(outcome.error);
      }
      if gen != generation {
        return Failed(Cancelled);
      }
      if session.None? {
        return Failed(NoBinary);
      }
      var chosen := session.value;
      if workerSession == Some(chosen) {
        return SessionSet;
      }
      var s := sessions[chosen];
      var promise := Request(SetBinary(chosen, s.bytes, s.fileName, s.mode), posted);
      pc := AwaitDetails(promise, chosen);
    }

    method AfterDetails(gen: Generation, outcome: Outcome, chosen: SessionId) returns (pc: Pc)
      requires Valid()
      modifies this
      ensures Valid() && (State(), pc) == old(State()).AfterDetails(gen, outcome, chosen)
    {
      if outcome.Err? {
        return Failed(outcome.error);
      }
      if gen != generation {
        return Failed(Cancelled);
      }
      if session != Some(chosen) {
        return Failed(Superseded);
      }
      var format := if outcome.result.Details? then Some(outcome.result.of) else None;
      sessions := sessions[chosen := sessions[chosen].(format := format)];
      workerSession := Some(chosen);
      pc := SessionSet;
    }

    method AfterSession(call: Call, posted: bool) returns (pc: Pc)
      requires Valid()
      modifies this
      ensures Valid() && (State(), pc) == old(State()).AfterSession(call, posted)
    {
      if call.FormatCall? {
        return if session.None? then Failed(NoSession) else Resolved(Ready, sessions[session.value].format);
      }
      var params := match call
        case DecompileCall(target) => Decompile(target)
        case ProjectCall(name) => Project(name)
        case _ => List;
      var promise := Request(params, posted);
      pc := AwaitResult(promise);
    }

    method AfterResult(gen: Generation, call: Call, outcome: Outcome) returns (pc: Pc)
      requires Valid()
      ensures pc == State().AfterResult(gen, call, outcome)
    {
      if outcome.Err? {
        return Failed(outcome.error);
      }
      if gen != generation {
        return Failed(Cancelled);
      }
      if call.LoadCall? {
        if session != Some(call.session) {
          return Failed(Superseded);
        }
        return Resolved(outcome.result, sessions[call.session].format);
      }
      pc := Resolved(outcome.result, None);
    }
  }
}
