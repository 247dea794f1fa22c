/** The worker side, integrations/web/kuna-worker.js: its module variables, `dispatch`, and the
    message handler. A request that awaits (init, list, decompile, project) becomes a job that
    finishes later, in any order; the other messages are handled meanwhile. */
module Worker {
  import opened WorkerClient

  datatype Job = LoadingKuna | Computing(at: Snapshot)

  /** `taken` is the last request id begun; `holds` names the session whose parameters the
      module variables hold. */
  datatype Worker = Worker(
    taken: RequestId,
    kuna: bool,
    binary: Option<bytes>,
    fileName: string,
    mode: string,
    holds: Option<SessionId>,
    jobs: map<RequestId, Job>,
    replies: set<(RequestId, Outcome)>)
  {
    function Reply(id: RequestId, outcome: Outcome): Worker {
      this.(replies := replies + {(id, outcome)})
    }

    function Here(g: Generation, asked: Params): Snapshot
      requires binary.Some? && holds.Some?
    {
      Snapshot(g, holds.value, binary.value, fileName, mode, asked)
    }

    /** dispatch() up to its first await; named tells whether formatName returned. */
    function Dispatch(g: Generation, id: RequestId, params: Params, named: bool): Worker {
      match params
      case Init => this.(jobs := jobs[id := LoadingKuna])
      case SetBinary(s, bytes, name, m) =>
        if !kuna then Reply(id, Err(RequestFailed))
        else
          var next := this.(binary := Some(bytes), fileName := OrDefault(name, "binary"), mode := OrDefault(m, "auto"),
                            holds := Some(s));
          next.Reply(id, if named then Ok(Details(bytes)) else Err(RequestFailed))
      case _ =>
        if !kuna || binary.None? || holds.None? then Reply(id, Err(RequestFailed))
        else this.(jobs := jobs[id := Computing(Here(g, params))])
    }

    /** The awaited operation of a job ends, well or not, and the reply is posted. */
    function Finish(id: RequestId, ok: bool): Worker
      requires id in jobs
    {
      var done := this.(jobs := jobs - {id});
      if !ok then done.Reply(id, Err(RequestFailed))
      else match jobs[id]
        case LoadingKuna => done.(kuna := true).Reply(id, Ok(Ready))
        case Computing(at) => done.Reply(id, Ok(Output(at)))
    }
  }

  /** `value || fallback` for strings. */
  function OrDefault(value: string, fallback: string): string {
    if value == "" then fallback else value
  }

  function NewWorker(): Worker {
    Worker(0, false, None, "binary", "auto", None, map[], {})
  }

  /** The worker's module scope. */
  class KunaWorker {
    var taken: RequestId
    var kuna: bool
    var binary: Option<bytes>
    var fileName: string
    var mode: string
    var holds: Option<SessionId>
    var jobs: map<RequestId, Job>
    var replies: set<(RequestId, Outcome)>

    ghost function State(): Worker
      reads this
    {
      Worker(taken, kuna, binary, fileName, mode, holds, jobs, replies)
    }

    constructor ()
      ensures State() == NewWorker()
    {
      taken, kuna, binary, fileName, mode := 0, false, None, "binary", "auto";
      holds, jobs, replies := None, map[], {};
    }

    method Dispatch(g: Generation, id: RequestId, params: Params, named: bool)
      modifies this
      ensures State() == old(State()).Dispatch(g, id, params, named)
    {
      match params
      case Init =>
        jobs := jobs[id := LoadingKuna];
      case SetBinary(s, bytes, name, m) =>
        if !kuna {
          replies := replies + {(id, Err(RequestFailed))};
        } else {
          binary := Some(bytes);
          fileName := OrDefault(name, "binary");
          mode := OrDefault(m, "auto");
          holds := Some(s);
          replies := replies + {(id, if named then Ok(Details(bytes)) else Err(RequestFailed))};
        }
      case _ =>
        if !kuna || binary.None? || holds.None? {
          replies := replies + {(id, Err(RequestFailed))};
        } else {
          jobs := jobs[id := Computing(Snapshot(g, holds.value, binary.value, fileName, mode, params))];
        }
    }

    method Finish(id: RequestId, ok: bool)
      requires id in jobs
      modifies this
      ensures State() == old(State()).Finish(id, ok)
    {
      var job := jobs[id];
      jobs := jobs - {id};
      if !ok {
        replies := replies + {(id, Err(RequestFailed))};
      } else {
        match job
        case LoadingKuna =>
          kuna := true;
          replies := replies + {(id, Ok(Ready))};
        case Computing(at) =>
          replies := replies + {(id, Ok(Output(at)))};
      }
    }
  }
}
