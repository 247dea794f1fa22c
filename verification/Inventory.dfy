/** The shared inventory of scripts/pipeline/state.py, an atomic step at a time. */
module Inventory {

  datatype Option<+T> = None | Some(value: T)

  /** A process id; 0 stands for no usable pid. */
  type Pid = nat

  /** vouched is pid_source == "caller". */
  datatype Worker = Worker(slug: string, branch: string, opportunity: string, phase: Option<string>,
                           status: Option<string>, prUrl: Option<string>, pid: Pid, vouched: bool, updatedAt: real)

  datatype Claimed = Claimed(worker: string, ts: real)

  datatype Finished = Finished(worker: string, prUrl: Option<string>, ts: real)

  datatype Proposal = Proposal(worker: string, slug: Option<string>, branch: string, prUrl: string, ts: real)

  datatype Approved = Approved(branch: string, prUrl: string, slug: Option<string>, approvedBy: string, ts: real)

  datatype Slot = Slot(pid: Pid, vouched: bool, since: real, kind: string)

  datatype Pool = Pool(cap: int, held: map<string, Slot>)

  datatype Lease = Lease(holder: string, ts: real, ttl: int, pid: Pid, vouched: bool)

  datatype Contents = Contents(
    workers: map<string, Worker>, claims: map<string, Claimed>, done: map<string, Finished>,
    proposals: map<string, Proposal>, approved: map<string, Approved>,
    slots: map<string, Pool>, leases: map<string, Lease>)

  /** What one operation sees of the world. untrusted is UNTRUSTED_STALE_SECONDS. */
  datatype Env = Env(now: real, alive: set<Pid>, untrusted: real)

  datatype Op =
    | Register(worker: string, slug: string, branch: string, opportunity: string, pid: Pid)
    | Update(worker: string, phase: Option<string>, status: Option<string>, prUrl: Option<string>)
    | Remove(worker: string)
    | Claim(worker: string, opportunity: string)
    | Release(opportunity: string)
    | MarkDone(worker: string, opportunity: string, prUrl: Option<string>)
    | MarkProposal(worker: string, opportunity: string, proposalUrl: string, branch: string, proposalSlug: Option<string>)
    | Approve(opportunity: string, approvedBy: string)
    | ClaimApproved(worker: string, opportunity: string)
    | Reap(stale: real)
    | SlotCap(pool: string, cap: int)
    | SlotAcquire(pool: string, slot: string, pid: Pid, kind: Option<string>)
    | SlotRelease(pool: string, slot: string)
    | LeaseAcquire(resource: string, worker: string, ttl: int, pid: Pid)
    | LeaseRelease(resource: string, releaser: Option<string>)

  datatype Reply =
    | Nothing
    | Answer(yes: bool)
    | Branch(branch: Option<string>)
    | Reaped(workers: set<string>, slots: set<(string, string)>, leases: set<string>)

  // ---------- liveness ----------

  predicate PidAlive(env: Env, pid: Pid) { pid != 0 && pid in env.alive }

  /** A vouched-for pid that is gone. */
  predicate ProvablyGone(env: Env, pid: Pid, vouched: bool) { vouched && pid != 0 && !PidAlive(env, pid) }

  predicate LeaseDead(l: Lease, env: Env) {
    env.now - l.ts > l.ttl as real || ProvablyGone(env, l.pid, l.vouched)
  }

  function Max(a: real, b: real): real { if a < b then b else a }

  predicate Reapable(w: Worker, env: Env, stale: real) {
    && w.status == Some("running")
    && env.now - w.updatedAt > stale
    && if w.vouched && w.pid != 0 then !PidAlive(env, w.pid) else env.now - w.updatedAt > Max(stale, env.untrusted)
  }

  predicate ReapsWorker(s: Contents, env: Env, stale: real, worker: string) {
    worker in s.workers && Reapable(s.workers[worker], env, stale)
  }

  // ---------- one step ----------

  function Without<T>(m: map<string, T>, key: string): map<string, T> { m - {key} }

  function PoolOf(s: Contents, pool: string): Pool {
    if pool in s.slots then s.slots[pool] else Pool(0, map[])
  }

  function SetStatus(s: Contents, worker: string, phase: string, prUrl: Option<string>, now: real): map<string, Worker> {
    if worker !in s.workers then s.workers
    else s.workers[worker :=
      s.workers[worker].(phase := Some(phase), status := Some(phase), prUrl := prUrl, updatedAt := now)]
  }

  /** A claim by worker is refused while another worker holds it. */
  predicate HeldByOther(s: Contents, worker: string, opportunity: string) {
    opportunity in s.claims && s.claims[opportunity].worker != worker
  }

  /** A lease is refused while another holds it and it is not dead. */
  predicate Withheld(s: Contents, env: Env, resource: string, worker: string) {
    resource in s.leases && s.leases[resource].holder != worker && !LeaseDead(s.leases[resource], env)
  }

  function UpdatedWorker(s: Contents, env: Env, op: Op): Worker
    requires op.Update?
  {
    var w := if op.worker in s.workers then s.workers[op.worker]
             else Worker("", "", "", None, None, None, 0, false, env.now);
    var w1 := if op.phase.Some? then w.(phase := op.phase) else w;
    var w2 := if op.status.Some? then w1.(status := op.status) else w1;
    var w3 := if op.prUrl.Some? then w2.(prUrl := op.prUrl) else w2;
    w3.(updatedAt := env.now)
  }

  function ReapWorkers(s: Contents, env: Env, stale: real): map<string, Worker> {
    map w | w in s.workers ::
      if Reapable(s.workers[w], env, stale) then s.workers[w].(status := Some("failed"), updatedAt := env.now)
      else s.workers[w]
  }

  function ReapClaims(s: Contents, env: Env, stale: real): map<string, Claimed> {
    map o | o in s.claims && !ReapsWorker(s, env, stale, s.claims[o].worker) :: s.claims[o]
  }

  function ReapPool(p: Pool, env: Env): Pool {
    p.(held := map i | i in p.held && !ProvablyGone(env, p.held[i].pid, p.held[i].vouched) :: p.held[i])
  }

  function ReapSlots(s: Contents, env: Env): map<string, Pool> {
    map p | p in s.slots :: ReapPool(s.slots[p], env)
  }

  function ReapLeases(s: Contents, env: Env): map<string, Lease> {
    map r | r in s.leases && !LeaseDead(s.leases[r], env) :: s.leases[r]
  }

  function Next(s: Contents, env: Env, op: Op): Contents {
    match op
    case Register(w, slug, branch, o, pid) =>
      s.(workers := s.workers[w :=
        Worker(slug, branch, o, Some("setup"), Some("running"), None, pid, pid != 0, env.now)])
    case Update(w, _, _, _) => s.(workers := s.workers[w := UpdatedWorker(s, env, op)])
    case Remove(w) => s.(workers := Without(s.workers, w))
    case Claim(w, o) =>
      if o in s.done || HeldByOther(s, w, o) then s else s.(claims := s.claims[o := Claimed(w, env.now)])
    case Release(o) => s.(claims := Without(s.claims, o))
    case MarkDone(w, o, url) =>
      s.(done := s.done[o := Finished(w, url, env.now)], claims := Without(s.claims, o),
         workers := SetStatus(s, w, "done", url, env.now))
    case MarkProposal(w, o, url, branch, slug) =>
      s.(claims := Without(s.claims, o), proposals := s.proposals[o := Proposal(w, slug, branch, url, env.now)],
         workers := SetStatus(s, w, "proposal", Some(url), env.now))
    case Approve(o, user) =>
      if o !in s.proposals then s
      else
        var p := s.proposals[o];
        s.(proposals := Without(s.proposals, o),
           approved := s.approved[o := Approved(p.branch, p.prUrl, p.slug, user, env.now)])
    case ClaimApproved(w, o) =>
      if o !in s.approved || HeldByOther(s, w, o) then s else s.(claims := s.claims[o := Claimed(w, env.now)])
    case Reap(stale) =>
      s.(workers := ReapWorkers(s, env, stale), claims := ReapClaims(s, env, stale),
         slots := ReapSlots(s, env), leases := ReapLeases(s, env))
    case SlotCap(pool, cap) => s.(slots := s.slots[pool := PoolOf(s, pool).(cap := cap)])
    case SlotAcquire(pool, slot, pid, kind) =>
      var p := PoolOf(s, pool);
      if slot in p.held || |p.held| >= p.cap then s
      else
        var taken := Slot(pid, pid != 0, env.now, if kind.Some? && kind.value != "" then kind.value else pool);
        s.(slots := s.slots[pool := p.(held := p.held[slot := taken])])
    case SlotRelease(pool, slot) =>
      if pool !in s.slots then s
      else s.(slots := s.slots[pool := s.slots[pool].(held := Without(s.slots[pool].held, slot))])
    case LeaseAcquire(r, w, ttl, pid) =>
      if Withheld(s, env, r, w) then s
      else s.(leases := s.leases[r := Lease(w, env.now, ttl, pid, pid != 0)])
    case LeaseRelease(r, releaser) =>
      if r in s.leases && (releaser.None? || s.leases[r].holder == releaser.value) then s.(leases := Without(s.leases, r)) else s
  }

  function ReplyOf(s: Contents, env: Env, op: Op): Reply {
    match op
    case Claim(w, o) => Answer(o !in s.done && !HeldByOther(s, w, o))
    case Approve(o, _) => Answer(o in s.proposals)
    case ClaimApproved(w, o) =>
      Branch(if o in s.approved && !HeldByOther(s, w, o) then Some(s.approved[o].branch) else None)
    case Reap(stale) =>
      Reaped(set w | w in s.workers && Reapable(s.workers[w], env, stale),
             set p, i | p in s.slots && i in s.slots[p].held
               && ProvablyGone(env, s.slots[p].held[i].pid, s.slots[p].held[i].vouched) :: (p, i),
             set r | r in s.leases && LeaseDead(s.leases[r], env))
    case SlotAcquire(pool, slot, _, _) =>
      Answer(slot in PoolOf(s, pool).held || |PoolOf(s, pool).held| < PoolOf(s, pool).cap)
    case LeaseAcquire(r, w, _, _) =>
      Answer(!Withheld(s, env, r, w))
    case _ => Nothing
  }

  /** What a fresh-gap selector must skip. */
  function Taken(s: Contents): set<string> { s.claims.Keys + s.done.Keys + s.proposals.Keys + s.approved.Keys }

  // ---------- runs ----------

  datatype Event = Event(env: Env, op: Op)

  function After(s: Contents, run: seq<Event>): Contents {
    if run == [] then s else
      var last := |run| - 1;
      Next(After(s, run[..last]), run[last].env, run[last].op)
  }

  lemma AfterStep(s: Contents, run: seq<Event>, k: nat)
    requires k < |run|
    ensures After(s, run[..k + 1]) == Next(After(s, run[..k]), run[k].env, run[k].op)
  {
    assert run[..k + 1][..k] == run[..k];
    hide Next;
  }

  /** Only three operations touch the leases. */
  lemma NextLeases(s: Contents, env: Env, op: Op)
    ensures Next(s, env, op).leases ==
      match op
      case LeaseAcquire(r, w, ttl, pid) =>
        if Withheld(s, env, r, w) then s.leases else s.leases[r := Lease(w, env.now, ttl, pid, pid != 0)]
      case LeaseRelease(r, releaser) =>
        if r in s.leases && (releaser.None? || s.leases[r].holder == releaser.value) then Without(s.leases, r) else s.leases
      case Reap(_) => ReapLeases(s, env)
      case _ => s.leases
  {
    hide ReapWorkers, ReapClaims, ReapSlots, ReapLeases, UpdatedWorker, SetStatus, PoolOf, Withheld, Without;
  }

  /** Only six operations touch the claims. */
  lemma NextClaims(s: Contents, env: Env, op: Op)
    ensures Next(s, env, op).claims ==
      match op
      case Claim(w, o) =>
        if o in s.done || HeldByOther(s, w, o) then s.claims else s.claims[o := Claimed(w, env.now)]
      case ClaimApproved(w, o) =>
        if o !in s.approved || HeldByOther(s, w, o) then s.claims else s.claims[o := Claimed(w, env.now)]
      case Release(o) => Without(s.claims, o)
      case MarkDone(_, o, _) => Without(s.claims, o)
      case MarkProposal(_, o, _, _, _) => Without(s.claims, o)
      case Reap(stale) => ReapClaims(s, env, stale)
      case _ => s.claims
  {
    hide ReapWorkers, ReapClaims, ReapSlots, ReapLeases, UpdatedWorker, SetStatus, PoolOf, LeaseDead, Without, HeldByOther;
  }

  // ---------- leases ----------

  predicate Leases(s: Contents, resource: string, worker: string) {
    resource in s.leases && s.leases[resource].holder == worker
  }

  /** What may end worker's lease l on resource. */
  predicate EndsLease(e: Event, resource: string, l: Lease) {
    || (e.op.LeaseRelease? && e.op.resource == resource && (e.op.releaser == None || e.op.releaser == Some(l.holder)))
    || LeaseDead(l, e.env)
  }

  /** A step takes a lease from its holder only by a release or when the lease is dead; any other step leaves
      the record alone, or it is the holder acquiring again. */
  lemma LeaseStep(s: Contents, e: Event, resource: string, worker: string)
    requires Leases(s, resource, worker) && !EndsLease(e, resource, s.leases[resource])
    ensures var t := Next(s, e.env, e.op);
      && Leases(t, resource, worker)
      && t.leases[resource] ==
           match e.op
           case LeaseAcquire(r, w, ttl, pid) =>
             if r == resource && w == worker then Lease(w, e.env.now, ttl, pid, pid != 0) else s.leases[resource]
           case _ => s.leases[resource]
  {
    NextLeases(s, e.env, e.op);
    hide Next, LeaseDead;
  }

  /** The record of the last granted acquisition of resource in the run, or the one it started with. */
  function LastGrant(s: Contents, run: seq<Event>, resource: string): Option<Lease> {
    if run == [] then
      if resource in s.leases then Some(s.leases[resource]) else None
    else
      var last := |run| - 1;
      var e := run[last];
      if e.op.LeaseAcquire? && e.op.resource == resource && ReplyOf(After(s, run[..last]), e.env, e.op) == Answer(true)
      then Some(Lease(e.op.worker, e.env.now, e.op.ttl, e.op.pid, e.op.pid != 0))
      else LastGrant(s, run[..last], resource)
  }

  /** A held lease carries the clock reading, TTL and pid of its last acquisition. */
  lemma {:induction false} LeaseIsLastGrant(s: Contents, run: seq<Event>, resource: string)
    ensures var t := After(s, run); resource in t.leases ==> LastGrant(s, run, resource) == Some(t.leases[resource])
  {
    if run != [] {
      var last := |run| - 1;
      LeaseIsLastGrant(s, run[..last], resource);
      NextLeases(After(s, run[..last]), run[last].env, run[last].op);
      hide Next, Withheld, LeaseDead, HeldByOther, PoolOf;
    }
  }

  /** Main result for leases: if w1 holds a resource at point i of a run and w2 at a later point j, then in
      between there was a step, with w1 still the holder, that released the lease, or found its last
      acquisition expired or its vouched-for pid dead. */
  lemma {:induction false} LeaseHandoff(s: Contents, run: seq<Event>, i: nat, j: nat, resource: string, w1: string, w2: string)
    requires i <= j <= |run| && w1 != w2
    requires Leases(After(s, run[..i]), resource, w1) && Leases(After(s, run[..j]), resource, w2)
    ensures exists k | i <= k < j :: LeaseEndedAt(s, run, k, resource, w1)
    decreases j - i
  {
    hide After, Next, EndsLease, LastGrant;
    assert i < j;
    var t := After(s, run[..i]);
    if EndsLease(run[i], resource, t.leases[resource]) {
      LeaseIsLastGrant(s, run[..i], resource);
      assert LeaseEndedAt(s, run, i, resource, w1);
    } else {
      AfterStep(s, run, i);
      LeaseStep(t, run[i], resource, w1);
      LeaseHandoff(s, run, i + 1, j, resource, w1, w2);
    }
  }

  predicate LeaseEndedAt(s: Contents, run: seq<Event>, k: nat, resource: string, worker: string)
    requires k < |run|
  {
    var l := LastGrant(s, run[..k], resource);
    Leases(After(s, run[..k]), resource, worker) && l.Some? && l.value.holder == worker && EndsLease(run[k], resource, l.value)
  }

  // ---------- claims ----------

  predicate Claims(s: Contents, opportunity: string, worker: string) {
    opportunity in s.claims && s.claims[opportunity].worker == worker
  }

  /** What may end worker's claim on opportunity. */
  predicate EndsClaim(s: Contents, e: Event, opportunity: string, worker: string) {
    match e.op
    case Release(o) => o == opportunity
    case MarkDone(_, o, _) => o == opportunity
    case MarkProposal(_, o, _, _, _) => o == opportunity
    case Reap(stale) => ReapsWorker(s, e.env, stale, worker)
    case _ => false
  }

  /** A claim is lost in a step exactly when the step is one that ends it. */
  lemma ClaimStep(s: Contents, e: Event, opportunity: string, worker: string)
    requires Claims(s, opportunity, worker)
    ensures Claims(Next(s, e.env, e.op), opportunity, worker) <==> !EndsClaim(s, e, opportunity, worker)
    ensures EndsClaim(s, e, opportunity, worker) ==> opportunity !in Next(s, e.env, e.op).claims
    ensures e.op.Reap? && EndsClaim(s, e, opportunity, worker) ==> Next(s, e.env, e.op).workers[worker].status == Some("failed")
  {
    NextClaims(s, e.env, e.op);
    if e.op.Reap? {
      hide Reapable, ReapSlots, ReapLeases;
    } else {
      hide Next, Reapable, ReapClaims;
    }
  }

  /** Main result for claims: a claim passes from w1 to w2 only after a release, a completion, a proposal,
      or a reap that failed w1. */
  lemma {:induction false} ClaimHandoff(s: Contents, run: seq<Event>, i: nat, j: nat, opportunity: string, w1: string, w2: string)
    requires i <= j <= |run| && w1 != w2
    requires Claims(After(s, run[..i]), opportunity, w1) && Claims(After(s, run[..j]), opportunity, w2)
    ensures exists k | i <= k < j ::
      Claims(After(s, run[..k]), opportunity, w1) && EndsClaim(After(s, run[..k]), run[k], opportunity, w1)
    decreases j - i
  {
    hide After, Next, EndsClaim;
    assert i < j;
    var t := After(s, run[..i]);
    if !EndsClaim(t, run[i], opportunity, w1) {
      AfterStep(s, run, i);
      ClaimStep(t, run[i], opportunity, w1);
      ClaimHandoff(s, run, i + 1, j, opportunity, w1, w2);
    }
  }

  /** Nothing that a selector must skip becomes free again, except an opportunity that was only claimed and whose claim
      is released or reaped. */
  lemma TakenStep(s: Contents, e: Event, opportunity: string)
    requires opportunity in Taken(s)
    ensures opportunity !in Taken(Next(s, e.env, e.op)) <==>
      && opportunity in s.claims && opportunity !in s.done && opportunity !in s.proposals && opportunity !in s.approved
      && match e.op
         case Release(o) => o == opportunity
         case Reap(stale) => ReapsWorker(s, e.env, stale, s.claims[opportunity].worker)
         case _ => false
  {
    NextClaims(s, e.env, e.op);
    NextDone(s, e.env, e.op);
    NextProposals(s, e.env, e.op);
    NextApproved(s, e.env, e.op);
    hide Next, Reapable, LeaseDead;
  }

  lemma NextDone(s: Contents, env: Env, op: Op)
    ensures Next(s, env, op).done.Keys == s.done.Keys + if op.MarkDone? then {op.opportunity} else {}
  {
    hide ReapWorkers, ReapClaims, ReapSlots, ReapLeases, UpdatedWorker, SetStatus, PoolOf, LeaseDead, HeldByOther, Without;
  }

  lemma NextProposals(s: Contents, env: Env, op: Op)
    ensures Next(s, env, op).proposals.Keys ==
      if op.MarkProposal? then s.proposals.Keys + {op.opportunity}
      else if op.Approve? then s.proposals.Keys - {op.opportunity}
      else s.proposals.Keys
  {
    hide ReapWorkers, ReapClaims, ReapSlots, ReapLeases, UpdatedWorker, SetStatus, PoolOf, LeaseDead, HeldByOther;
  }

  lemma NextApproved(s: Contents, env: Env, op: Op)
    ensures Next(s, env, op).approved.Keys ==
      s.approved.Keys + if op.Approve? && op.opportunity in s.proposals then {op.opportunity} else {}
  {
    OnlyApproveApproves(s, env, op);
    if op.Approve? && op.opportunity in s.proposals {
      KeysWith(s.approved, op.opportunity, Next(s, env, op).approved[op.opportunity]);
    }
    hide Next;
  }

  lemma OnlyApproveApproves(s: Contents, env: Env, op: Op)
    ensures if op.Approve? && op.opportunity in s.proposals
      then op.opportunity in Next(s, env, op).approved
        && Next(s, env, op).approved == s.approved[op.opportunity := Next(s, env, op).approved[op.opportunity]]
      else Next(s, env, op).approved == s.approved
  {
    hide ReapWorkers, ReapClaims, ReapSlots, ReapLeases, UpdatedWorker, SetStatus, PoolOf, LeaseDead, HeldByOther, Without, Withheld;
  }

  lemma KeysWith<T>(m: map<string, T>, key: string, value: T)
    ensures m[key := value].Keys == m.Keys + {key}
  {
  }

  // ---------- slots ----------

  function Occupancy(s: Contents, pool: string): nat { |PoolOf(s, pool).held| }

  predicate WithinCap(s: Contents, pool: string) { Occupancy(s, pool) <= PoolOf(s, pool).cap }

  lemma {:induction false} FewerElements<T>(a: set<T>, b: set<T>)
    requires a <= b
    ensures |a| <= |b|
  {
    if a != {} {
      var x :| x in a;
      FewerElements(a - {x}, b - {x});
    }
  }

  lemma FewerKeys<T>(a: map<string, T>, b: map<string, T>)
    requires a.Keys <= b.Keys
    ensures |a| <= |b|
  {
    FewerElements(a.Keys, b.Keys);
    assert |a| == |a.Keys| && |b| == |b.Keys|;
  }

  /** Only four operations touch the slots. */
  lemma NextSlots(s: Contents, env: Env, op: Op)
    ensures Next(s, env, op).slots ==
      match op
      case SlotCap(pool, cap) => s.slots[pool := PoolOf(s, pool).(cap := cap)]
      case SlotAcquire(pool, slot, pid, kind) =>
        var p := PoolOf(s, pool);
        if slot in p.held || |p.held| >= p.cap then s.slots
        else
          var taken := Slot(pid, pid != 0, env.now, if kind.Some? && kind.value != "" then kind.value else pool);
          s.slots[pool := p.(held := p.held[slot := taken])]
      case SlotRelease(pool, slot) =>
        if pool !in s.slots then s.slots
        else s.slots[pool := s.slots[pool].(held := Without(s.slots[pool].held, slot))]
      case Reap(_) => ReapSlots(s, env)
      case _ => s.slots
  {
    hide ReapWorkers, ReapClaims, ReapSlots, ReapLeases, UpdatedWorker, SetStatus, PoolOf, LeaseDead, Without, HeldByOther;
  }

  /** A step leaves the occupancy of a pool no higher than it was, or no higher than the cap in force;
      and only lowering the cap takes a pool over it. */
  lemma SlotStep(s: Contents, e: Event, pool: string)
    ensures var t := Next(s, e.env, e.op);
      && (Occupancy(t, pool) <= Occupancy(s, pool) || Occupancy(t, pool) <= PoolOf(s, pool).cap == PoolOf(t, pool).cap)
      && (WithinCap(s, pool) ==>
           (WithinCap(t, pool) <==> !(e.op.SlotCap? && e.op.pool == pool && e.op.cap < Occupancy(s, pool))))
      && PoolOf(t, pool).cap == if e.op.SlotCap? && e.op.pool == pool then e.op.cap else PoolOf(s, pool).cap
  {
    NextSlots(s, e.env, e.op);
    hide Next, ProvablyGone;
    var t := Next(s, e.env, e.op);
    if (e.op.Reap? || e.op.SlotRelease?) && pool in s.slots {
      FewerKeys(t.slots[pool].held, s.slots[pool].held);
    }
  }

  /** The highest cap the pool had before or during the run. */
  function PeakCap(s: Contents, run: seq<Event>, pool: string): int {
    if run == [] then PoolOf(s, pool).cap
    else
      var last := |run| - 1;
      var before := PeakCap(s, run[..last], pool);
      if run[last].op.SlotCap? && run[last].op.pool == pool && run[last].op.cap > before then run[last].op.cap else before
  }

  /** Over any run the occupancy stays within what it began with and the highest cap so far. */
  lemma {:induction false} SlotsBounded(s: Contents, run: seq<Event>, pool: string)
    ensures Occupancy(After(s, run), pool) <= Occupancy(s, pool) || Occupancy(After(s, run), pool) <= PeakCap(s, run, pool)
    ensures PoolOf(After(s, run), pool).cap <= PeakCap(s, run, pool)
  {
    if run != [] {
      var last := |run| - 1;
      SlotsBounded(s, run[..last], pool);
      SlotStep(After(s, run[..last]), run[last], pool);
      hide Next, Occupancy, PoolOf;
    }
  }

  // ---------- reap ----------

  /** Reaping again at the same moment changes nothing. */
  lemma ReapTwice(s: Contents, env: Env, stale: real)
    requires stale >= 0.0
    ensures var t := Next(s, env, Reap(stale)); Next(t, env, Reap(stale)) == t
  {
    hide LeaseDead, ProvablyGone, PidAlive;
    var t := Next(s, env, Reap(stale));
    var u := Next(t, env, Reap(stale));
    forall w | w in t.workers ensures !Reapable(t.workers[w], env, stale) {
    }
    assert u.workers == t.workers;
    assert u.claims == t.claims;
    assert u.leases == t.leases;
    forall p | p in t.slots ensures ReapPool(t.slots[p], env) == t.slots[p] {
      assert ReapPool(t.slots[p], env).held == t.slots[p].held;
    }
    assert u.slots == t.slots;
  }
}
