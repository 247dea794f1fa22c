/** The operations of scripts/pipeline/state.py as a caller sees them: what one makes another answer, now and after any
    run of operations in between. */
module InventoryMeaning {
  import opened Inventory

  // ---------- what stays ----------

  lemma ProposalStays(s: Contents, e: Event, o: string)
    requires !(e.op.MarkProposal? && e.op.opportunity == o) && !(e.op.Approve? && e.op.opportunity == o)
    ensures var t := Next(s, e.env, e.op).proposals;
      (o in t <==> o in s.proposals) && (o in s.proposals ==> t[o] == s.proposals[o])
  {
    ProposalsAfter(s, e.env, e.op);
    hide Next;
  }

  /** Only two operations touch the proposals. */
  lemma ProposalsAfter(s: Contents, env: Env, op: Op)
    ensures Next(s, env, op).proposals ==
      match op
      case MarkProposal(w, o, url, branch, slug) => s.proposals[o := Proposal(w, slug, branch, url, env.now)]
      case Approve(o, _) => if o in s.proposals then Without(s.proposals, o) else s.proposals
      case _ => s.proposals
  {
    hide ReapWorkers, ReapClaims, ReapSlots, ReapLeases, UpdatedWorker, SetStatus, PoolOf, LeaseDead, HeldByOther, Withheld,
      Without;
  }

  lemma ApprovedStays(s: Contents, e: Event, o: string)
    requires !(e.op.Approve? && e.op.opportunity == o)
    ensures var t := Next(s, e.env, e.op).approved;
      (o in t <==> o in s.approved) && (o in s.approved ==> t[o] == s.approved[o])
  {
    OnlyApproveApproves(s, e.env, e.op);
    hide Next;
  }

  lemma DoneStays(s: Contents, e: Event, o: string)
    requires o in s.done
    ensures o in Next(s, e.env, e.op).done
  {
    NextDone(s, e.env, e.op);
    hide Next;
  }

  /** No event of the run marks o as a proposal or approves it. */
  predicate LeavesProposal(run: seq<Event>, o: string) {
    forall i | 0 <= i < |run| ::
      !(run[i].op.MarkProposal? && run[i].op.opportunity == o) && !(run[i].op.Approve? && run[i].op.opportunity == o)
  }

  predicate LeavesApproved(run: seq<Event>, o: string) {
    forall i | 0 <= i < |run| :: !(run[i].op.Approve? && run[i].op.opportunity == o)
  }

  lemma {:induction false} ProposalKept(s: Contents, run: seq<Event>, o: string)
    requires o in s.proposals && LeavesProposal(run, o)
    ensures o in After(s, run).proposals && After(s, run).proposals[o] == s.proposals[o]
  {
    hide Next;
    if run != [] {
      var last := |run| - 1;
      ProposalKept(s, run[..last], o);
      ProposalStays(After(s, run[..last]), run[last], o);
    }
  }

  lemma {:induction false} ApprovedKept(s: Contents, run: seq<Event>, o: string)
    requires o in s.approved && LeavesApproved(run, o)
    ensures o in After(s, run).approved && After(s, run).approved[o] == s.approved[o]
  {
    hide Next;
    if run != [] {
      var last := |run| - 1;
      ApprovedKept(s, run[..last], o);
      ApprovedStays(After(s, run[..last]), run[last], o);
    }
  }

  lemma {:induction false} DoneKept(s: Contents, run: seq<Event>, o: string)
    requires o in s.done
    ensures o in After(s, run).done
  {
    hide Next;
    if run != [] {
      var last := |run| - 1;
      DoneKept(s, run[..last], o);
      DoneStays(After(s, run[..last]), run[last], o);
    }
  }

  // ---------- claims ----------

  /** claim() answers yes exactly when the opportunity is not done and nobody else holds it, and then the caller does. */
  lemma ClaimAnswers(s: Contents, env: Env, w: string, o: string)
    ensures var t, r := Next(s, env, Op.Claim(w, o)), ReplyOf(s, env, Op.Claim(w, o));
      && (r == Answer(true) <==> o !in s.done && (o in s.claims ==> s.claims[o].worker == w))
      && (r == Answer(true) ==> t == s.(claims := s.claims[o := Claimed(w, env.now)]))
      && (r != Answer(true) ==> r == Answer(false) && t == s)
  {
  }

  /** What is done is not claimed again, whatever happens in between. */
  lemma DoneIsFinal(s: Contents, env: Env, w: string, o: string, url: Option<string>, run: seq<Event>, later: Env, claimer: string)
    ensures var t := After(Next(s, env, MarkDone(w, o, url)), run);
      && ReplyOf(t, later, Op.Claim(claimer, o)) == Answer(false) && Next(t, later, Op.Claim(claimer, o)) == t
      && o in Taken(t)
  {
    var u := Next(s, env, MarkDone(w, o, url));
    assert o in u.done;
    DoneKept(u, run, o);
    ClaimAnswers(After(u, run), later, claimer, o);
    hide Next, After, ReplyOf;
  }

  /** mark_done() records who, what and when, drops the claim, and marks the worker, if it is known. */
  lemma DoneIs(s: Contents, env: Env, w: string, o: string, url: Option<string>)
    ensures var t := Next(s, env, MarkDone(w, o, url));
      && o in t.done && t.done[o] == Finished(w, url, env.now) && o !in t.claims
      && (forall p | p != o :: (p in t.claims <==> p in s.claims) && (p in t.done <==> p in s.done))
      && (w in s.workers ==>
            && w in t.workers && t.workers[w].status == Some("done") && t.workers[w].phase == Some("done")
            && t.workers[w].prUrl == url && t.workers[w].updatedAt == env.now && t.workers[w].pid == s.workers[w].pid)
      && (forall v | v != w :: (v in t.workers <==> v in s.workers) && (v in s.workers ==> t.workers[v] == s.workers[v]))
  {
  }

  // ---------- proposals ----------

  /** Main result: an opportunity marked as a proposal is skipped by selectors and, once approved, is claimed with the branch
      it was marked with, whatever happens before and after the approval to anything else: unless another worker holds
      it, claim_approved() answers that branch and hands the claim over. */
  lemma ProposalJourney(s: Contents, marked: Event, before: seq<Event>, approval: Event, after: seq<Event>, env: Env,
                        w: string, o: string)
    requires marked.op.MarkProposal? && marked.op.opportunity == o
    requires approval.op.Approve? && approval.op.opportunity == o
    requires LeavesProposal(before, o) && LeavesApproved(after, o)
    ensures var parked := After(Next(s, marked.env, marked.op), before);
      var approved := Next(parked, approval.env, approval.op);
      var t := After(approved, after);
      && o in Taken(parked) && o !in approved.proposals
      && ReplyOf(parked, approval.env, approval.op) == Answer(true)
      && (o !in t.claims || t.claims[o].worker == w ==>
            && ReplyOf(t, env, Op.ClaimApproved(w, o)) == Branch(Some(marked.op.branch))
            && Claims(Next(t, env, Op.ClaimApproved(w, o)), o, w))
      && (o in t.claims && t.claims[o].worker != w ==>
            ReplyOf(t, env, Op.ClaimApproved(w, o)) == Branch(None) && Next(t, env, Op.ClaimApproved(w, o)) == t)
  {
    var first := Next(s, marked.env, marked.op);
    Parked(s, marked, o);
    ProposalKept(first, before, o);
    var parked := After(first, before);
    ApprovalMoves(parked, approval, o);
    var approved := Next(parked, approval.env, approval.op);
    ApprovedKept(approved, after, o);
    var t := After(approved, after);
    ApprovedClaim(t, env, w, o);
    hide Next, After, ReplyOf;
  }

  lemma Parked(s: Contents, marked: Event, o: string)
    requires marked.op.MarkProposal? && marked.op.opportunity == o
    ensures var t := Next(s, marked.env, marked.op);
      && o in t.proposals && o !in t.claims
      && t.proposals[o] == Proposal(marked.op.worker, marked.op.proposalSlug, marked.op.branch, marked.op.proposalUrl, marked.env.now)
  {
  }

  lemma ApprovalMoves(s: Contents, approval: Event, o: string)
    requires approval.op.Approve? && approval.op.opportunity == o
    ensures var t := Next(s, approval.env, approval.op);
      && (o in s.proposals ==>
            && ReplyOf(s, approval.env, approval.op) == Answer(true) && o !in t.proposals && o in t.approved
            && t.approved[o].branch == s.proposals[o].branch && t.approved[o].prUrl == s.proposals[o].prUrl
            && t.approved[o].slug == s.proposals[o].slug && t.approved[o].approvedBy == approval.op.approvedBy
            && t.approved[o].ts == approval.env.now)
      && (o !in s.proposals ==> ReplyOf(s, approval.env, approval.op) == Answer(false) && t == s)
  {
  }

  lemma ApprovedClaim(s: Contents, env: Env, w: string, o: string)
    ensures var t, r := Next(s, env, Op.ClaimApproved(w, o)), ReplyOf(s, env, Op.ClaimApproved(w, o));
      if o in s.approved && (o in s.claims ==> s.claims[o].worker == w) then
        r == Branch(Some(s.approved[o].branch)) && t == s.(claims := s.claims[o := Claimed(w, env.now)])
      else r == Branch(None) && t == s
  {
  }

  // ---------- workers ----------

  /** register() starts a worker over: running, in setup, without a pull request, its pid vouched for if one is given. */
  lemma RegisterIs(s: Contents, env: Env, w: string, slug: string, branch: string, o: string, pid: Pid)
    ensures var t := Next(s, env, Register(w, slug, branch, o, pid));
      && w in t.workers && t.workers[w].slug == slug && t.workers[w].branch == branch && t.workers[w].opportunity == o
      && t.workers[w].phase == Some("setup") && t.workers[w].status == Some("running") && t.workers[w].prUrl == None
      && t.workers[w].pid == pid && (t.workers[w].vouched <==> pid > 0) && t.workers[w].updatedAt == env.now
      && t.(workers := s.workers) == s && t.workers - {w} == s.workers - {w}
  {
  }

  /** update() sets what it is given and the time of the heartbeat, and keeps the rest. */
  lemma UpdateIs(s: Contents, env: Env, w: string, phase: Option<string>, status: Option<string>, url: Option<string>)
    ensures var t := Next(s, env, Update(w, phase, status, url));
      && w in t.workers && t.workers[w].updatedAt == env.now && t.(workers := s.workers) == s && t.workers - {w} == s.workers - {w}
      && (w in s.workers ==>
            && t.workers[w].phase == (if phase.Some? then phase else s.workers[w].phase)
            && t.workers[w].status == (if status.Some? then status else s.workers[w].status)
            && t.workers[w].prUrl == (if url.Some? then url else s.workers[w].prUrl)
            && t.workers[w].slug == s.workers[w].slug && t.workers[w].branch == s.workers[w].branch
            && t.workers[w].opportunity == s.workers[w].opportunity && t.workers[w].pid == s.workers[w].pid
            && t.workers[w].vouched == s.workers[w].vouched)
      && (w !in s.workers ==>
            t.workers[w].phase == phase && t.workers[w].status == status && t.workers[w].prUrl == url && !t.workers[w].vouched)
  {
  }

  // ---------- reaping ----------

  /** reap() fails exactly the running workers that have been silent for longer than the limit and whose pid, if it is
      vouched for, is gone; one without such a pid must have been silent for longer than the longer limit. */
  lemma ReapedWorkers(s: Contents, env: Env, stale: real, w: string)
    ensures ReplyOf(s, env, Reap(stale)).Reaped?
    ensures w in ReplyOf(s, env, Reap(stale)).workers <==>
      && w in s.workers && s.workers[w].status == Some("running") && env.now - s.workers[w].updatedAt > stale
      && (s.workers[w].vouched && s.workers[w].pid > 0 ==> s.workers[w].pid !in env.alive)
      && (!(s.workers[w].vouched && s.workers[w].pid > 0) ==> env.now - s.workers[w].updatedAt > env.untrusted)
    ensures var t := Next(s, env, Reap(stale));
      && (w in t.workers <==> w in s.workers)
      && (w in s.workers ==>
            t.workers[w] == if w in ReplyOf(s, env, Reap(stale)).workers then s.workers[w].(status := Some("failed"), updatedAt := env.now)
            else s.workers[w])
      && (forall o :: o in t.claims <==> o in s.claims && s.claims[o].worker !in ReplyOf(s, env, Reap(stale)).workers)
  {
    hide ReapSlots, ReapLeases, LeaseDead, ProvablyGone;
  }

  /** It drops exactly the leases that have expired or whose vouched-for pid is gone, so never an unexpired lease whose
      vouched-for pid is alive; and it frees exactly the slots whose vouched-for pid is gone. */
  lemma ReapedLeases(s: Contents, env: Env, stale: real, r: string, pool: string, slot: string)
    ensures var t := Next(s, env, Reap(stale));
      && (r in t.leases <==>
            && r in s.leases && env.now - s.leases[r].ts <= s.leases[r].ttl as real
            && (s.leases[r].vouched && s.leases[r].pid > 0 ==> s.leases[r].pid in env.alive))
      && (r in t.leases ==> t.leases[r] == s.leases[r])
      && (pool in t.slots <==> pool in s.slots)
      && (pool in s.slots ==>
            && t.slots[pool].cap == s.slots[pool].cap
            && (slot in t.slots[pool].held <==>
                  && slot in s.slots[pool].held
                  && (s.slots[pool].held[slot].vouched && s.slots[pool].held[slot].pid > 0 ==>
                        s.slots[pool].held[slot].pid in env.alive)))
  {
    hide ReapWorkers, ReapClaims, Reapable, ReapsWorker;
  }

  /** A heartbeat protects its worker: no reap within the limit fails it. */
  lemma HeartbeatProtects(s: Contents, env: Env, w: string, phase: Option<string>, status: Option<string>, url: Option<string>,
                          later: Env, stale: real)
    requires later.now - env.now <= stale
    ensures var t := Next(s, env, Update(w, phase, status, url)); w !in ReplyOf(t, later, Reap(stale)).workers
  {
    UpdateIs(s, env, w, phase, status, url);
    ReapedWorkers(Next(s, env, Update(w, phase, status, url)), later, stale, w);
    hide Next, ReplyOf;
  }

  // ---------- slots and leases ----------

  /** slot_acquire() answers yes exactly when the slot is held already or the pool is below its cap; what it takes is
      recorded with its pid and kind, and slot_release() gives it back. */
  lemma SlotAnswers(s: Contents, env: Env, pool: string, slot: string, pid: Pid, kind: Option<string>)
    ensures var op := SlotAcquire(pool, slot, pid, kind);
      var t, r, p := Next(s, env, op), ReplyOf(s, env, op), if pool in s.slots then s.slots[pool] else Pool(0, map[]);
      && r == Answer(slot in p.held || |p.held| < p.cap)
      && (slot in p.held || |p.held| >= p.cap ==> t == s)
      && (slot !in p.held && |p.held| < p.cap ==>
            && pool in t.slots && t.slots[pool].cap == p.cap && slot in t.slots[pool].held
            && t.slots[pool].held[slot] == Slot(pid, pid > 0, env.now, if kind.Some? && kind.value != "" then kind.value else pool)
            && t.slots[pool].held - {slot} == p.held && t.slots - {pool} == s.slots - {pool} && t.(slots := s.slots) == s)
  {
  }

  lemma SlotReleased(s: Contents, env: Env, pool: string, slot: string)
    ensures var t := Next(s, env, SlotRelease(pool, slot));
      && t.(slots := s.slots) == s && t.slots.Keys == s.slots.Keys && t.slots - {pool} == s.slots - {pool}
      && (pool in s.slots ==> t.slots[pool].cap == s.slots[pool].cap && t.slots[pool].held == s.slots[pool].held - {slot})
  {
  }

  lemma CapIs(s: Contents, env: Env, pool: string, cap: int)
    ensures var t := Next(s, env, Op.SlotCap(pool, cap));
      && pool in t.slots && t.slots[pool].cap == cap && t.slots - {pool} == s.slots - {pool} && t.(slots := s.slots) == s
      && t.slots[pool].held == if pool in s.slots then s.slots[pool].held else map[]
  {
  }

  /** lease_acquire() answers no exactly while another holds the lease, it has not expired, and its pid, if it is vouched for,
      is alive; otherwise the caller holds it, with its own clock, TTL and pid. */
  lemma LeaseAnswers(s: Contents, env: Env, r: string, w: string, ttl: int, pid: Pid)
    ensures var op := LeaseAcquire(r, w, ttl, pid);
      var held := r in s.leases && s.leases[r].holder != w && env.now - s.leases[r].ts <= s.leases[r].ttl as real
        && (s.leases[r].vouched && s.leases[r].pid > 0 ==> s.leases[r].pid in env.alive);
      && ReplyOf(s, env, op) == Answer(!held)
      && Next(s, env, op) == if held then s else s.(leases := s.leases[r := Lease(w, env.now, ttl, pid, pid > 0)])
  {
  }

  /** lease_release() drops the lease when its holder asks, or when nobody is named. */
  lemma LeaseReleased(s: Contents, env: Env, r: string, who: Option<string>)
    ensures var t := Next(s, env, LeaseRelease(r, who));
      && (r in t.leases <==> r in s.leases && who.Some? && who.value != s.leases[r].holder)
      && t.leases - {r} == s.leases - {r} && t.(leases := s.leases) == s
  {
  }

  /** release() drops the claim and nothing else; remove() the worker and nothing else. */
  lemma DroppedAlone(s: Contents, env: Env, o: string, w: string)
    ensures Next(s, env, Op.Release(o)) == s.(claims := s.claims - {o})
    ensures Next(s, env, Op.Remove(w)) == s.(workers := s.workers - {w})
  {
  }
}
