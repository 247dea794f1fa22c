/** The operations of scripts/pipeline/state.py as they load, edit in place and save the inventory. Each is
    proved to be the step of the same name.

    The seven maps of the inventory file are the fields of one object. Loading and saving are not shown:
    every method runs under the file lock from its load to its save, so it acts on the fields alone. reap()
    goes over the workers, the slots and the leases in turn and edits each map while it walks over its keys. */
module InventoryStore {
  import opened Inventory

  // Halfway through the reap, with the workers in todo still to be looked at.

  function HalfWorkers(s: Contents, env: Env, stale: real, todo: set<string>): map<string, Worker> {
    map w | w in s.workers :: if w in todo then s.workers[w] else ReapWorkers(s, env, stale)[w]
  }

  function HalfClaims(s: Contents, env: Env, stale: real, todo: set<string>): map<string, Claimed> {
    map o | o in s.claims && (s.claims[o].worker in todo || !ReapsWorker(s, env, stale, s.claims[o].worker)) :: s.claims[o]
  }

  function HalfReaped(s: Contents, env: Env, stale: real, todo: set<string>): set<string> {
    set w | w in s.workers && w !in todo && Reapable(s.workers[w], env, stale)
  }

  function NotHeldBy(claims: map<string, Claimed>, worker: string): map<string, Claimed> {
    map o | o in claims && claims[o].worker != worker :: claims[o]
  }

  lemma HalfEnds(s: Contents, env: Env, stale: real)
    ensures HalfWorkers(s, env, stale, s.workers.Keys) == s.workers && HalfWorkers(s, env, stale, {}) == ReapWorkers(s, env, stale)
    ensures HalfClaims(s, env, stale, s.workers.Keys) == s.claims && HalfClaims(s, env, stale, {}) == ReapClaims(s, env, stale)
    ensures HalfReaped(s, env, stale, s.workers.Keys) == {}
    ensures HalfReaped(s, env, stale, {}) == set w | w in s.workers && Reapable(s.workers[w], env, stale)
  {
    hide Reapable;
  }

  lemma HalfStep(s: Contents, env: Env, stale: real, todo: set<string>, id: string)
    requires id in todo && todo <= s.workers.Keys
    ensures HalfWorkers(s, env, stale, todo)[id] == s.workers[id]
    ensures var fails, rest := Reapable(s.workers[id], env, stale), todo - {id};
      && HalfWorkers(s, env, stale, rest) ==
           (if fails then HalfWorkers(s, env, stale, todo)[id := s.workers[id].(status := Some("failed"), updatedAt := env.now)]
            else HalfWorkers(s, env, stale, todo))
      && HalfClaims(s, env, stale, rest) ==
           (if fails then NotHeldBy(HalfClaims(s, env, stale, todo), id) else HalfClaims(s, env, stale, todo))
      && HalfReaped(s, env, stale, rest) == HalfReaped(s, env, stale, todo) + if fails then {id} else {}
  {
    hide Reapable;
  }

  /** The checks reap() makes before it fails a worker. */
  method ShouldFail(env: Env, w: Worker, stale: real) returns (fails: bool)
    ensures fails == Reapable(w, env, stale)
  {
    if w.status != Some("running") {
      return false;
    }
    if env.now - w.updatedAt <= stale {
      return false;
    }
    if w.vouched && w.pid != 0 {
      if PidAlive(env, w.pid) {
        return false;
      }
    } else if env.now - w.updatedAt <= Max(stale, env.untrusted) {
      return false;
    }
    return true;
  }

  class State {
    var workers: map<string, Worker>
    var claims: map<string, Claimed>
    var done: map<string, Finished>
    var proposals: map<string, Proposal>
    var approved: map<string, Approved>
    var slots: map<string, Pool>
    var leases: map<string, Lease>

    function Now(): Contents
      reads this
    {
      Contents(workers, claims, done, proposals, approved, slots, leases)
    }

    constructor ()
      ensures Now() == Contents(map[], map[], map[], map[], map[], map[], map[])
    {
      workers, claims, done, proposals, approved, slots, leases := map[], map[], map[], map[], map[], map[], map[];
    }

    method DoRegister(env: Env, worker: string, slug: string, branch: string, opportunity: string, pid: Pid)
      modifies this
      ensures Now() == Next(old(Now()), env, Register(worker, slug, branch, opportunity, pid))
    {
      workers := workers[worker :=
        Worker(slug, branch, opportunity, Some("setup"), Some("running"), None, pid, pid != 0, env.now)];
    }

    method DoUpdate(env: Env, worker: string, phase: Option<string>, status: Option<string>, prUrl: Option<string>)
      modifies this
      ensures Now() == Next(old(Now()), env, Update(worker, phase, status, prUrl))
    {
      var w := if worker in workers then workers[worker] else Worker("", "", "", None, None, None, 0, false, env.now);
      if phase.Some? {
        w := w.(phase := phase);
      }
      if status.Some? {
        w := w.(status := status);
      }
      if prUrl.Some? {
        w := w.(prUrl := prUrl);
      }
      workers := workers[worker := w.(updatedAt := env.now)];
    }

    method DoRemove(env: Env, worker: string)
      modifies this
      ensures Now() == Next(old(Now()), env, Remove(worker))
    {
      workers := workers - {worker};
    }

    method DoClaim(env: Env, worker: string, opportunity: string) returns (claimed: bool)
      modifies this
      ensures Now() == Next(old(Now()), env, Claim(worker, opportunity))
      ensures Answer(claimed) == ReplyOf(old(Now()), env, Claim(worker, opportunity))
    {
      if opportunity in done {
        return false;
      }
      if opportunity in claims && claims[opportunity].worker != worker {
        return false;
      }
      claims := claims[opportunity := Claimed(worker, env.now)];
      return true;
    }

    method DoRelease(env: Env, opportunity: string)
      modifies this
      ensures Now() == Next(old(Now()), env, Release(opportunity))
    {
      claims := claims - {opportunity};
    }

    method DoMarkDone(env: Env, worker: string, opportunity: string, prUrl: Option<string>)
      modifies this
      ensures Now() == Next(old(Now()), env, MarkDone(worker, opportunity, prUrl))
    {
      done := done[opportunity := Finished(worker, prUrl, env.now)];
      claims := claims - {opportunity};
      if worker in workers {
        workers := workers[worker := workers[worker].(phase := Some("done"), status := Some("done"), prUrl := prUrl, updatedAt := env.now)];
      }
    }

    method DoMarkProposal(env: Env, worker: string, opportunity: string, url: string, branch: string, slug: Option<string>)
      modifies this
      ensures Now() == Next(old(Now()), env, MarkProposal(worker, opportunity, url, branch, slug))
    {
      claims := claims - {opportunity};
      proposals := proposals[opportunity := Proposal(worker, slug, branch, url, env.now)];
      if worker in workers {
        workers := workers[worker :=
          workers[worker].(phase := Some("proposal"), status := Some("proposal"), prUrl := Some(url), updatedAt := env.now)];
      }
    }

    method DoApprove(env: Env, opportunity: string, user: string) returns (moved: bool)
      modifies this
      ensures Now() == Next(old(Now()), env, Approve(opportunity, user))
      ensures Answer(moved) == ReplyOf(old(Now()), env, Approve(opportunity, user))
    {
      if opportunity !in proposals {
        return false;
      }
      var p := proposals[opportunity];
      proposals := proposals - {opportunity};
      approved := approved[opportunity := Approved(p.branch, p.prUrl, p.slug, user, env.now)];
      return true;
    }

    method DoClaimApproved(env: Env, worker: string, opportunity: string) returns (branch: Option<string>)
      modifies this
      ensures Now() == Next(old(Now()), env, ClaimApproved(worker, opportunity))
      ensures Branch(branch) == ReplyOf(old(Now()), env, ClaimApproved(worker, opportunity))
    {
      if opportunity !in approved {
        return None;
      }
      if opportunity in claims && claims[opportunity].worker != worker {
        return None;
      }
      claims := claims[opportunity := Claimed(worker, env.now)];
      return Some(approved[opportunity].branch);
    }

    method DoSlotCap(env: Env, pool: string, cap: int)
      modifies this
      ensures Now() == Next(old(Now()), env, SlotCap(pool, cap))
    {
      var p := if pool in slots then slots[pool] else Pool(0, map[]);
      slots := slots[pool := p.(cap := cap)];
    }

    method DoSlotAcquire(env: Env, pool: string, slot: string, pid: Pid, kind: Option<string>) returns (held: bool)
      modifies this
      ensures Now() == Next(old(Now()), env, SlotAcquire(pool, slot, pid, kind))
      ensures Answer(held) == ReplyOf(old(Now()), env, SlotAcquire(pool, slot, pid, kind))
    {
      var p := if pool in slots then slots[pool] else Pool(0, map[]);
      if slot in p.held {
        return true;
      }
      if |p.held| >= p.cap {
        return false;
      }
      var taken := Slot(pid, pid != 0, env.now, if kind.Some? && kind.value != "" then kind.value else pool);
      slots := slots[pool := p.(held := p.held[slot := taken])];
      return true;
    }

    method DoSlotRelease(env: Env, pool: string, slot: string)
      modifies this
      ensures Now() == Next(old(Now()), env, SlotRelease(pool, slot))
    {
      if pool in slots {
        slots := slots[pool := slots[pool].(held := slots[pool].held - {slot})];
      }
    }

    method DoLeaseAcquire(env: Env, resource: string, worker: string, ttl: int, pid: Pid) returns (held: bool)
      modifies this
      ensures Now() == Next(old(Now()), env, LeaseAcquire(resource, worker, ttl, pid))
      ensures Answer(held) == ReplyOf(old(Now()), env, LeaseAcquire(resource, worker, ttl, pid))
    {
      if resource in leases && leases[resource].holder != worker && !LeaseDead(leases[resource], env) {
        return false;
      }
      leases := leases[resource := Lease(worker, env.now, ttl, pid, pid != 0)];
      return true;
    }

    method DoLeaseRelease(env: Env, resource: string, releaser: Option<string>)
      modifies this
      ensures Now() == Next(old(Now()), env, LeaseRelease(resource, releaser))
    {
      if resource in leases && (releaser.None? || leases[resource].holder == releaser.value) {
        leases := leases - {resource};
      }
    }

    /** Drops the claims of one worker that has just been failed. */
    method DropClaims(worker: string)
      modifies this`claims
      ensures claims == NotHeldBy(old(claims), worker)
    {
      var todo := claims.Keys;
      while todo != {}
        invariant todo <= old(claims).Keys
        invariant claims == map o | o in old(claims) && (o in todo || old(claims)[o].worker != worker) :: old(claims)[o]
        decreases |todo|
      {
        var o :| o in todo;
        if claims[o].worker == worker {
          claims := claims - {o};
        }
        todo := todo - {o};
      }
    }

    method ReapTheWorkers(env: Env, stale: real) returns (reaped: set<string>)
      modifies this`workers, this`claims
      ensures workers == ReapWorkers(old(Now()), env, stale)
      ensures claims == ReapClaims(old(Now()), env, stale)
      ensures reaped == set w | w in old(workers) && Reapable(old(workers)[w], env, stale)
    {
      hide Reapable, ReapWorkers, ReapClaims, ReapsWorker, HalfWorkers, HalfClaims, HalfReaped, NotHeldBy;
      ghost var s := Now();
      var todo := workers.Keys;
      reaped := {};
      HalfEnds(s, env, stale);
      while todo != {}
        invariant todo <= s.workers.Keys && s.workers.Keys == workers.Keys
        invariant workers == HalfWorkers(s, env, stale, todo)
        invariant claims == HalfClaims(s, env, stale, todo)
        invariant reaped == HalfReaped(s, env, stale, todo)
        decreases |todo|
      {
        var id :| id in todo;
        HalfStep(s, env, stale, todo, id);
        var fails := ShouldFail(env, workers[id], stale);
        if fails {
          workers := workers[id := workers[id].(status := Some("failed"), updatedAt := env.now)];
          DropClaims(id);
          reaped := reaped + {id};
        }
        todo := todo - {id};
      }
    }

    method ReapTheSlots(env: Env) returns (reaped: set<(string, string)>)
      modifies this`slots
      ensures slots == ReapSlots(old(Now()), env)
      ensures forall p, i :: (p, i) in reaped <==>
        p in old(slots) && i in old(slots)[p].held && ProvablyGone(env, old(slots)[p].held[i].pid, old(slots)[p].held[i].vouched)
    {
      hide ProvablyGone;
      var todo, before := slots.Keys, slots;
      reaped := {};
      while todo != {}
        invariant todo <= before.Keys
        invariant slots == map p | p in before :: if p in todo then before[p] else ReapPool(before[p], env)
        invariant forall p, i :: (p, i) in reaped <==>
          p in before && p !in todo && i in before[p].held && ProvablyGone(env, before[p].held[i].pid, before[p].held[i].vouched)
        decreases |todo|
      {
        var p :| p in todo;
        var held := slots[p].held;
        var gone := set i | i in held && ProvablyGone(env, held[i].pid, held[i].vouched);
        assert held - gone == ReapPool(before[p], env).held;
        slots := slots[p := slots[p].(held := held - gone)];
        reaped := reaped + set i | i in gone :: (p, i);
        todo := todo - {p};
      }
    }

    method ReapTheLeases(env: Env) returns (reaped: set<string>)
      modifies this`leases
      ensures leases == ReapLeases(old(Now()), env)
      ensures reaped == set r | r in old(leases) && LeaseDead(old(leases)[r], env)
    {
      hide LeaseDead;
      var todo, before := leases.Keys, leases;
      reaped := {};
      while todo != {}
        invariant todo <= before.Keys
        invariant leases == map r | r in before && (r in todo || !LeaseDead(before[r], env)) :: before[r]
        invariant reaped == set r | r in before && r !in todo && LeaseDead(before[r], env)
        decreases |todo|
      {
        var r :| r in todo;
        if LeaseDead(leases[r], env) {
          leases := leases - {r};
          reaped := reaped + {r};
        }
        todo := todo - {r};
      }
    }

    method DoReap(env: Env, stale: real)
      returns (goneWorkers: set<string>, goneSlots: set<(string, string)>, goneLeases: set<string>)
      modifies this
      ensures Now() == Next(old(Now()), env, Reap(stale))
      ensures Reaped(goneWorkers, goneSlots, goneLeases) == ReplyOf(old(Now()), env, Reap(stale))
    {
      hide ReapWorkers, ReapClaims, ReapSlots, ReapLeases, Reapable, LeaseDead, ProvablyGone;
      goneWorkers := ReapTheWorkers(env, stale);
      goneSlots := ReapTheSlots(env);
      goneLeases := ReapTheLeases(env);
      ReapIs(old(Now()), env, stale, Now());
      ghost var gone := ReplyOf(old(Now()), env, Reap(stale)).slots;
      forall x ensures x in goneSlots <==> x in gone {
        assert x == (x.0, x.1);
      }
      assert goneSlots == gone;
    }
  }

  lemma ReapIs(s: Contents, env: Env, stale: real, t: Contents)
    requires t == s.(workers := ReapWorkers(s, env, stale), claims := ReapClaims(s, env, stale),
                     slots := ReapSlots(s.(workers := t.workers, claims := t.claims), env),
                     leases := ReapLeases(s.(workers := t.workers, claims := t.claims, slots := t.slots), env))
    ensures t == Next(s, env, Reap(stale))
  {
    hide ReapWorkers, ReapClaims, LeaseDead, ProvablyGone;
  }
}
