/**
 Provisioning a plan up to its desired number of licenses: the lock-protected task
 that creates them in batches, and any interleaving of such tasks with the rest.
 */
module Provisioning {
  import opened Collections
  import opened Licensing
  import opened Lifecycle

  const PROVISION_LICENSES_BATCH_SIZE := 300

  // ---- Batches -----------------------------------------------------------------

  function BatchCountsOf(total: nat, size: nat): seq<nat>
    requires size > 0
  {
    seq(total / size, _ => size) + if total % size > 0 then [total % size] else []
  }

  /** `batch_counts` */
  method BatchCounts(total: nat, size: nat) returns (counts: seq<nat>)
    requires size > 0
    ensures counts == BatchCountsOf(total, size)
  {
    counts := [];
    for i := 0 to total / size
      invariant counts == seq(i, _ => size)
    {
      counts := counts + [size];
    }
    if total % size > 0 {
      counts := counts + [total % size];
    }
  }

  lemma {:induction false} SumOfRepeated(n: nat, size: nat, last: seq<nat>)
    ensures Sum(seq(n, _ => size) + last) == n * size + Sum(last)
  {
    if n == 0 {
      assert seq(0, _ => size) + last == last;
    } else {
      var all := seq(n, _ => size) + last;
      assert all[1..] == seq(n - 1, _ => size) + last;
      SumOfRepeated(n - 1, size, last);
      assert n * size == (n - 1) * size + size;
    }
  }

  /** The batches add up to the total, and none is empty or too large. */
  lemma BatchCountsTile(total: nat, size: nat)
    requires size > 0
    ensures Sum(BatchCountsOf(total, size)) == total
    ensures forall i :: 0 <= i < |BatchCountsOf(total, size)| ==> 1 <= BatchCountsOf(total, size)[i] <= size
    ensures forall i :: 0 <= i < |BatchCountsOf(total, size)| - 1 ==> BatchCountsOf(total, size)[i] == size
  {
    var last: seq<nat> := if total % size > 0 then [total % size] else [];
    SumOfRepeated(total / size, size, last);
    assert Sum(last) == total % size;
    assert total == (total / size) * size + total % size;
  }

  // ---- The task, run on its own ---------------------------------------------------

  /** The locks held in the cache, one key for each plan. */
  class PlanLocks {
    var held: set<PlanId>

    constructor ()
      ensures held == {}
    {
      held := {};
    }

    /** `acquire_subscription_plan_lock` */
    method Acquire(plan: PlanId) returns (acquired: bool)
      modifies this
      ensures acquired <==> plan !in old(held)
      ensures held == old(held) + {plan}
    {
      if plan in held {
        return false;
      }
      held := held + {plan};
      return true;
    }

    /** `release_subscription_plan_lock` */
    method Release(plan: PlanId)
      modifies this
      ensures held == old(held) - {plan}
    {
      held := held - {plan};
    }
  }

  function Goal(plans: Plans, plan: PlanId): nat {
    if plan in plans && plans[plan].desired.Some? then plans[plan].desired.value else 0
  }

  function Max(a: nat, b: nat): nat {
    if a >= b then a else b
  }

  /** Some new licenses for `plan`, and nothing else, came into the table. */
  ghost predicate GrownBy(ls: Licenses, after: Licenses, plan: PlanId, n: nat) {
    exists added: set<LicenseId> :: added !! ls.Keys && |added| == n && after == Increased(ls, plan, added)
  }

  lemma GrowthAddsUp(ls: Licenses, mid: Licenses, after: Licenses, plan: PlanId, n: nat, added: set<LicenseId>)
    requires GrownBy(ls, mid, plan, n) && added !! mid.Keys && after == Increased(mid, plan, added)
    ensures GrownBy(ls, after, plan, n + |added|)
  {
    var earlier: set<LicenseId> :| earlier !! ls.Keys && |earlier| == n && mid == Increased(ls, plan, earlier);
    IncreasedTwice(ls, plan, earlier, added);
    assert earlier + added !! ls.Keys && |earlier + added| == n + |added|;
  }

  lemma IncreasedTwice(ls: Licenses, plan: PlanId, a: set<LicenseId>, b: set<LicenseId>)
    ensures Increased(Increased(ls, plan, a), plan, b) == Increased(ls, plan, a + b)
  {
    var twice, once := Increased(Increased(ls, plan, a), plan, b), Increased(ls, plan, a + b);
    assert twice.Keys == once.Keys;
    assert forall id :: id in twice ==> twice[id] == once[id];
  }

  lemma NoGrowth(ls: Licenses, plan: PlanId)
    ensures GrownBy(ls, ls, plan, 0)
  {
    var none: set<LicenseId> := {};
    assert none !! ls.Keys && ls == Increased(ls, plan, none);
  }

  /** `increase_num_licenses` */
  method IncreaseNumLicenses(db: Database, plan: PlanId, n: int) returns (added: set<LicenseId>)
    modifies db`licenses
    ensures |added| == if n > 0 then n else 0
    ensures Step(old(db.Snapshot()), Increase(plan, added), db.Snapshot())
    ensures NumLicenses(db.licenses, plan) == NumLicenses(old(db.licenses), plan) + |added|
  {
    added := NewKeys(db.licenses.Keys, if n > 0 then n else 0);
    IncreaseTotals(db.licenses, plan, added, plan);
    db.licenses := Increased(db.licenses, plan, added);
  }

  /** The total only grows, up to the desired number if there is one; a completed task leaves no gap. */
  ghost predicate Provisioned(ls: Licenses, after: Licenses, plan: PlanId, desired: Option<nat>, completed: bool) {
    var before, total := NumLicenses(ls, plan), NumLicenses(after, plan);
    && before <= total
    && (desired == None ==> total == before)
    && (desired.Some? ==> total <= before || total <= desired.value)
    && (desired.Some? && completed ==> total == if before >= desired.value then before else desired.value)
  }

  datatype TaskResult = Deferred | Done | Failed

  /** The body of `provision_licenses_task`; any batch may raise instead of storing its licenses. */
  method ProvisionLicensesTask(db: Database, plan: PlanId) returns (r: TaskResult)
    requires plan in db.plans
    modifies db`licenses
    ensures !r.Deferred?
    ensures exists n :: GrownBy(old(db.licenses), db.licenses, plan, n)
    ensures NumLicenses(old(db.licenses), plan) <= NumLicenses(db.licenses, plan)
            <= Max(NumLicenses(old(db.licenses), plan), Goal(db.plans, plan))
    ensures r.Done? ==> NumLicenses(db.licenses, plan) == Max(NumLicenses(old(db.licenses), plan), Goal(db.plans, plan))
    ensures Provisioned(old(db.licenses), db.licenses, plan, db.plans[plan].desired, r.Done?)
  {
    ghost var before := db.licenses;
    NoGrowth(before, plan);
    var goal := Goal(db.plans, plan);
    var count := NumLicenses(db.licenses, plan);
    if goal == 0 || goal <= count {
      return Done;
    }
    var counts := BatchCounts(goal - count, PROVISION_LICENSES_BATCH_SIZE);
    BatchCountsTile(goal - count, PROVISION_LICENSES_BATCH_SIZE);
    r := CreateBatches(db, plan, counts);
  }

  /** The loop of the task over its batch sizes. */
  method CreateBatches(db: Database, plan: PlanId, counts: seq<nat>) returns (r: TaskResult)
    modifies db`licenses
    ensures !r.Deferred?
    ensures exists n :: GrownBy(old(db.licenses), db.licenses, plan, n)
    ensures NumLicenses(old(db.licenses), plan) <= NumLicenses(db.licenses, plan)
            <= NumLicenses(old(db.licenses), plan) + Sum(counts)
    ensures r.Done? ==> NumLicenses(db.licenses, plan) == NumLicenses(old(db.licenses), plan) + Sum(counts)
  {
    ghost var before := db.licenses;
    NoGrowth(before, plan);
    ghost var created: nat := 0;
    assert counts[0..] == counts;
    for i := 0 to |counts|
      invariant GrownBy(before, db.licenses, plan, created)
      invariant NumLicenses(db.licenses, plan) == NumLicenses(before, plan) + created
      invariant created + Sum(counts[i..]) == Sum(counts)
    {
      var fails: bool := *;
      if fails {
        return Failed;
      }
      ghost var mid := db.licenses;
      var added := IncreaseNumLicenses(db, plan, counts[i]);
      GrowthAddsUp(before, mid, db.licenses, plan, created, added);
      created := created + counts[i];
    }
    r := Done;
  }

  /** The task as wrapped by `subscription_plan_semaphore`: whatever happens, the lock is as before. */
  method RunWithLock(db: Database, locks: PlanLocks, plan: PlanId) returns (r: TaskResult)
    requires plan in db.plans
    modifies db`licenses, locks
    ensures locks.held == old(locks.held)
    ensures r.Deferred? <==> plan in old(locks.held)
    ensures r.Deferred? ==> db.licenses == old(db.licenses)
    ensures exists n :: GrownBy(old(db.licenses), db.licenses, plan, n)
    ensures NumLicenses(old(db.licenses), plan) <= NumLicenses(db.licenses, plan)
            <= Max(NumLicenses(old(db.licenses), plan), Goal(db.plans, plan))
    ensures r.Done? ==> NumLicenses(db.licenses, plan) == Max(NumLicenses(old(db.licenses), plan), Goal(db.plans, plan))
    ensures Provisioned(old(db.licenses), db.licenses, plan, db.plans[plan].desired, r.Done?)
  {
    NoGrowth(db.licenses, plan);
    var acquired := locks.Acquire(plan);
    if !acquired {
      return Deferred;
    }
    r := ProvisionLicensesTask(db, plan);
    locks.Release(plan);
  }

  datatype Answer = NothingToDo | CreatedNow(added: set<LicenseId>) | Enqueued

  /** `provision_licenses`: one batch at once, more through the task. */
  method ProvisionLicenses(db: Database, plan: PlanId) returns (r: Answer)
    requires plan in db.plans
    modifies db`licenses
    ensures var goal, count := Goal(db.plans, plan), NumLicenses(old(db.licenses), plan);
            if db.plans[plan].lastFreeze.Some? || goal <= count then
              r.NothingToDo? && db.licenses == old(db.licenses)
            else if goal - count <= PROVISION_LICENSES_BATCH_SIZE then
              r.CreatedNow? && Step(old(db.Snapshot()), Increase(plan, r.added), db.Snapshot())
              && NumLicenses(db.licenses, plan) == goal
            else
              r.Enqueued? && db.licenses == old(db.licenses)
    ensures var stored, count := db.plans[plan], NumLicenses(old(db.licenses), plan);
            match stored.desired
            case None => r.NothingToDo?
            case Some(d) =>
              && (r.NothingToDo? <==> stored.lastFreeze.Some? || d <= count)
              && (r.CreatedNow? <==> stored.lastFreeze == None && 0 < d - count <= 300)
              && (r.CreatedNow? ==> |r.added| == d - count)
  {
    r := NothingToDo;
    if Goal(db.plans, plan) != 0 && db.plans[plan].lastFreeze == None {
      var gap := Goal(db.plans, plan) - NumLicenses(db.licenses, plan);
      if gap > 0 {
        if gap <= PROVISION_LICENSES_BATCH_SIZE {
          var added := IncreaseNumLicenses(db, plan, gap);
          r := CreatedNow(added);
        } else {
          r := Enqueued;
        }
      }
    }
  }

  // ---- Any interleaving ---------------------------------------------------------------

  type ClientId = nat

  /** Where a provisioning task, or an assign request, stands. */
  datatype Phase =
    | Waiting
    | Holding
    | Creating(rest: seq<nat>)
    | Leaving(completed: bool)
    | Completed
    | Assigning
  {
    predicate HoldsLock() {
      Holding? || Creating? || Leaving? || Assigning?
    }
  }

  datatype System = System(tables: State, locked: bool, clients: map<ClientId, Phase>)

  datatype Action =
    | Acquire(c: ClientId)
    | Begin(c: ClientId)
    | CreateBatch(c: ClientId, added: set<LicenseId>)
    | Finish(c: ClientId)
    | Fail(c: ClientId)
    | Release(c: ClientId)
    | LockForAssign(c: ClientId)
    | AssignLocked(c: ClientId, assign: Event)
    | UnlockAssign(c: ClientId)
    | Elsewhere(event: Event)

  /** The batches a task decides on when its body starts; the count is not looked at again. */
  function Planned(tables: State, plan: PlanId): Phase {
    var goal, count := Goal(tables.plans, plan), NumLicenses(tables.licenses, plan);
    if goal == 0 || goal <= count then Leaving(true)
    else Creating(BatchCountsOf(goal - count, PROVISION_LICENSES_BATCH_SIZE))
  }

  /** One atomic action on a plan; tasks interleave between batches. */
  ghost predicate Act(w: System, a: Action, v: System, plan: PlanId) {
    match a
    case Acquire(c) =>
      && c in w.clients && w.clients[c] == Waiting
      && v == if w.locked then w else w.(locked := true, clients := w.clients[c := Holding])
    case Begin(c) =>
      && c in w.clients && w.clients[c] == Holding
      && v == w.(clients := w.clients[c := Planned(w.tables, plan)])
    case CreateBatch(c, added) =>
      && c in w.clients && w.clients[c].Creating? && w.clients[c].rest != [] && |added| == w.clients[c].rest[0]
      && Step(w.tables, Increase(plan, added), v.tables)
      && v == w.(tables := v.tables, clients := w.clients[c := Creating(w.clients[c].rest[1..])])
    case Finish(c) =>
      && c in w.clients && w.clients[c] == Creating([])
      && v == w.(clients := w.clients[c := Leaving(true)])
    case Fail(c) =>
      && c in w.clients && (w.clients[c].Holding? || w.clients[c].Creating?)
      && v == w.(clients := w.clients[c := Leaving(false)])
    case Release(c) =>
      && c in w.clients && w.clients[c].Leaving?
      && v == w.(locked := false, clients := w.clients[c := if w.clients[c].completed then Completed else Waiting])
    case LockForAssign(c) =>
      && c in w.clients && w.clients[c] == Waiting
      && v == if w.locked then w else w.(locked := true, clients := w.clients[c := Assigning])
    case AssignLocked(c, assign) =>
      && c in w.clients && w.clients[c] == Assigning && assign.Assign?
      && Step(w.tables, assign, v.tables) && v == w.(tables := v.tables)
    case UnlockAssign(c) =>
      && c in w.clients && w.clients[c] == Assigning
      && v == w.(locked := false, clients := w.clients[c := Waiting])
    case Elsewhere(event) =>
      && Conserving(event) && !event.Assign?
      && Step(w.tables, event, v.tables) && v == w.(tables := v.tables)
  }

  /** The lock is taken exactly while one client, and only one, is inside it. */
  ghost predicate OneHolder(w: System) {
    && (w.locked <==> exists c :: c in w.clients && w.clients[c].HoldsLock())
    && forall c, d | c in w.clients && d in w.clients ::
         w.clients[c].HoldsLock() && w.clients[d].HoldsLock() ==> c == d
  }

  /** How far the plan has come, seen from the count it started with. */
  ghost predicate OnTrack(w: System, plan: PlanId, initial: nat, goal: nat) {
    var count := NumLicenses(w.tables.licenses, plan);
    && plan in w.tables.plans && Goal(w.tables.plans, plan) == goal
    && initial <= count <= Max(initial, goal)
    && forall c :: c in w.clients ==>
         && (w.clients[c].Creating? ==> count + Sum(w.clients[c].rest) == goal)
         && (w.clients[c] == Leaving(true) || w.clients[c] == Completed ==> count == Max(initial, goal))
  }

  lemma ActKeepsOneHolder(w: System, a: Action, v: System, plan: PlanId)
    requires Act(w, a, v, plan) && OneHolder(w)
    ensures OneHolder(v)
    ensures w.locked && !v.locked ==>
              (a.Release? || a.UnlockAssign?) && a.c in w.clients && w.clients[a.c].HoldsLock()
  {
    if !a.Elsewhere? {
      assert a.c in v.clients;
      assert forall d :: d in v.clients && d != a.c ==> d in w.clients && v.clients[d] == w.clients[d];
    }
  }

  lemma EventKeepsGoal(s: State, e: Event, t: State, plan: PlanId)
    requires Step(s, e, t) && (Conserving(e) || e.Increase?) && plan in s.plans
    ensures plan in t.plans && t.plans[plan].desired == s.plans[plan].desired
  {
  }

  lemma BatchKeepsOnTrack(w: System, c: ClientId, added: set<LicenseId>, v: System,
                         plan: PlanId, initial: nat, goal: nat)
    requires Act(w, CreateBatch(c, added), v, plan) && OneHolder(w) && OnTrack(w, plan, initial, goal)
    ensures OnTrack(v, plan, initial, goal)
  {
    StepTotals(w.tables, Increase(plan, added), v.tables, plan);
    EventKeepsGoal(w.tables, Increase(plan, added), v.tables, plan);
    var rest := w.clients[c].rest;
    assert Sum(rest) == rest[0] + Sum(rest[1..]);
  }

  lemma BeginKeepsOnTrack(w: System, c: ClientId, v: System, plan: PlanId, initial: nat, goal: nat)
    requires Act(w, Begin(c), v, plan) && OnTrack(w, plan, initial, goal)
    ensures OnTrack(v, plan, initial, goal)
  {
    var count := NumLicenses(w.tables.licenses, plan);
    if goal > count {
      BatchCountsTile(goal - count, PROVISION_LICENSES_BATCH_SIZE);
    }
  }

  lemma EventKeepsOnTrack(w: System, event: Event, v: System, plan: PlanId, initial: nat, goal: nat)
    requires Conserving(event) && Step(w.tables, event, v.tables) && v == w.(tables := v.tables)
    requires OnTrack(w, plan, initial, goal)
    ensures OnTrack(v, plan, initial, goal)
  {
    StepTotals(w.tables, event, v.tables, plan);
    EventKeepsGoal(w.tables, event, v.tables, plan);
  }

  lemma ActKeepsOnTrack(w: System, a: Action, v: System, plan: PlanId, initial: nat, goal: nat)
    requires Act(w, a, v, plan) && OneHolder(w) && OnTrack(w, plan, initial, goal)
    ensures OnTrack(v, plan, initial, goal)
  {
    match a
    case CreateBatch(c, added) => BatchKeepsOnTrack(w, c, added, v, plan, initial, goal);
    case Begin(c) => BeginKeepsOnTrack(w, c, v, plan, initial, goal);
    case AssignLocked(c, assign) => EventKeepsOnTrack(w, assign, v, plan, initial, goal);
    case Elsewhere(event) => EventKeepsOnTrack(w, event, v, plan, initial, goal);
    case _ => MoveKeepsOnTrack(w, a, v, plan, initial, goal);
  }

  /** The other actions leave the tables alone. */
  lemma MoveKeepsOnTrack(w: System, a: Action, v: System, plan: PlanId, initial: nat, goal: nat)
    requires Act(w, a, v, plan) && OnTrack(w, plan, initial, goal)
    requires a.Acquire? || a.Finish? || a.Fail? || a.Release? || a.LockForAssign? || a.UnlockAssign?
    ensures OnTrack(v, plan, initial, goal)
  {
    assert v.tables == w.tables;
    if a.Finish? {
      assert Sum([]) == 0;
    }
  }

  ghost predicate Execution(run: seq<System>, actions: seq<Action>, plan: PlanId) {
    && |run| == |actions| + 1
    && forall i :: 0 <= i < |actions| ==> Act(run[i], actions[i], run[i + 1], plan)
  }

  /** Before anybody has taken the lock. */
  ghost predicate AtRest(w: System) {
    !w.locked && forall c :: c in w.clients ==> w.clients[c] == Waiting
  }

  /**
   In every interleaving: one holder at most, never more than max(initial, desired)
   licenses, and exactly that many whenever some task has run to completion.
   */
  lemma {:induction false} ProvisioningIsSafe(run: seq<System>, actions: seq<Action>, plan: PlanId)
    requires Execution(run, actions, plan) && AtRest(run[0]) && plan in run[0].tables.plans
    ensures var initial := NumLicenses(run[0].tables.licenses, plan);
            var most := Max(initial, Goal(run[0].tables.plans, plan));
            forall i :: 0 <= i < |run| ==>
              && OneHolder(run[i])
              && initial <= NumLicenses(run[i].tables.licenses, plan) <= most
              && (forall c :: c in run[i].clients && run[i].clients[c] == Completed ==>
                    NumLicenses(run[i].tables.licenses, plan) == most)
    ensures forall i :: 0 <= i < |run| ==>
              Provisioned(run[0].tables.licenses, run[i].tables.licenses, plan, run[0].tables.plans[plan].desired,
                          exists c :: c in run[i].clients && run[i].clients[c] == Completed)
  {
    var initial := NumLicenses(run[0].tables.licenses, plan);
    SafeFrom(run, actions, plan, initial, Goal(run[0].tables.plans, plan));
  }

  lemma {:induction false} SafeFrom(run: seq<System>, actions: seq<Action>, plan: PlanId, initial: nat, goal: nat)
    requires Execution(run, actions, plan) && OneHolder(run[0]) && OnTrack(run[0], plan, initial, goal)
    ensures forall i :: 0 <= i < |run| ==> OneHolder(run[i]) && OnTrack(run[i], plan, initial, goal)
    decreases |actions|
  {
    if actions == [] {
    } else {
      ActKeepsOneHolder(run[0], actions[0], run[1], plan);
      ActKeepsOnTrack(run[0], actions[0], run[1], plan, initial, goal);
      SafeFrom(run[1..], actions[1..], plan, initial, goal);
      forall i | 0 <= i < |run|
        ensures OneHolder(run[i]) && OnTrack(run[i], plan, initial, goal)
      {
        if i > 0 { assert run[i] == run[1..][i - 1]; }
      }
    }
  }

  /** The lock is only ever given back by the client that holds it. */
  lemma OnlyHolderReleases(run: seq<System>, actions: seq<Action>, plan: PlanId, i: nat)
    requires Execution(run, actions, plan) && AtRest(run[0]) && plan in run[0].tables.plans
    requires i < |actions| && run[i].locked && !run[i + 1].locked
    ensures (actions[i].Release? || actions[i].UnlockAssign?)
            && actions[i].c in run[i].clients && run[i].clients[actions[i].c].HoldsLock()
            && forall d :: d in run[i].clients && run[i].clients[d].HoldsLock() ==> d == actions[i].c
  {
    ProvisioningIsSafe(run, actions, plan);
    ActKeepsOneHolder(run[i], actions[i], run[i + 1], plan);
  }

  /** Interleaved provisioning and assignment keep learners from holding two licenses. */
  lemma {:induction false} ExecutionKeepsUnique(run: seq<System>, actions: seq<Action>, plan: PlanId)
    requires Execution(run, actions, plan) && Unique(run[0].tables.licenses)
    ensures forall i :: 0 <= i < |run| ==> Unique(run[i].tables.licenses)
    decreases |actions|
  {
    if actions == [] {
    } else {
      var w, v := run[0], run[1];
      match actions[0] {
        case CreateBatch(c, added) => StepKeepsSound(w.tables, Increase(plan, added), v.tables);
        case AssignLocked(c, assign) => StepKeepsSound(w.tables, assign, v.tables);
        case Elsewhere(event) => StepKeepsSound(w.tables, event, v.tables);
        case _ =>
      }
      ExecutionKeepsUnique(run[1..], actions[1..], plan);
      forall i | 0 <= i < |run|
        ensures Unique(run[i].tables.licenses)
      {
        if i > 0 { assert run[i] == run[1..][i - 1]; }
      }
    }
  }
}
