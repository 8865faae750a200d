/**
 The lifecycle as a state machine. Each event says what one committed operation
 did to the tables, with its database and uuid choices as parameters; the
 methods of the other modules are proved to make exactly these steps.
 */
module Lifecycle {
  import opened Collections
  import opened Licensing

  datatype Event =
    | Assign(plan: PlanId, emails: seq<Email>, targets: seq<LicenseId>, keys: seq<int>, now: Time)
    | AutoApply(plan: PlanId, email: Email, user: int, target: LicenseId, key: int, now: Time)
    | CleanUp(plan: PlanId, email: Email, kept: LicenseId)
    | Activate(id: LicenseId, user: int, now: Time)
    | Revoke(id: LicenseId, spare: LicenseId, now: Time)
    | Reset(id: LicenseId)
    | ScrubRevoked(id: LicenseId)
    | Increase(plan: PlanId, added: set<LicenseId>)
    | Renew(prior: PlanId, future: PlanId, added: set<LicenseId>,
            originals: seq<LicenseId>, targets: seq<LicenseId>, now: Time)
    | Freeze(plan: PlanId, now: Time)
    | RetireExpired(id: LicenseId, now: Time)

  // ---- What each operation does to the license table ------------------------

  /** `targets[i]`, an unassigned license of the plan, now belongs to `emails[i]`. */
  ghost predicate BulkAssigned(ls: Licenses, after: Licenses, plan: PlanId, emails: seq<Email>,
                           targets: seq<LicenseId>, keys: seq<int>, now: Time) {
    && |emails| == |targets| == |keys|
    && NoDup(emails) && NoDup(targets)
    && after.Keys == ls.Keys
    && (forall i :: 0 <= i < |targets| ==> targets[i] in UnassignedIn(ls, plan))
    && (forall i :: 0 <= i < |targets| ==> after[targets[i]] == ls[targets[i]].AssignTo(emails[i], keys[i], now))
    && (forall id :: id in ls && id !in targets ==> after[id] == ls[id])
  }

  /** Every non-revoked license of this learner in the plan, bar `kept`, goes back to the pool. */
  function CleanedUp(ls: Licenses, candidates: set<LicenseId>, kept: LicenseId): Licenses {
    map id | id in ls :: if id in candidates && id != kept then ls[id].ResetToUnassigned() else ls[id]
  }

  function HeldBy(ls: Licenses, plan: PlanId, email: Email): set<LicenseId> {
    set id | id in ls && ls[id].plan == plan && ls[id].status != Status.Revoked && ls[id].email == Some(email)
  }

  /** `increase_num_licenses`: new unassigned rows under new keys. */
  function Increased(ls: Licenses, plan: PlanId, added: set<LicenseId>): Licenses {
    ls + map id | id in added :: NewLicense(plan)
  }

  /**
   Renewal of `originals` into `targets` of the future plan, which was first topped up by `added`.
   */
  ghost predicate Renewed(ls: Licenses, after: Licenses, future: PlanId, added: set<LicenseId>,
                          originals: seq<LicenseId>, targets: seq<LicenseId>, planStart: Time, now: Time) {
    var pool := Increased(ls, future, added);
    && |originals| == |targets|
    && NoDup(originals) && NoDup(targets)
    && added !! ls.Keys
    && after.Keys == pool.Keys
    && (forall i :: 0 <= i < |targets| ==> targets[i] in OfPlan(pool, future))
    && (forall i :: 0 <= i < |originals| ==> originals[i] in ls && originals[i] !in targets)
    && (forall i :: 0 <= i < |targets| ==>
          after[targets[i]] == pool[targets[i]].CopyFrom(ls[originals[i]], planStart, now))
    && (forall i :: 0 <= i < |originals| ==> after[originals[i]] == ls[originals[i]].(renewedTo := Some(targets[i])))
    && (forall id :: id in pool && id !in targets && id !in originals ==> after[id] == pool[id])
  }

  /** Deleting rows clears the links to them (`on_delete=SET_NULL`). */
  function Deleted(ls: Licenses, gone: set<LicenseId>): Licenses {
    map id | id in ls && id !in gone ::
      if ls[id].renewedTo.Some? && ls[id].renewedTo.value in gone then ls[id].(renewedTo := None) else ls[id]
  }

  /** The settings of the revocation cap, and how much of it is used, are the same; new plans have used none. */
  ghost predicate SameCaps(before: Plans, after: Plans) {
    && (forall p :: p in before ==>
          p in after && after[p].capEnabled == before[p].capEnabled
          && after[p].maxPercentage == before[p].maxPercentage
          && after[p].revocationsApplied == before[p].revocationsApplied)
    && (forall p :: p in after && p !in before ==> after[p].revocationsApplied == 0)
  }

  /** Revoking an activated license uses up one revocation when the cap is on. */
  function PlansAfterRevoke(s: State, id: LicenseId): Plans
    requires id in s.licenses && s.licenses[id].plan in s.plans
  {
    var row := s.licenses[id];
    var plan := s.plans[row.plan];
    if row.status == Status.Activated && plan.capEnabled then
      s.plans[row.plan := plan.(revocationsApplied := plan.revocationsApplied + 1)]
    else
      s.plans
  }

  // ---- The revocation cap ---------------------------------------------------

  function Ceiling(x: real): int {
    -((-x).Floor)
  }

  /** `ceil(num_licenses * (revoke_max_percentage / 100))` over exact numbers. */
  function RevocationsAllowed(numLicenses: nat, percentage: nat): int {
    Ceiling(numLicenses as real * (percentage as real / 100.0))
  }

  /** `num_revocations_remaining`; None is the infinity of a plan without a cap. */
  function RevocationsRemaining(s: State, plan: PlanId): Option<int>
    requires plan in s.plans
  {
    if !s.plans[plan].capEnabled then None
    else Some(RevocationsAllowed(NumLicenses(s.licenses, plan), s.plans[plan].maxPercentage)
              - s.plans[plan].revocationsApplied)
  }

  predicate HasRevocationsRemaining(s: State, plan: PlanId)
    requires plan in s.plans
  {
    var remaining := RevocationsRemaining(s, plan);
    remaining == None || remaining.value > 0
  }

  // ---- One committed operation ----------------------------------------------

  ghost predicate Step(s: State, e: Event, t: State) {
    match e
    case Assign(plan, emails, targets, keys, now) =>
      && BulkAssigned(s.licenses, t.licenses, plan, emails, targets, keys, now)
      && (forall email :: email in emails ==> ActiveFor(s.licenses, plan, Some(email)) == {})
      && t.plans == s.plans
    case AutoApply(plan, email, user, target, key, now) =>
      && target in UnassignedIn(s.licenses, plan)
      && ActiveFor(s.licenses, plan, Some(email)) == {}
      && t == State(s.licenses[target := s.licenses[target].AutoApplyTo(email, user, key, now)], s.plans)
    case CleanUp(plan, email, kept) =>
      && kept in HeldBy(s.licenses, plan, email)
      && t == State(CleanedUp(s.licenses, HeldBy(s.licenses, plan, email), kept), s.plans)
    case Activate(id, user, now) =>
      && id in s.licenses && s.licenses[id].status == Status.Assigned
      && CleanAccepts(s.licenses, id, s.licenses[id].Activate(user, now))
      && t == State(s.licenses[id := s.licenses[id].Activate(user, now)], s.plans)
    case Revoke(id, spare, now) =>
      && id in s.licenses && s.licenses[id].Active() && s.licenses[id].plan in s.plans
      && (s.licenses[id].status == Status.Activated ==> HasRevocationsRemaining(s, s.licenses[id].plan))
      && spare !in s.licenses
      && t == State(Increased(s.licenses[id := s.licenses[id].Revoke(now)], s.licenses[id].plan, {spare}),
                    PlansAfterRevoke(s, id))
    case Reset(id) =>
      && id in s.licenses && s.licenses[id].status != Status.Revoked
      && t == State(s.licenses[id := s.licenses[id].ResetToUnassigned()], s.plans)
    case ScrubRevoked(id) =>
      && id in s.licenses && s.licenses[id].status == Status.Revoked
      && t == State(s.licenses[id := s.licenses[id].ClearPii()], s.plans)
    case Increase(plan, added) =>
      && added !! s.licenses.Keys
      && t == State(Increased(s.licenses, plan, added), s.plans)
    case Renew(prior, future, added, originals, targets, now) =>
      && future in t.plans && SameCaps(s.plans, t.plans)
      && Renewed(s.licenses, t.licenses, future, added, originals, targets, t.plans[future].startDate, now)
      && (forall id :: id in originals ==> s.licenses[id].plan == prior && s.licenses[id].Active())
      && (forall id :: id in OfPlan(s.licenses, future) ==> s.licenses[id].status == Status.Unassigned)
    case Freeze(plan, now) =>
      && plan in s.plans && s.plans[plan].canFreeze
      && t == State(Deleted(s.licenses, UnassignedIn(s.licenses, plan)),
                    s.plans[plan := s.plans[plan].(lastFreeze := Some(now))])
    case RetireExpired(id, now) =>
      && id in s.licenses
      && t == State(s.licenses[id := s.licenses[id].ClearPii().Revoke(now)], s.plans)
  }

  /** `run` is a history of the tables: `events[i]` leads from `run[i]` to `run[i + 1]`. */
  ghost predicate History(run: seq<State>, events: seq<Event>) {
    && |run| == |events| + 1
    && forall i :: 0 <= i < |events| ==> Step(run[i], events[i], run[i + 1])
  }

  // ---- At most one active license per learner and plan -----------------------

  /** Uniqueness is kept on its own; tidiness (see `Tidy`) rides along. */
  ghost predicate KeepsSound(ls: Licenses, after: Licenses) {
    Unique(after) && (Tidy(ls) ==> Tidy(after))
  }

  lemma AssignKeepsSound(ls: Licenses, after: Licenses, plan: PlanId, emails: seq<Email>,
                         targets: seq<LicenseId>, keys: seq<int>, now: Time)
    requires Unique(ls) && BulkAssigned(ls, after, plan, emails, targets, keys, now)
    requires forall email :: email in emails ==> ActiveFor(ls, plan, Some(email)) == {}
    ensures KeepsSound(ls, after)
  {
    forall id, email | id in ls && ls[id].Active() && ls[id].plan == plan && email in emails
      ensures ls[id].email != Some(email)
    {
      assert id !in ActiveFor(ls, plan, Some(email));
    }
    forall id | id in targets
      ensures exists i :: 0 <= i < |targets| && targets[i] == id
                     && after[id] == ls[id].AssignTo(emails[i], keys[i], now)
      ensures after[id].plan == plan
    {
      var i :| 0 <= i < |targets| && targets[i] == id;
      assert targets[i] in UnassignedIn(ls, plan);
    }
  }

  /** What a renewal shows of each row: a target looks like its original, the rest as before. */
  lemma RenewedRows(ls: Licenses, after: Licenses, future: PlanId, added: set<LicenseId>,
                    originals: seq<LicenseId>, targets: seq<LicenseId>, planStart: Time, now: Time)
    requires Renewed(ls, after, future, added, originals, targets, planStart, now)
    ensures forall i :: 0 <= i < |targets| ==>
              targets[i] in after && after[targets[i]].plan == future
              && after[targets[i]].status == ls[originals[i]].status
              && after[targets[i]].email == ls[originals[i]].email
              && after[targets[i]].assignedDate == Some(now)
    ensures forall id :: id in after && id !in targets ==>
              if id in ls then after[id] == ls[id].(renewedTo := after[id].renewedTo)
              else after[id] == NewLicense(future)
  {
    var pool := Increased(ls, future, added);
    forall id | id in after && id !in targets
      ensures if id in ls then after[id] == ls[id].(renewedTo := after[id].renewedTo)
              else after[id] == NewLicense(future)
    {
      if id in originals {
        var i :| 0 <= i < |originals| && originals[i] == id;
      }
    }
  }

  lemma RenewKeepsUnique(ls: Licenses, after: Licenses, future: PlanId, added: set<LicenseId>,
                         originals: seq<LicenseId>, targets: seq<LicenseId>, planStart: Time, now: Time, prior: PlanId)
    requires Unique(ls) && Renewed(ls, after, future, added, originals, targets, planStart, now)
    requires forall id :: id in originals ==> ls[id].plan == prior && ls[id].Active()
    requires forall id :: id in OfPlan(ls, future) ==> ls[id].status == Status.Unassigned
    ensures Unique(after)
  {
    RenewedRows(ls, after, future, added, originals, targets, planStart, now);
    forall id | id in after && id !in targets && after[id].Active()
      ensures id in ls && ls[id].Active() && after[id].plan == ls[id].plan && after[id].email == ls[id].email
      ensures after[id].plan != future
    {
      assert id in OfPlan(ls, future) <==> id in ls && ls[id].plan == future;
    }
    forall i, j | 0 <= i < |targets| && 0 <= j < |targets| && after[targets[i]].email == after[targets[j]].email
      ensures i == j
    {
      assert originals[i] in originals && originals[j] in originals;
    }
    forall id | id in targets
      ensures exists i :: 0 <= i < |targets| && targets[i] == id
      ensures after[id].plan == future
    {
      var i :| 0 <= i < |targets| && targets[i] == id;
    }
  }

  lemma RenewKeepsTidy(ls: Licenses, after: Licenses, future: PlanId, added: set<LicenseId>,
                       originals: seq<LicenseId>, targets: seq<LicenseId>, planStart: Time, now: Time)
    requires Tidy(ls) && Renewed(ls, after, future, added, originals, targets, planStart, now)
    requires forall id :: id in originals ==> ls[id].Active()
    ensures Tidy(after)
  {
    RenewedRows(ls, after, future, added, originals, targets, planStart, now);
    forall id | id in targets
      ensures after[id].Active() && after[id].email.Some? && after[id].assignedDate.Some?
    {
      var i :| 0 <= i < |targets| && targets[i] == id;
      assert originals[i] in originals;
    }
  }

  lemma ResetsKeepSound(ls: Licenses, after: Licenses)
    requires Unique(ls) && after.Keys <= ls.Keys
    requires forall id :: id in after ==>
               (!after[id].Active() && (after[id].status == Status.Unassigned ==> after[id].email == None))
               || after[id] == ls[id].(renewedTo := after[id].renewedTo)
    ensures KeepsSound(ls, after)
  {
  }

  lemma SaveKeepsSound(ls: Licenses, id: LicenseId, row: License)
    requires Unique(ls) && CleanAccepts(ls, id, row)
    requires row.Active() && (Tidy(ls) ==> row.email.Some? && row.assignedDate.Some?)
    ensures KeepsSound(ls, ls[id := row])
  {
    SaveKeepsUniqueIff(ls, id, row);
  }

  lemma ResetOneKeepsSound(ls: Licenses, id: LicenseId, row: License)
    requires Unique(ls) && id in ls
    requires !row.Active() && (row.status == Status.Unassigned ==> row.email == None)
    ensures KeepsSound(ls, ls[id := row])
  {
    ResetsKeepSound(ls, ls[id := row]);
  }

  lemma IncreaseKeepsSound(ls: Licenses, plan: PlanId, added: set<LicenseId>)
    requires Unique(ls) && added !! ls.Keys
    ensures KeepsSound(ls, Increased(ls, plan, added))
  {
  }

  lemma StepKeepsSound(s: State, e: Event, t: State)
    requires Unique(s.licenses) && Step(s, e, t)
    ensures KeepsSound(s.licenses, t.licenses)
  {
    var ls := s.licenses;
    match e
    case Assign(plan, emails, targets, keys, now) =>
      AssignKeepsSound(ls, t.licenses, plan, emails, targets, keys, now);
    case AutoApply(plan, email, user, target, key, now) =>
      SaveKeepsSound(ls, target, ls[target].AutoApplyTo(email, user, key, now));
    case CleanUp(plan, email, kept) =>
      ResetsKeepSound(ls, t.licenses);
    case Activate(id, user, now) =>
      SaveKeepsSound(ls, id, ls[id].Activate(user, now));
    case Revoke(id, spare, now) =>
      ResetOneKeepsSound(ls, id, ls[id].Revoke(now));
      IncreaseKeepsSound(ls[id := ls[id].Revoke(now)], ls[id].plan, {spare});
    case Reset(id) =>
      ResetOneKeepsSound(ls, id, ls[id].ResetToUnassigned());
    case ScrubRevoked(id) =>
      ResetOneKeepsSound(ls, id, ls[id].ClearPii());
    case Increase(plan, added) =>
      IncreaseKeepsSound(ls, plan, added);
    case Renew(prior, future, added, originals, targets, now) =>
      RenewKeepsUnique(ls, t.licenses, future, added, originals, targets, t.plans[future].startDate, now, prior);
      if Tidy(ls) {
        RenewKeepsTidy(ls, t.licenses, future, added, originals, targets, t.plans[future].startDate, now);
      }
    case Freeze(plan, now) =>
      ResetsKeepSound(ls, t.licenses);
    case RetireExpired(id, now) =>
      ResetOneKeepsSound(ls, id, ls[id].ClearPii().Revoke(now));
  }

  /** No history of lifecycle operations gives a learner two active licenses in one plan. */
  lemma {:induction false} HistoryKeepsUnique(run: seq<State>, events: seq<Event>)
    requires History(run, events) && Unique(run[0].licenses)
    ensures forall i :: 0 <= i < |run| ==> KeepsSound(run[0].licenses, run[i].licenses)
    decreases |events|
  {
    if events == [] {
    } else {
      StepKeepsSound(run[0], events[0], run[1]);
      HistoryKeepsUnique(run[1..], events[1..]);
      forall i | 0 <= i < |run|
        ensures KeepsSound(run[0].licenses, run[i].licenses)
      {
        if i > 0 { assert run[i] == run[1..][i - 1]; }
      }
    }
  }

  /** The same, told by status: two assigned or activated licenses of a plan never name the same learner. */
  lemma NoTwoHolders(run: seq<State>, events: seq<Event>, i: nat, a: LicenseId, b: LicenseId)
    requires History(run, events) && i < |run|
    requires forall x, y :: x in run[0].licenses && y in run[0].licenses ==>
               Rivals(run[0].licenses[x], run[0].licenses[y]) ==> x == y
    requires a in run[i].licenses && b in run[i].licenses && Rivals(run[i].licenses[a], run[i].licenses[b])
    ensures a == b
  {
    forall x, y | x in run[0].licenses && y in run[0].licenses
                  && run[0].licenses[x].Active() && run[0].licenses[y].Active()
                  && run[0].licenses[x].plan == run[0].licenses[y].plan
                  && run[0].licenses[x].email == run[0].licenses[y].email
      ensures x == y
    {
      assert Rivals(run[0].licenses[x], run[0].licenses[y]);
    }
    HistoryKeepsUnique(run, events);
  }

  /** Two rows that would give one learner two licenses of a plan. */
  ghost predicate Rivals(a: License, b: License) {
    && a.status in {Status.Assigned, Status.Activated} && b.status in {Status.Assigned, Status.Activated}
    && a.plan == b.plan && a.email == b.email
  }

  /** `t` is the outcome of some history of operations that starts in `s`. */
  ghost predicate Reachable(s: State, t: State) {
    exists run, events :: History(run, events) && run[0] == s && run[|run| - 1] == t
  }

  lemma ReachableRefl(s: State)
    ensures Reachable(s, s)
  {
    var events: seq<Event> := [];
    assert History([s], events);
  }

  lemma ReachableStep(s: State, t: State, e: Event, u: State)
    requires Reachable(s, t) && Step(t, e, u)
    ensures Reachable(s, u)
  {
    var run, events :| History(run, events) && run[0] == s && run[|run| - 1] == t;
    assert History(run + [u], events + [e]);
  }

  lemma ReachableKeepsUnique(s: State, t: State)
    requires Reachable(s, t) && Unique(s.licenses)
    ensures KeepsSound(s.licenses, t.licenses)
  {
    var run, events :| History(run, events) && run[0] == s && run[|run| - 1] == t;
    HistoryKeepsUnique(run, events);
  }

  // ---- License totals ---------------------------------------------------------

  /** Operations after which every plan has as many usable licenses as before. */
  predicate Conserving(e: Event) {
    e.Assign? || e.AutoApply? || e.CleanUp? || e.Activate? || e.Revoke? || e.Reset? || e.ScrubRevoked?
  }

  lemma SameUsable(ls: Licenses, after: Licenses, plan: PlanId)
    requires after.Keys == ls.Keys
    requires forall id :: id in ls ==>
               after[id].plan == ls[id].plan
               && (after[id].status == Status.Revoked <==> ls[id].status == Status.Revoked)
    ensures UsableIn(after, plan) == UsableIn(ls, plan)
  {
  }

  lemma IncreaseTotals(ls: Licenses, to: PlanId, added: set<LicenseId>, plan: PlanId)
    requires added !! ls.Keys
    ensures UsableIn(Increased(ls, to, added), plan) == UsableIn(ls, plan) + (if plan == to then added else {})
    ensures NumLicenses(Increased(ls, to, added), plan) == NumLicenses(ls, plan) + (if plan == to then |added| else 0)
  {
    assert UsableIn(Increased(ls, to, added), plan) == UsableIn(ls, plan) + (if plan == to then added else {});
  }

  /** A revocation swaps the revoked license for a new one in the pool of the same plan. */
  lemma RevokeTotals(ls: Licenses, id: LicenseId, spare: LicenseId, now: Time, plan: PlanId)
    requires id in ls && ls[id].Active() && spare !in ls
    ensures NumLicenses(Increased(ls[id := ls[id].Revoke(now)], ls[id].plan, {spare}), plan) == NumLicenses(ls, plan)
  {
    var revoked := ls[id := ls[id].Revoke(now)];
    IncreaseTotals(revoked, ls[id].plan, {spare}, plan);
    UsableAfterRevoke(ls, id, now, plan);
    if ls[id].plan == plan {
      assert id in UsableIn(ls, plan);
      assert |UsableIn(ls, plan) - {id}| == |UsableIn(ls, plan)| - 1;
    } else {
      assert UsableIn(ls, plan) - {id} == UsableIn(ls, plan);
    }
  }

  lemma UsableAfterRevoke(ls: Licenses, id: LicenseId, now: Time, plan: PlanId)
    requires id in ls
    ensures UsableIn(ls[id := ls[id].Revoke(now)], plan) == UsableIn(ls, plan) - {id}
  {
  }

  lemma SaveTotals(ls: Licenses, id: LicenseId, row: License, plan: PlanId)
    requires id in ls && row.plan == ls[id].plan && (row.status == Status.Revoked <==> ls[id].status == Status.Revoked)
    ensures NumLicenses(ls[id := row], plan) == NumLicenses(ls, plan)
  {
    SameUsable(ls, ls[id := row], plan);
  }

  /** What a revocation leaves: the revoked row, a blank one in its place, and perhaps a charge. */
  lemma RevokeInFields(s: State, id: LicenseId, spare: LicenseId, now: Time, t: State)
    requires Step(s, Revoke(id, spare, now), t)
    ensures t.licenses.Keys == s.licenses.Keys + {spare} && spare !in s.licenses
    ensures t.licenses[id] == s.licenses[id].(status := Status.Revoked, revokedDate := Some(now))
    ensures t.licenses[spare] ==
            License(s.licenses[id].plan, Status.Unassigned, None, None, None, None, None, None, None, None, None,
                    false, None)
    ensures forall other :: other in s.licenses && other != id ==> t.licenses[other] == s.licenses[other]
    ensures var plan := s.licenses[id].plan;
            var charge := if s.licenses[id].status == Status.Activated && s.plans[plan].capEnabled then 1 else 0;
            t.plans == s.plans[plan := s.plans[plan].(revocationsApplied := s.plans[plan].revocationsApplied + charge)]
  {
  }

  lemma RenewTotals(ls: Licenses, after: Licenses, future: PlanId, added: set<LicenseId>,
                    originals: seq<LicenseId>, targets: seq<LicenseId>, planStart: Time, now: Time, plan: PlanId)
    requires Renewed(ls, after, future, added, originals, targets, planStart, now)
    requires forall id :: id in originals ==> ls[id].Active()
    requires forall id :: id in OfPlan(ls, future) ==> ls[id].status == Status.Unassigned
    ensures NumLicenses(after, plan) == NumLicenses(ls, plan) + (if plan == future then |added| else 0)
  {
    var pool := Increased(ls, future, added);
    RenewedRows(ls, after, future, added, originals, targets, planStart, now);
    forall id | id in pool
      ensures after[id].plan == pool[id].plan
      ensures after[id].status == Status.Revoked <==> pool[id].status == Status.Revoked
    {
      if id in targets {
        var i :| 0 <= i < |targets| && targets[i] == id;
        assert originals[i] in originals && targets[i] in OfPlan(pool, future);
        assert id in added || id in OfPlan(ls, future);
      }
    }
    SameUsable(pool, after, plan);
    IncreaseTotals(ls, future, added, plan);
  }

  /** How each operation changes the total of a plan. */
  lemma StepTotals(s: State, e: Event, t: State, plan: PlanId)
    requires Step(s, e, t)
    ensures Conserving(e) ==> NumLicenses(t.licenses, plan) == NumLicenses(s.licenses, plan)
    ensures !e.Freeze? && !e.RetireExpired? ==> NumLicenses(t.licenses, plan) >= NumLicenses(s.licenses, plan)
    ensures e.Increase? && e.plan == plan ==> NumLicenses(t.licenses, plan) == NumLicenses(s.licenses, plan) + |e.added|
  {
    var ls := s.licenses;
    match e
    case Revoke(id, spare, now) =>
      RevokeTotals(ls, id, spare, now, plan);
    case Increase(to, added) =>
      IncreaseTotals(ls, to, added, plan);
    case Renew(prior, future, added, originals, targets, now) =>
      RenewTotals(ls, t.licenses, future, added, originals, targets, t.plans[future].startDate, now, plan);
    case Assign(to, emails, targets, keys, now) =>
      AssignTotals(ls, t.licenses, to, emails, targets, keys, now, plan);
    case AutoApply(to, email, user, id, key, now) =>
      SaveTotals(ls, id, ls[id].AutoApplyTo(email, user, key, now), plan);
    case Activate(id, user, now) => SaveTotals(ls, id, ls[id].Activate(user, now), plan);
    case Reset(id) => SaveTotals(ls, id, ls[id].ResetToUnassigned(), plan);
    case ScrubRevoked(id) => SaveTotals(ls, id, ls[id].ClearPii(), plan);
    case CleanUp(to, email, kept) => CleanUpTotals(ls, HeldBy(ls, to, email), kept, plan);
    case _ =>
  }

  lemma CleanUpTotals(ls: Licenses, candidates: set<LicenseId>, kept: LicenseId, plan: PlanId)
    requires forall id :: id in candidates ==> id in ls && ls[id].status != Status.Revoked
    ensures NumLicenses(CleanedUp(ls, candidates, kept), plan) == NumLicenses(ls, plan)
  {
    SameUsable(ls, CleanedUp(ls, candidates, kept), plan);
  }

  lemma AssignTotals(ls: Licenses, after: Licenses, to: PlanId, emails: seq<Email>,
                     targets: seq<LicenseId>, keys: seq<int>, now: Time, plan: PlanId)
    requires BulkAssigned(ls, after, to, emails, targets, keys, now)
    ensures NumLicenses(after, plan) == NumLicenses(ls, plan)
  {
    forall id | id in ls
      ensures after[id].plan == ls[id].plan
      ensures after[id].status == Status.Revoked <==> ls[id].status == Status.Revoked
    {
      if id in targets {
        var i :| 0 <= i < |targets| && targets[i] == id;
        assert targets[i] in UnassignedIn(ls, to);
      }
    }
    SameUsable(ls, after, plan);
  }
}
