/**
 Revoking licenses: one license, a list of learners, or a whole plan, and the
 cap on revocations that a plan may carry.
 */
module Revocation {
  import opened Collections
  import opened Licensing
  import opened Lifecycle

  // ---- The cap over whole histories -------------------------------------------

  /** The cap as an integer: the least whole number at or above numLicenses * percentage / 100. */
  lemma RevocationsAllowedIsLeast(numLicenses: nat, percentage: nat)
    ensures var allowed := RevocationsAllowed(numLicenses, percentage);
            100 * (allowed - 1) < numLicenses * percentage <= 100 * allowed
  {
    var exact := numLicenses as real * (percentage as real / 100.0);
    assert 100.0 * exact == numLicenses as real * percentage as real;
    assert (numLicenses * percentage) as real == numLicenses as real * percentage as real;
  }

  lemma RevocationsAllowedMonotone(fewer: nat, more: nat, percentage: nat)
    requires fewer <= more
    ensures RevocationsAllowed(fewer, percentage) <= RevocationsAllowed(more, percentage)
  {
    RevocationsAllowedIsLeast(fewer, percentage);
    RevocationsAllowedIsLeast(more, percentage);
    assert fewer * percentage <= more * percentage;
  }

  /** A plan with a cap has not used more revocations than the cap allows. */
  ghost predicate CapRespected(s: State, plan: PlanId) {
    plan in s.plans && s.plans[plan].capEnabled ==>
      s.plans[plan].revocationsApplied <= RevocationsAllowed(NumLicenses(s.licenses, plan), s.plans[plan].maxPercentage)
  }

  /** A step leaves the settings of the cap alone, and uses up one revocation at most, and only if one remains. */
  lemma StepCharges(s: State, e: Event, t: State, plan: PlanId)
    requires Step(s, e, t) && plan in s.plans
    ensures plan in t.plans && t.plans[plan].capEnabled == s.plans[plan].capEnabled
    ensures t.plans[plan].maxPercentage == s.plans[plan].maxPercentage
    ensures t.plans[plan].revocationsApplied == s.plans[plan].revocationsApplied
            || (t.plans[plan].revocationsApplied == s.plans[plan].revocationsApplied + 1
                && HasRevocationsRemaining(s, plan))
  {
  }

  /** The cap holds after a charge that it allowed, as long as the plan did not lose licenses. */
  lemma ChargeKeepsCap(s: State, t: State, plan: PlanId)
    requires plan in s.plans && plan in t.plans && t.plans[plan].capEnabled == s.plans[plan].capEnabled
    requires t.plans[plan].maxPercentage == s.plans[plan].maxPercentage
    requires t.plans[plan].revocationsApplied == s.plans[plan].revocationsApplied
             || (t.plans[plan].revocationsApplied == s.plans[plan].revocationsApplied + 1
                 && HasRevocationsRemaining(s, plan))
    requires NumLicenses(s.licenses, plan) <= NumLicenses(t.licenses, plan) && CapRespected(s, plan)
    ensures CapRespected(t, plan)
  {
    RevocationsAllowedMonotone(NumLicenses(s.licenses, plan), NumLicenses(t.licenses, plan),
                               s.plans[plan].maxPercentage);
  }

  lemma StepKeepsCap(s: State, e: Event, t: State, plan: PlanId)
    requires Step(s, e, t) && !e.Freeze? && !e.RetireExpired?
    requires CapRespected(s, plan)
    ensures CapRespected(t, plan)
    ensures plan in s.plans ==> plan in t.plans && t.plans[plan].capEnabled == s.plans[plan].capEnabled
                                && t.plans[plan].maxPercentage == s.plans[plan].maxPercentage
  {
    if plan in s.plans {
      StepCharges(s, e, t, plan);
      StepTotals(s, e, t, plan);
      ChargeKeepsCap(s, t, plan);
    } else if plan in t.plans {
      RevocationsAllowedIsLeast(NumLicenses(t.licenses, plan), t.plans[plan].maxPercentage);
    }
  }

  /**
   No history without a freeze or an expiry retirement overdraws the cap of a plan, be it one
   that was there at the start or one that a renewal created on the way.
   */
  lemma {:induction false} HistoryKeepsCap(run: seq<State>, events: seq<Event>, plan: PlanId)
    requires History(run, events)
    requires forall e :: e in events ==> !e.Freeze? && !e.RetireExpired?
    requires CapRespected(run[0], plan)
    ensures forall i :: 0 <= i < |run| ==> CapRespected(run[i], plan) && (plan in run[0].plans ==> plan in run[i].plans)
    decreases |events|
  {
    if events == [] {
    } else {
      assert events[0] in events;
      StepKeepsCap(run[0], events[0], run[1], plan);
      HistoryKeepsCap(run[1..], events[1..], plan);
      forall i | 0 <= i < |run|
        ensures CapRespected(run[i], plan) && (plan in run[0].plans ==> plan in run[i].plans)
      {
        if i > 0 { assert run[i] == run[1..][i - 1]; }
      }
    }
  }

  /** Revoking an assigned license never uses up a revocation. */
  lemma RevokingAssignedIsFree(s: State, id: LicenseId, spare: LicenseId, now: Time, t: State)
    requires Step(s, Revoke(id, spare, now), t) && s.licenses[id].status == Status.Assigned
    ensures forall p :: p in s.plans ==> p in t.plans && RevocationsRemaining(t, p) == RevocationsRemaining(s, p)
  {
    forall p | p in s.plans
      ensures p in t.plans && RevocationsRemaining(t, p) == RevocationsRemaining(s, p)
    {
      StepTotals(s, Revoke(id, spare, now), t, p);
    }
  }

  /** In whole numbers: the cap is on, and leaves nothing once `more` further revocations are used. */
  ghost predicate UsedUpAfter(ls: Licenses, plan: Plan, id: PlanId, more: int) {
    plan.capEnabled && 100 * (plan.revocationsApplied + more) >= NumLicenses(ls, id) * plan.maxPercentage
  }

  /** More than `asked - 1` revocations remain exactly if the cap is not used up after so many. */
  lemma TooManyIffUsedUp(s: State, plan: PlanId, asked: int)
    requires plan in s.plans
    ensures RevocationsRemaining(s, plan).Some? && asked > RevocationsRemaining(s, plan).value
            <==> UsedUpAfter(s.licenses, s.plans[plan], plan, asked - 1)
  {
    RevocationsAllowedIsLeast(NumLicenses(s.licenses, plan), s.plans[plan].maxPercentage);
  }

  // ---- Revoking one license -----------------------------------------------------

  datatype RevokeResult =
    | LimitReached
    | NotRevocable(status: Status)
    | Done(originalStatus: Status, spare: LicenseId)

  /** `revoke_license`. */
  method RevokeLicense(db: Database, id: LicenseId, now: Time) returns (r: RevokeResult)
    requires id in db.licenses && db.licenses[id].plan in db.plans
    modifies db`licenses, db`plans
    ensures r.LimitReached? <==>
              old(db.licenses[id].status) == Status.Activated
              && !HasRevocationsRemaining(old(db.Snapshot()), old(db.licenses[id].plan))
    ensures r.LimitReached? <==>
              var row := old(db.licenses[id]);
              row.status == Status.Activated && UsedUpAfter(old(db.licenses), old(db.plans)[row.plan], row.plan, 0)
    ensures r.NotRevocable? <==> old(db.licenses[id].status) in {Status.Unassigned, Status.Revoked}
    ensures r.NotRevocable? ==> r.status == old(db.licenses[id].status)
    ensures !r.Done? ==> db.Snapshot() == old(db.Snapshot())
    ensures r.Done? ==>
              r.originalStatus == old(db.licenses[id].status)
              && Step(old(db.Snapshot()), Revoke(id, r.spare, now), db.Snapshot())
  {
    var row := db.licenses[id];
    var plan := db.plans[row.plan];
    var limitReached := !HasRevocationsRemaining(db.Snapshot(), row.plan);
    TooManyIffUsedUp(db.Snapshot(), row.plan, 1);
    if limitReached && row.status == Status.Activated {
      return LimitReached;
    }
    if row.status != Status.Activated && row.status != Status.Assigned {
      return NotRevocable(row.status);
    }
    if row.status == Status.Activated && plan.capEnabled {
      db.plans := db.plans[row.plan := plan.(revocationsApplied := plan.revocationsApplied + 1)];
    }
    var saved := db.Save(id, row.Revoke(now));
    var added := NewKeys(db.licenses.Keys, 1);
    var spare :| spare in added;
    assert added == {spare} by { SubsetSizeOne(added, spare); }
    db.licenses := Increased(db.licenses, row.plan, {spare});
    r := Done(row.status, spare);
  }

  lemma SubsetSizeOne<T>(s: set<T>, x: T)
    requires x in s && |s| == 1
    ensures s == {x}
  {
    assert |s - {x}| == 0;
  }

  // ---- Revoking by learner --------------------------------------------------------

  function HeldAs(ls: Licenses, plan: PlanId, email: Option<Email>, status: Status): set<LicenseId> {
    set id | id in ls && ls[id].plan == plan && ls[id].email == email && ls[id].status == status
  }

  /** Assigned licenses first, each kind in key order. */
  ghost function AssignedFirst(pending: set<LicenseId>, active: set<LicenseId>): seq<LicenseId> {
    InKeyOrder(pending) + InKeyOrder(active)
  }

  /** The order in which a learner's active licenses go. */
  ghost function RevocationOrder(ls: Licenses, plan: PlanId, email: Option<Email>): seq<LicenseId> {
    AssignedFirst(HeldAs(ls, plan, email, Status.Assigned), HeldAs(ls, plan, email, Status.Activated))
  }

  lemma AssignedFirstElems(pending: set<LicenseId>, active: set<LicenseId>)
    ensures var order := AssignedFirst(pending, active);
            && Elems(order) == pending + active
            && forall i :: 0 <= i < |order| ==> order[i] in if i < |pending| then pending else active
  {
    var first, second := InKeyOrder(pending), InKeyOrder(active);
    AscendingEnumerates(first);
    assert forall i :: 0 <= i < |first| ==> first[i] in Elems(first);
    assert forall i :: 0 <= i < |second| ==> second[i] in Elems(second);
    assert forall id :: id in Elems(first + second) <==> id in Elems(first) || id in Elems(second);
  }

  lemma OrderIsActive(ls: Licenses, plan: PlanId, email: Option<Email>)
    ensures Elems(RevocationOrder(ls, plan, email)) == ActiveFor(ls, plan, email)
  {
    AssignedFirstElems(HeldAs(ls, plan, email, Status.Assigned), HeldAs(ls, plan, email, Status.Activated));
  }

  lemma InOrder(ls: Licenses, plan: PlanId, email: Option<Email>, i: nat)
    requires i < |RevocationOrder(ls, plan, email)|
    ensures var id := RevocationOrder(ls, plan, email)[i];
            && id in ActiveFor(ls, plan, email)
            && (ls[id].status == Status.Activated <==> i >= |HeldAs(ls, plan, email, Status.Assigned)|)
  {
    AssignedFirstElems(HeldAs(ls, plan, email, Status.Assigned), HeldAs(ls, plan, email, Status.Activated));
  }

  lemma AssignedFirstTail(pending: set<LicenseId>, active: set<LicenseId>, id: LicenseId)
    requires pending !! active && AssignedFirst(pending, active) != [] && id == AssignedFirst(pending, active)[0]
    ensures AssignedFirst(pending - {id}, active - {id}) == AssignedFirst(pending, active)[1..]
  {
    var first, second := InKeyOrder(pending), InKeyOrder(active);
    NoElems(first);
    NoElems(second);
    if pending != {} {
      KeyOrderTail(pending);
      assert active - {id} == active;
      assert (first + second)[1..] == first[1..] + second;
    } else {
      KeyOrderTail(active);
      assert pending - {id} == pending;
      assert first + second == second && first + second[1..] == second[1..];
    }
  }

  /** `_revoke_by_email_and_plan`, up to its choice of a license. */
  method ChooseToRevoke(ls: Licenses, plan: PlanId, email: Option<Email>) returns (chosen: Option<LicenseId>)
    ensures var order := RevocationOrder(ls, plan, email);
            chosen == if order == [] then None else Some(order[0])
  {
    var candidates := ActiveFor(ls, plan, email);
    OrderIsActive(ls, plan, email);
    NoElems(RevocationOrder(ls, plan, email));
    if candidates == {} {
      return None;
    }
    var pending := set id | id in candidates && ls[id].status == Status.Assigned;
    assert pending == HeldAs(ls, plan, email, Status.Assigned);
    if pending != {} {
      KeyOrderTail(pending);
      chosen := Some(Min(pending));
    } else {
      ghost var active := HeldAs(ls, plan, email, Status.Activated);
      assert candidates == pending + active && candidates == active;
      NoElems(InKeyOrder(pending));
      KeyOrderTail(active);
      chosen := Some(Min(candidates));
    }
  }

  datatype EmailResult = NotFound | Tried(id: LicenseId, result: RevokeResult)

  /** `_revoke_by_email_and_plan`. */
  method RevokeByEmailAndPlan(db: Database, plan: PlanId, email: Option<Email>, now: Time) returns (r: EmailResult)
    requires plan in db.plans
    modifies db`licenses, db`plans
    ensures var order := RevocationOrder(old(db.licenses), plan, email);
            if order == [] then r == NotFound && db.Snapshot() == old(db.Snapshot())
            else
              && r.Tried? && r.id == order[0] && r.id in ActiveFor(old(db.licenses), plan, email)
              && !r.result.NotRevocable?
              && (r.result.LimitReached? <==>
                    old(db.licenses)[r.id].status == Status.Activated
                    && !HasRevocationsRemaining(old(db.Snapshot()), plan))
              && (r.result.LimitReached? <==>
                    old(db.licenses)[r.id].status == Status.Activated
                    && UsedUpAfter(old(db.licenses), old(db.plans)[plan], plan, 0))
              && (r.result.LimitReached? ==> db.Snapshot() == old(db.Snapshot()))
              && (r.result.Done? ==>
                    && r.result.originalStatus == old(db.licenses)[r.id].status
                    && Step(old(db.Snapshot()), Revoke(r.id, r.result.spare, now), db.Snapshot()))
  {
    var chosen := ChooseToRevoke(db.licenses, plan, email);
    if chosen == None {
      return NotFound;
    }
    InOrder(db.licenses, plan, email, 0);
    var result := RevokeLicense(db, chosen.value, now);
    r := Tried(chosen.value, result);
  }

  // ---- Revoking a list of learners ---------------------------------------------------

  datatype Revocation = Revocation(email: Option<Email>, id: LicenseId, originalStatus: Status)
  datatype RevocationError = LicenseNotFound | RevocationFailed(reason: RevokeResult)
  datatype Failure = Failure(email: Option<Email>, error: RevocationError)

  datatype BulkRevokeResult =
    | NotEnoughRevocations
    | Processed(succeeded: seq<Revocation>, failed: seq<Failure>)

  ghost function Occurrences(emails: seq<Option<Email>>, email: Option<Email>): nat {
    multiset(emails)[email]
  }

  ghost function Drop<T>(xs: seq<T>, n: nat): seq<T> {
    if n <= |xs| then xs[n..] else []
  }

  /** The k-th request for a learner gets the k-th license in the order of revocation, if there is one. */
  ghost function AnswerTo(before: Licenses, plan: PlanId, emails: seq<Option<Email>>,
                          i: nat): (answer: Option<LicenseId>)
    requires i < |emails|
    ensures answer.Some? ==> answer.value in ActiveFor(before, plan, emails[i])
  {
    var order := RevocationOrder(before, plan, emails[i]);
    var k := Occurrences(emails[..i], emails[i]);
    if k < |order| then
      InOrder(before, plan, emails[i], k);
      Some(order[k])
    else None
  }

  ghost function Successes(before: Licenses, plan: PlanId, emails: seq<Option<Email>>, n: nat): seq<Revocation>
    requires n <= |emails|
  {
    if n == 0 then []
    else
      var answer := AnswerTo(before, plan, emails, n - 1);
      Successes(before, plan, emails, n - 1)
      + if answer.Some? then [Revocation(emails[n - 1], answer.value, before[answer.value].status)] else []
  }

  ghost function Failures(before: Licenses, plan: PlanId, emails: seq<Option<Email>>, n: nat): seq<Failure>
    requires n <= |emails|
  {
    if n == 0 then []
    else
      Failures(before, plan, emails, n - 1)
      + if AnswerTo(before, plan, emails, n - 1) == None then [Failure(emails[n - 1], LicenseNotFound)] else []
  }

  ghost function Ids(rs: seq<Revocation>): seq<LicenseId> {
    seq(|rs|, i requires 0 <= i < |rs| => rs[i].id)
  }

  ghost function ActivatedAmong(rs: seq<Revocation>): nat {
    if rs == [] then 0
    else ActivatedAmong(rs[..|rs| - 1]) + (if rs[|rs| - 1].originalStatus == Status.Activated then 1 else 0)
  }

  lemma ActivatedAmongAppend(rs: seq<Revocation>, last: Revocation)
    ensures ActivatedAmong(rs + [last])
            == ActivatedAmong(rs) + (if last.originalStatus == Status.Activated then 1 else 0)
  {
    assert (rs + [last])[..|rs|] == rs;
  }

  /**
   An activated license goes, and is charged, only when as many requests as the learner had assigned licenses
   came before.
   */
  lemma ChargedIffNoneAssigned(before: Licenses, plan: PlanId, emails: seq<Option<Email>>, i: nat)
    requires i < |emails| && AnswerTo(before, plan, emails, i).Some?
    ensures before[AnswerTo(before, plan, emails, i).value].status == Status.Activated <==>
            Occurrences(emails[..i], emails[i]) >= |HeldAs(before, plan, emails[i], Status.Assigned)|
  {
    InOrder(before, plan, emails[i], Occurrences(emails[..i], emails[i]));
  }

  /** What is left of each learner's order after the requests so far. */
  ghost predicate OrdersLeft(before: Licenses, ls: Licenses, plan: PlanId, asked: seq<Option<Email>>) {
    forall email :: RevocationOrder(ls, plan, email) ==
      Drop(RevocationOrder(before, plan, email), Occurrences(asked, email))
  }

  lemma HeldAfterRevoke(ls: Licenses, plan: PlanId, id: LicenseId, spare: LicenseId, now: Time, email: Option<Email>,
                        status: Status)
    requires id in ls && ls[id].plan == plan && ls[id].Active() && spare !in ls
    requires status == Status.Assigned || status == Status.Activated
    ensures HeldAs(Increased(ls[id := ls[id].Revoke(now)], plan, {spare}), plan, email, status)
            == HeldAs(ls, plan, email, status) - {id}
  {
  }

  /** Revoking the first license of a learner's order takes it off that order and no other. */
  lemma OrderAfterRevoke(ls: Licenses, plan: PlanId, asked: Option<Email>, id: LicenseId, spare: LicenseId, now: Time,
                         email: Option<Email>)
    requires RevocationOrder(ls, plan, asked) != [] && id == RevocationOrder(ls, plan, asked)[0] && spare !in ls
    requires id in ActiveFor(ls, plan, asked)
    ensures RevocationOrder(Increased(ls[id := ls[id].Revoke(now)], plan, {spare}), plan, email)
            == if email == asked then Drop(RevocationOrder(ls, plan, asked), 1) else RevocationOrder(ls, plan, email)
  {
    HeldAfterRevoke(ls, plan, id, spare, now, email, Status.Assigned);
    HeldAfterRevoke(ls, plan, id, spare, now, email, Status.Activated);
    var pending, active := HeldAs(ls, plan, email, Status.Assigned), HeldAs(ls, plan, email, Status.Activated);
    if email == asked {
      AssignedFirstTail(pending, active, id);
    } else {
      assert pending - {id} == pending && active - {id} == active;
    }
  }

  lemma DropMore<T>(xs: seq<T>, n: nat)
    ensures Drop(Drop(xs, n), 1) == Drop(xs, n + 1)
  {
  }

  lemma OneMoreAsked(asked: seq<Option<Email>>, last: Option<Email>, email: Option<Email>)
    ensures Occurrences(asked + [last], email) == Occurrences(asked, email) + if email == last then 1 else 0
  {
    assert multiset(asked + [last]) == multiset(asked) + multiset{last};
  }

  lemma OrderLeftStep(order: seq<LicenseId>, left: seq<LicenseId>, after: seq<LicenseId>,
                      asked: seq<Option<Email>>, last: Option<Email>, email: Option<Email>)
    requires left == Drop(order, Occurrences(asked, email))
    requires after == if email == last then Drop(left, 1) else left
    ensures after == Drop(order, Occurrences(asked + [last], email))
  {
    OneMoreAsked(asked, last, email);
    DropMore(order, Occurrences(asked, email));
  }

  /**
   What holds of a bulk revocation after the first `n` requests; everything but the new keys follows from the
   start.
   */
  ghost predicate Progress(s: State, t: State, plan: PlanId, emails: seq<Option<Email>>, n: nat,
                           succeeded: seq<Revocation>, failed: seq<Failure>, now: Time)
    requires n <= |emails| && plan in s.plans
  {
    && succeeded == Successes(s.licenses, plan, emails, n) && failed == Failures(s.licenses, plan, emails, n)
    && ActivatedAmong(succeeded) <= n
    && TablesMatch(s, t, plan, succeeded, now)
    && OrdersLeft(s.licenses, t.licenses, plan, emails[..n])
  }

  /**
   Exactly the licenses in `succeeded` were revoked, once each; each left a new license and, if activated, was
   charged.
   */
  ghost predicate TablesMatch(s: State, t: State, plan: PlanId, succeeded: seq<Revocation>, now: Time)
    requires plan in s.plans
  {
    && NoDup(Ids(succeeded))
    && RevokedEach(s.licenses, t.licenses, plan, Elems(Ids(succeeded)), now)
    && t.plans == PlansCharged(s.plans, plan, ActivatedAmong(succeeded))
    && Reachable(s, t)
  }

  lemma ActiveAreUntouched(before: Licenses, ls: Licenses, plan: PlanId, gone: set<LicenseId>, now: Time, id: LicenseId)
    requires RevokedEach(before, ls, plan, gone, now) && id in ls && ls[id].Active()
    ensures id in before && id !in gone && ls[id] == before[id]
  {
  }

  lemma OneMoreId(succeeded: seq<Revocation>, last: Revocation)
    requires NoDup(Ids(succeeded)) && last.id !in Elems(Ids(succeeded))
    ensures NoDup(Ids(succeeded + [last])) && Elems(Ids(succeeded + [last])) == Elems(Ids(succeeded)) + {last.id}
  {
    var ids := Ids(succeeded);
    assert Ids(succeeded + [last]) == ids + [last.id];
    ElemsAppend(ids, last.id);
    assert forall i :: 0 <= i < |ids| ==> ids[i] in Elems(ids);
  }

  lemma ChargeOneMore(plans: Plans, t: State, plan: PlanId, used: nat, id: LicenseId)
    requires plan in plans && t.plans == PlansCharged(plans, plan, used)
    requires id in t.licenses && t.licenses[id].plan == plan
    ensures PlansAfterRevoke(t, id)
            == PlansCharged(plans, plan, used + if t.licenses[id].status == Status.Activated then 1 else 0)
  {
  }

  lemma RowsAfterRevoke(before: Licenses, ls: Licenses, plan: PlanId, succeeded: seq<Revocation>, now: Time,
                        email: Option<Email>, id: LicenseId, spare: LicenseId)
    requires NoDup(Ids(succeeded)) && RevokedEach(before, ls, plan, Elems(Ids(succeeded)), now)
    requires id in ActiveFor(ls, plan, email) && spare !in ls
    ensures var more := succeeded + [Revocation(email, id, ls[id].status)];
            && NoDup(Ids(more))
            && RevokedEach(before, Increased(ls[id := ls[id].Revoke(now)], plan, {spare}), plan, Elems(Ids(more)), now)
  {
    ActiveAreUntouched(before, ls, plan, Elems(Ids(succeeded)), now, id);
    OneMoreId(succeeded, Revocation(email, id, ls[id].status));
    RevokedEachStep(before, ls, plan, Elems(Ids(succeeded)), now, id, spare);
  }

  /** What a revoke step leaves. */
  ghost predicate RevokeOutcome(t: State, id: LicenseId, spare: LicenseId, now: Time, u: State)
    requires id in t.licenses && t.licenses[id].plan in t.plans
  {
    && u.licenses == Increased(t.licenses[id := t.licenses[id].Revoke(now)], t.licenses[id].plan, {spare})
    && u.plans == PlansAfterRevoke(t, id)
  }

  lemma StepHasOutcome(t: State, id: LicenseId, spare: LicenseId, now: Time, u: State)
    requires Step(t, Revoke(id, spare, now), u)
    ensures id in t.licenses && t.licenses[id].plan in t.plans && spare !in t.licenses
    ensures RevokeOutcome(t, id, spare, now, u)
  {
  }

  lemma PlansAfterCharge(plans: Plans, t: State, plan: PlanId, succeeded: seq<Revocation>, now: Time,
                         email: Option<Email>, id: LicenseId, spare: LicenseId, u: State)
    requires plan in plans && t.plans == PlansCharged(plans, plan, ActivatedAmong(succeeded))
    requires id in ActiveFor(t.licenses, plan, email) && plan in t.plans && RevokeOutcome(t, id, spare, now, u)
    ensures u.plans
            == PlansCharged(plans, plan, ActivatedAmong(succeeded + [Revocation(email, id, t.licenses[id].status)]))
  {
    ActivatedAmongAppend(succeeded, Revocation(email, id, t.licenses[id].status));
    ChargeOneMore(plans, t, plan, ActivatedAmong(succeeded), id);
  }

  lemma TablesAfterRevoke(s: State, t: State, plan: PlanId, succeeded: seq<Revocation>, now: Time,
                          email: Option<Email>, id: LicenseId, spare: LicenseId, u: State)
    requires plan in s.plans && TablesMatch(s, t, plan, succeeded, now)
    requires id in ActiveFor(t.licenses, plan, email) && plan in t.plans && spare !in t.licenses
    requires RevokeOutcome(t, id, spare, now, u) && Reachable(s, u)
    ensures TablesMatch(s, u, plan, succeeded + [Revocation(email, id, t.licenses[id].status)], now)
  {
    RowsAfterRevoke(s.licenses, t.licenses, plan, succeeded, now, email, id, spare);
    PlansAfterCharge(s.plans, t, plan, succeeded, now, email, id, spare, u);
  }

  lemma NextAnswer(before: Licenses, ls: Licenses, plan: PlanId, emails: seq<Option<Email>>, n: nat)
    requires n < |emails| && OrdersLeft(before, ls, plan, emails[..n])
    ensures var order := RevocationOrder(ls, plan, emails[n]);
            AnswerTo(before, plan, emails, n) == if order == [] then None else Some(order[0])
  {
    assert RevocationOrder(ls, plan, emails[n])
        == Drop(RevocationOrder(before, plan, emails[n]), Occurrences(emails[..n], emails[n]));
  }

  lemma OrdersAfterNothing(before: Licenses, ls: Licenses, plan: PlanId, emails: seq<Option<Email>>, n: nat)
    requires n < |emails| && OrdersLeft(before, ls, plan, emails[..n]) && RevocationOrder(ls, plan, emails[n]) == []
    ensures OrdersLeft(before, ls, plan, emails[..n + 1])
  {
    assert emails[..n + 1] == emails[..n] + [emails[n]];
    forall email
      ensures RevocationOrder(ls, plan, email)
              == Drop(RevocationOrder(before, plan, email), Occurrences(emails[..n + 1], email))
    {
      var left := RevocationOrder(ls, plan, email);
      OrderLeftStep(RevocationOrder(before, plan, email), left, left, emails[..n], emails[n], email);
    }
  }

  lemma NoAnswer(before: Licenses, ls: Licenses, plan: PlanId, emails: seq<Option<Email>>, n: nat)
    requires n < |emails| && OrdersLeft(before, ls, plan, emails[..n]) && RevocationOrder(ls, plan, emails[n]) == []
    ensures Successes(before, plan, emails, n + 1) == Successes(before, plan, emails, n)
    ensures Failures(before, plan, emails, n + 1)
            == Failures(before, plan, emails, n) + [Failure(emails[n], LicenseNotFound)]
  {
    NextAnswer(before, ls, plan, emails, n);
  }

  lemma ProgressOnFailure(s: State, t: State, plan: PlanId, emails: seq<Option<Email>>, n: nat,
                          succeeded: seq<Revocation>, failed: seq<Failure>, now: Time)
    requires n < |emails| && plan in s.plans && Progress(s, t, plan, emails, n, succeeded, failed, now)
    requires RevocationOrder(t.licenses, plan, emails[n]) == []
    ensures Progress(s, t, plan, emails, n + 1, succeeded, failed + [Failure(emails[n], LicenseNotFound)], now)
  {
    NoAnswer(s.licenses, t.licenses, plan, emails, n);
    OrdersAfterNothing(s.licenses, t.licenses, plan, emails, n);
  }

  lemma AnswersMatch(before: Licenses, ls: Licenses, plan: PlanId, emails: seq<Option<Email>>, n: nat, id: LicenseId)
    requires n < |emails| && OrdersLeft(before, ls, plan, emails[..n])
    requires RevocationOrder(ls, plan, emails[n]) != [] && id == RevocationOrder(ls, plan, emails[n])[0]
    requires id in before && id in ls && before[id] == ls[id]
    ensures Successes(before, plan, emails, n + 1)
            == Successes(before, plan, emails, n) + [Revocation(emails[n], id, ls[id].status)]
    ensures Failures(before, plan, emails, n + 1) == Failures(before, plan, emails, n)
  {
    NextAnswer(before, ls, plan, emails, n);
  }

  lemma OrdersAfterRevoke(before: Licenses, ls: Licenses, plan: PlanId, emails: seq<Option<Email>>, n: nat,
                          id: LicenseId, spare: LicenseId, now: Time)
    requires n < |emails| && OrdersLeft(before, ls, plan, emails[..n])
    requires RevocationOrder(ls, plan, emails[n]) != [] && id == RevocationOrder(ls, plan, emails[n])[0]
    requires id in ActiveFor(ls, plan, emails[n]) && spare !in ls
    ensures OrdersLeft(before, Increased(ls[id := ls[id].Revoke(now)], plan, {spare}), plan, emails[..n + 1])
  {
    var after := Increased(ls[id := ls[id].Revoke(now)], plan, {spare});
    assert emails[..n + 1] == emails[..n] + [emails[n]];
    forall email
      ensures RevocationOrder(after, plan, email)
              == Drop(RevocationOrder(before, plan, email), Occurrences(emails[..n + 1], email))
    {
      OrderAfterRevoke(ls, plan, emails[n], id, spare, now, email);
      OrderLeftStep(RevocationOrder(before, plan, email), RevocationOrder(ls, plan, email),
                    RevocationOrder(after, plan, email), emails[..n], emails[n], email);
    }
  }

  lemma ProgressOnSuccess(s: State, t: State, plan: PlanId, emails: seq<Option<Email>>, n: nat,
                          succeeded: seq<Revocation>, failed: seq<Failure>, now: Time,
                          id: LicenseId, spare: LicenseId, u: State)
    requires n < |emails| && plan in s.plans && Progress(s, t, plan, emails, n, succeeded, failed, now)
    requires RevocationOrder(t.licenses, plan, emails[n]) != [] && id == RevocationOrder(t.licenses, plan, emails[n])[0]
    requires id in ActiveFor(t.licenses, plan, emails[n]) && plan in t.plans && spare !in t.licenses
    requires RevokeOutcome(t, id, spare, now, u) && Reachable(s, u)
    ensures Progress(s, u, plan, emails, n + 1,
                     succeeded + [Revocation(emails[n], id, t.licenses[id].status)], failed, now)
  {
    ActiveAreUntouched(s.licenses, t.licenses, plan, Elems(Ids(succeeded)), now, id);
    AnswersMatch(s.licenses, t.licenses, plan, emails, n, id);
    ActivatedAmongAppend(succeeded, Revocation(emails[n], id, t.licenses[id].status));
    TablesAfterRevoke(s, t, plan, succeeded, now, emails[n], id, spare, u);
    OrdersAfterRevoke(s.licenses, t.licenses, plan, emails, n, id, spare, now);
  }

  lemma ProgressAtStart(s: State, plan: PlanId, emails: seq<Option<Email>>, now: Time)
    requires plan in s.plans
    ensures Progress(s, s, plan, emails, 0, [], [], now)
  {
    ReachableRefl(s);
    assert Elems(Ids([])) == {};
    assert s.plans == PlansCharged(s.plans, plan, 0);
    assert emails[..0] == [];
  }

  /**
   `bulk_revoke`. Once the request passes the up-front check, no revocation can hit
   the cap: a request fails only for want of an active license, and the total stays.
   */
  method BulkRevoke(db: Database, plan: PlanId, emails: seq<Option<Email>>, now: Time) returns (r: BulkRevokeResult)
    requires plan in db.plans
    modifies db`licenses, db`plans
    ensures r.NotEnoughRevocations? <==>
              var remaining := RevocationsRemaining(old(db.Snapshot()), plan);
              remaining.Some? && |emails| > remaining.value
    ensures r.NotEnoughRevocations? <==> UsedUpAfter(old(db.licenses), old(db.plans)[plan], plan, |emails| - 1)
    ensures r.NotEnoughRevocations? ==> db.Snapshot() == old(db.Snapshot())
    ensures r.Processed? ==>
              Progress(old(db.Snapshot()), db.Snapshot(), plan, emails, |emails|, r.succeeded, r.failed, now)
  {
    var remaining := RevocationsRemaining(db.Snapshot(), plan);
    TooManyIffUsedUp(db.Snapshot(), plan, |emails|);
    if remaining.Some? && |emails| > remaining.value {
      return NotEnoughRevocations;
    }
    var succeeded: seq<Revocation>, failed: seq<Failure> := [], [];
    ghost var start := db.Snapshot();
    ProgressAtStart(start, plan, emails, now);
    for i := 0 to |emails|
      invariant plan in db.plans
      invariant Progress(start, db.Snapshot(), plan, emails, i, succeeded, failed, now)
    {
      ghost var s := db.Snapshot();
      StillAffordable(start, s, plan, emails, i, succeeded, failed, now);
      var outcome := RevokeByEmailAndPlan(db, plan, emails[i], now);
      if outcome.Tried? && outcome.result.Done? {
        StepHasOutcome(s, outcome.id, outcome.result.spare, now, db.Snapshot());
        ReachableStep(start, s, Revoke(outcome.id, outcome.result.spare, now), db.Snapshot());
        ProgressOnSuccess(start, s, plan, emails, i, succeeded, failed, now,
                          outcome.id, outcome.result.spare, db.Snapshot());
        succeeded := succeeded + [Revocation(emails[i], outcome.id, outcome.result.originalStatus)];
      } else {
        assert outcome == NotFound;
        ProgressOnFailure(start, s, plan, emails, i, succeeded, failed, now);
        var error := match outcome case NotFound => LicenseNotFound case Tried(_, result) => RevocationFailed(result);
        failed := failed + [Failure(emails[i], error)];
      }
    }
    r := Processed(succeeded, failed);
  }

  lemma StillAffordable(s: State, t: State, plan: PlanId, emails: seq<Option<Email>>, n: nat,
                        succeeded: seq<Revocation>, failed: seq<Failure>, now: Time)
    requires n < |emails| && plan in s.plans && Progress(s, t, plan, emails, n, succeeded, failed, now)
    requires RevocationsRemaining(s, plan).Some? ==> |emails| <= RevocationsRemaining(s, plan).value
    ensures plan in t.plans && HasRevocationsRemaining(t, plan)
  {
  }

  /** A processed request never overdraws the cap, wherever it stood before. */
  lemma BulkRevokeWithinCap(s: State, t: State, plan: PlanId, emails: seq<Option<Email>>,
                            succeeded: seq<Revocation>, failed: seq<Failure>, now: Time)
    requires plan in s.plans && Progress(s, t, plan, emails, |emails|, succeeded, failed, now)
    requires RevocationsRemaining(s, plan).Some? ==> |emails| <= RevocationsRemaining(s, plan).value
    ensures CapRespected(t, plan)
  {
  }

  /** A request touches no learner of another plan, and none it does not name. */
  lemma BulkRevokeSparesOthers(s: State, t: State, plan: PlanId, emails: seq<Option<Email>>,
                               succeeded: seq<Revocation>, failed: seq<Failure>, now: Time)
    requires plan in s.plans && Progress(s, t, plan, emails, |emails|, succeeded, failed, now)
    ensures forall p, email :: p != plan || email !in emails ==>
              ActiveFor(t.licenses, p, email) == ActiveFor(s.licenses, p, email)
    ensures |succeeded| + |failed| == |emails|
  {
    EveryRequestAnswered(s.licenses, plan, emails, |emails|);
    forall id | id in Elems(Ids(succeeded))
      ensures id in s.licenses && s.licenses[id].plan == plan && s.licenses[id].email in emails
    {
      SuccessesAreHolders(s.licenses, plan, emails, |emails|, id);
    }
    forall p, email | p != plan || email !in emails
      ensures ActiveFor(t.licenses, p, email) == ActiveFor(s.licenses, p, email)
    {
      SameActive(s.licenses, t.licenses, plan, emails, Elems(Ids(succeeded)), now, p, email);
    }
  }

  lemma SameActive(before: Licenses, after: Licenses, plan: PlanId, emails: seq<Option<Email>>, gone: set<LicenseId>,
                   now: Time,
                   p: PlanId, email: Option<Email>)
    requires RevokedEach(before, after, plan, gone, now)
    requires forall id :: id in gone ==> id in before && before[id].plan == plan && before[id].email in emails
    requires p != plan || email !in emails
    ensures ActiveFor(after, p, email) == ActiveFor(before, p, email)
  {
  }

  lemma {:induction false} EveryRequestAnswered(before: Licenses, plan: PlanId, emails: seq<Option<Email>>, n: nat)
    requires n <= |emails|
    ensures |Successes(before, plan, emails, n)| + |Failures(before, plan, emails, n)| == n
  {
    if n == 0 {
    } else {
      EveryRequestAnswered(before, plan, emails, n - 1);
    }
  }

  lemma {:induction false} SuccessesAreHolders(before: Licenses, plan: PlanId, emails: seq<Option<Email>>, n: nat,
                                               id: LicenseId)
    requires n <= |emails| && id in Elems(Ids(Successes(before, plan, emails, n)))
    ensures id in before && before[id].plan == plan && before[id].email in emails
  {
    var rs := Successes(before, plan, emails, n);
    var j :| 0 <= j < |rs| && Ids(rs)[j] == id;
    if n == 0 {
    } else {
      var fewer := Successes(before, plan, emails, n - 1);
      if j < |fewer| {
        assert Ids(fewer)[j] == id && Ids(fewer)[j] in Elems(Ids(fewer));
        SuccessesAreHolders(before, plan, emails, n - 1, id);
      }
    }
  }

  // ---- Revoking a whole plan --------------------------------------------------------

  function ActivatedIn(ls: Licenses, plan: PlanId): set<LicenseId> {
    set id | id in ls && ls[id].plan == plan && ls[id].status == Status.Activated
  }

  /** The licenses in `gone` are revoked, all others are as before, and one new license came for each. */
  ghost predicate RevokedEach(before: Licenses, after: Licenses, plan: PlanId, gone: set<LicenseId>, now: Time) {
    && before.Keys <= after.Keys
    && (forall id :: id in before ==> after[id] == if id in gone then before[id].Revoke(now) else before[id])
    && (forall id :: id in after && id !in before ==> after[id] == NewLicense(plan))
    && |after.Keys| == |before.Keys| + |gone|
    && NumLicenses(after, plan) == NumLicenses(before, plan)
  }

  lemma OneMoreKey(ls: Licenses, plan: PlanId, id: LicenseId, spare: LicenseId, row: License)
    requires id in ls && spare !in ls
    ensures |Increased(ls[id := row], plan, {spare}).Keys| == |ls.Keys| + 1
  {
    assert Increased(ls[id := row], plan, {spare}).Keys == ls.Keys + {spare};
  }

  ghost function PlansCharged(plans: Plans, plan: PlanId, used: nat): Plans
    requires plan in plans
  {
    plans[plan := plans[plan].(revocationsApplied := plans[plan].revocationsApplied
                                 + if plans[plan].capEnabled then used else 0)]
  }

  ghost predicate RevokedSome(s: State, t: State, plan: PlanId, gone: set<LicenseId>, now: Time)
    requires plan in s.plans
  {
    && RevokedEach(s.licenses, t.licenses, plan, gone, now)
    && t.plans == PlansCharged(s.plans, plan, |ActivatedIn(s.licenses, plan) * gone|)
    && Reachable(s, t)
  }

  /** Revoking `activated` activated licenses fits what remains under the cap. */
  predicate Affordable(s: State, plan: PlanId, activated: nat)
    requires plan in s.plans
  {
    var remaining := RevocationsRemaining(s, plan);
    remaining == None || activated == 0 || activated <= remaining.value
  }

  lemma RevokedEachStep(before: Licenses, ls: Licenses, plan: PlanId, gone: set<LicenseId>, now: Time,
                        id: LicenseId, spare: LicenseId)
    requires RevokedEach(before, ls, plan, gone, now)
    requires id in AllocatedIn(before, plan) - gone && spare !in ls
    ensures RevokedEach(before, Increased(ls[id := ls[id].Revoke(now)], plan, {spare}), plan, gone + {id}, now)
  {
    RevokeTotals(ls, id, spare, now, plan);
    OneMoreKey(ls, plan, id, spare, ls[id].Revoke(now));
  }

  lemma MoreActivated(ls: Licenses, plan: PlanId, gone: set<LicenseId>, id: LicenseId)
    requires id in AllocatedIn(ls, plan) - gone
    ensures |ActivatedIn(ls, plan) * (gone + {id})|
            == |ActivatedIn(ls, plan) * gone| + (if ls[id].status == Status.Activated then 1 else 0)
            <= |ActivatedIn(ls, plan)|
  {
    var activated := ActivatedIn(ls, plan);
    assert activated * (gone + {id}) == activated * gone + (if id in activated then {id} else {});
    SubsetSize(activated * (gone + {id}), activated);
  }

  lemma RevokedSomeStep(s: State, t: State, plan: PlanId, gone: set<LicenseId>, now: Time,
                        id: LicenseId, spare: LicenseId, u: State)
    requires plan in s.plans && RevokedSome(s, t, plan, gone, now)
    requires id in AllocatedIn(s.licenses, plan) - gone && Step(t, Revoke(id, spare, now), u)
    ensures RevokedSome(s, u, plan, gone + {id}, now)
  {
    RevokedEachStep(s.licenses, t.licenses, plan, gone, now, id, spare);
    PlansChargedStep(s, t, plan, gone, id);
    ReachableStep(s, t, Revoke(id, spare, now), u);
  }

  lemma PlansChargedStep(s: State, t: State, plan: PlanId, gone: set<LicenseId>, id: LicenseId)
    requires plan in s.plans && id in AllocatedIn(s.licenses, plan) - gone
    requires id in t.licenses && t.licenses[id] == s.licenses[id]
    requires t.plans == PlansCharged(s.plans, plan, |ActivatedIn(s.licenses, plan) * gone|)
    ensures PlansAfterRevoke(t, id) == PlansCharged(s.plans, plan, |ActivatedIn(s.licenses, plan) * (gone + {id})|)
  {
    MoreActivated(s.licenses, plan, gone, id);
  }

  lemma RevokedNone(s: State, plan: PlanId, now: Time)
    requires plan in s.plans
    ensures RevokedSome(s, s, plan, {}, now)
  {
    ReachableRefl(s);
    assert ActivatedIn(s.licenses, plan) * {} == {};
    assert s.plans == s.plans[plan := s.plans[plan]];
  }

  /** Part-way through, the revocation of an activated license is refused exactly if it is one too many. */
  lemma RefusedIffUnaffordable(s: State, t: State, plan: PlanId, gone: set<LicenseId>, now: Time)
    requires plan in s.plans && RevokedSome(s, t, plan, gone, now)
    requires Affordable(s, plan, |ActivatedIn(s.licenses, plan) * gone|)
    ensures plan in t.plans
    ensures HasRevocationsRemaining(t, plan) <==> Affordable(s, plan, |ActivatedIn(s.licenses, plan) * gone| + 1)
  {
  }

  /** After the first `i` rows of the loop, none of which was refused. */
  ghost predicate RevokedUpTo(s: State, t: State, plan: PlanId, rows: seq<LicenseId>, i: nat, now: Time)
    requires plan in s.plans && i <= |rows|
  {
    && RevokedSome(s, t, plan, Elems(rows[..i]), now)
    && Affordable(s, plan, |ActivatedIn(s.licenses, plan) * Elems(rows[..i])|)
  }

  lemma NothingRevoked(s: State, plan: PlanId, rows: seq<LicenseId>, now: Time)
    requires plan in s.plans
    ensures RevokedUpTo(s, s, plan, rows, 0, now)
  {
    assert Elems(rows[..0]) == {};
    RevokedNone(s, plan, now);
    assert ActivatedIn(s.licenses, plan) * {} == {};
  }

  lemma EverythingRevoked(s: State, t: State, plan: PlanId, rows: seq<LicenseId>, now: Time)
    requires plan in s.plans && Enumerates(rows, AllocatedIn(s.licenses, plan))
    requires RevokedUpTo(s, t, plan, rows, |rows|, now)
    ensures Affordable(s, plan, |ActivatedIn(s.licenses, plan)|)
    ensures RevokedSome(s, t, plan, AllocatedIn(s.licenses, plan), now)
  {
    assert rows[..|rows|] == rows;
    assert ActivatedIn(s.licenses, plan) * AllocatedIn(s.licenses, plan) == ActivatedIn(s.licenses, plan);
  }

  /** One turn of the loop over a plan's licenses. */
  method RevokeNext(db: Database, plan: PlanId, rows: seq<LicenseId>, i: nat, now: Time,
                    ghost s: State) returns (ok: bool)
    requires plan in s.plans && i < |rows| && Enumerates(rows, AllocatedIn(s.licenses, plan))
    requires RevokedUpTo(s, db.Snapshot(), plan, rows, i, now)
    modifies db`licenses, db`plans
    ensures if ok then RevokedUpTo(s, db.Snapshot(), plan, rows, i + 1, now)
            else !Affordable(s, plan, |ActivatedIn(s.licenses, plan)|)
  {
    ghost var t, gone := db.Snapshot(), Elems(rows[..i]);
    NextRow(rows, i);
    MoreActivated(s.licenses, plan, gone, rows[i]);
    RefusedIffUnaffordable(s, t, plan, gone, now);
    var outcome := RevokeLicense(db, rows[i], now);
    ok := outcome.Done?;
    if ok {
      RevokedSomeStep(s, t, plan, gone, now, rows[i], outcome.spare, db.Snapshot());
    }
  }

  /** The loop of the task; `ok` is false when a revocation raised. */
  method RevokeRows(db: Database, plan: PlanId, rows: seq<LicenseId>, now: Time) returns (ok: bool)
    requires plan in db.plans && Enumerates(rows, AllocatedIn(db.licenses, plan))
    modifies db`licenses, db`plans
    ensures ok <==> Affordable(old(db.Snapshot()), plan, |ActivatedIn(old(db.licenses), plan)|)
    ensures ok ==> RevokedSome(old(db.Snapshot()), db.Snapshot(), plan, AllocatedIn(old(db.licenses), plan), now)
  {
    ghost var s := db.Snapshot();
    NothingRevoked(s, plan, rows, now);
    for i := 0 to |rows|
      invariant RevokedUpTo(s, db.Snapshot(), plan, rows, i, now)
    {
      ok := RevokeNext(db, plan, rows, i, now, s);
      if !ok {
        return;
      }
    }
    ok := true;
    EverythingRevoked(s, db.Snapshot(), plan, rows, now);
  }

  /** When a whole plan can be revoked, in whole numbers. */
  lemma RevokeAllFitsIff(s: State, plan: PlanId)
    requires plan in s.plans
    ensures var activated :=
              set id | id in s.licenses && s.licenses[id].plan == plan && s.licenses[id].status == Status.Activated;
            Affordable(s, plan, |ActivatedIn(s.licenses, plan)|) <==>
            activated == {} || !UsedUpAfter(s.licenses, s.plans[plan], plan, |activated| - 1)
  {
    var activated :=
      set id | id in s.licenses && s.licenses[id].plan == plan && s.licenses[id].status == Status.Activated;
    assert ActivatedIn(s.licenses, plan) == activated;
    TooManyIffUsedUp(s, plan, |activated|);
  }

  /** Revoking a whole plan revokes its assigned and activated licenses, and changes no other. */
  lemma RevokeAllByStatus(s: State, t: State, plan: PlanId, now: Time, id: LicenseId)
    requires plan in s.plans && RevokedSome(s, t, plan, AllocatedIn(s.licenses, plan), now) && id in s.licenses
    ensures id in t.licenses
    ensures t.licenses[id] ==
            if s.licenses[id].plan == plan && s.licenses[id].status in {Status.Assigned, Status.Activated}
            then s.licenses[id].(status := Status.Revoked, revokedDate := Some(now))
            else s.licenses[id]
  {
  }

  /**
   `revoke_all_licenses_task`, all or nothing: it fails exactly when the activated
   licenses outnumber the revocations that remain.
   */
  method RevokeAll(db: Database, plan: PlanId, now: Time) returns (ok: bool)
    requires plan in db.plans
    modifies db`licenses, db`plans
    ensures ok <==> Affordable(old(db.Snapshot()), plan, |ActivatedIn(old(db.licenses), plan)|)
    ensures !ok ==> db.Snapshot() == old(db.Snapshot())
    ensures ok ==> RevokedSome(old(db.Snapshot()), db.Snapshot(), plan, AllocatedIn(old(db.licenses), plan), now)
  {
    var saved := db.Snapshot();
    var rows := Query(AllocatedIn(db.licenses, plan));
    ok := RevokeRows(db, plan, rows, now);
    if !ok {
      db.Rollback(saved);
    }
  }
}
