/**
 Handing licenses to learners: the bulk assign endpoint, which writes rows without
 the check in `License.clean()`, and the automatic application of a license.
 */
module Assignment {
  import opened Collections
  import opened Licensing
  import opened Lifecycle

  // ---- Trimming the request ---------------------------------------------------

  /** `list.remove(x)`: drops the first occurrence, if there is one. */
  function RemoveFirst<T(==)>(xs: seq<T>, x: T): seq<T> {
    if xs == [] then []
    else if xs[0] == x then xs[1..]
    else [xs[0]] + RemoveFirst(xs[1..], x)
  }

  lemma {:induction false} RemoveFirstOfNoDup<T>(xs: seq<T>, x: T)
    requires NoDup(xs)
    ensures NoDup(RemoveFirst(xs, x)) && Elems(RemoveFirst(xs, x)) == Elems(xs) - {x}
  {
    if xs == [] {
    } else {
      var rest := RemoveFirst(xs[1..], x);
      RemoveFirstOfNoDup(xs[1..], x);
      assert Elems(xs) == {xs[0]} + Elems(xs[1..]);
      assert xs[0] !in Elems(xs[1..]);
      if xs[0] != x {
        assert Elems([xs[0]] + rest) == {xs[0]} + Elems(rest);
        assert forall i :: 0 <= i < |rest| ==> rest[i] in Elems(rest);
      }
    }
  }

  /** The active licenses of the plan that belong to one of `emails`. */
  function AssociatedWith(ls: Licenses, plan: PlanId, emails: set<Email>): set<LicenseId> {
    set id | id in ls && ls[id].plan == plan && ls[id].Active() && ls[id].email.Some? && ls[id].email.value in emails
  }

  /** The learners among `emails` who hold no active license of the plan. */
  ghost function Unserved(ls: Licenses, plan: PlanId, emails: set<Email>): set<Email> {
    set email | email in emails && ActiveFor(ls, plan, Some(email)) == {}
  }

  /** `_trim_already_associated_emails`. */
  method TrimAssociated(ls: Licenses, plan: PlanId, emails: seq<Email>)
    returns (trimmed: seq<Email>, associated: seq<Email>)
    requires NoDup(emails)
    ensures Enumerates(trimmed, Unserved(ls, plan, Elems(emails)))
    ensures |associated| == |AssociatedWith(ls, plan, Elems(emails))|
  {
    var wanted := set email | email in emails;
    assert wanted == Elems(emails);
    var rows := Query(AssociatedWith(ls, plan, wanted));
    assert forall j :: 0 <= j < |rows| ==> rows[j] in Elems(rows);
    trimmed, associated := emails, [];
    for i := 0 to |rows|
      invariant |associated| == i
      invariant forall j :: 0 <= j < |rows| ==> rows[j] in ls
      invariant NoDup(trimmed)
      invariant forall email :: email in Elems(trimmed) <==>
                  email in wanted && forall j :: 0 <= j < i ==> ls[rows[j]].email != Some(email)
    {
      assert rows[i] in Elems(rows);
      var email := ls[rows[i]].email.value;
      associated := associated + [email];
      RemoveFirstOfNoDup(trimmed, email);
      trimmed := RemoveFirst(trimmed, email);
    }
    forall email | email in wanted
      ensures email in Elems(trimmed) <==> ActiveFor(ls, plan, Some(email)) == {}
    {
      if ActiveFor(ls, plan, Some(email)) != {} {
        var id :| id in ActiveFor(ls, plan, Some(email));
        assert id in Elems(rows);
        var j :| 0 <= j < |rows| && rows[j] == id;
      } else {
        forall j | 0 <= j < |rows|
          ensures ls[rows[j]].email != Some(email)
        {
          assert rows[j] in Elems(rows) && rows[j] !in ActiveFor(ls, plan, Some(email));
        }
      }
    }
    assert Elems(trimmed) == Unserved(ls, plan, Elems(emails));
  }

  // ---- Bulk assignment ----------------------------------------------------------

  datatype AssignResult =
    | NotEnoughLicenses(required: nat, available: nat)
    | Done(emails: seq<Email>, targets: seq<LicenseId>, keys: seq<int>, alreadyAssociated: nat)

  /** `_assign_new_licenses`: pairs unassigned licenses with learners and writes them in bulk. */
  method AssignNewLicenses(db: Database, plan: PlanId, emails: seq<Email>, now: Time)
    returns (targets: seq<LicenseId>, keys: seq<int>)
    requires NoDup(emails) && |emails| <= |UnassignedIn(db.licenses, plan)|
    modifies db`licenses
    ensures BulkAssigned(old(db.licenses), db.licenses, plan, emails, targets, keys, now)
  {
    var rows := Query(UnassignedIn(db.licenses, plan));
    targets := rows[..|emails|];
    assert forall i :: 0 <= i < |rows| ==> rows[i] in Elems(rows);
    keys := [];
    var updated := db.licenses;
    for i := 0 to |emails|
      invariant |keys| == i && updated.Keys == db.licenses.Keys
      invariant forall j :: 0 <= j < i ==>
                  updated[targets[j]] == db.licenses[targets[j]].AssignTo(emails[j], keys[j], now)
      invariant forall id :: id in updated && id !in targets[..i] ==> updated[id] == db.licenses[id]
    {
      var key: int := *;
      keys := keys + [key];
      assert targets[..i + 1] == targets[..i] + [targets[i]];
      updated := updated[targets[i] := db.licenses[targets[i]].AssignTo(emails[i], key, now)];
    }
    assert targets[..|emails|] == targets;
    db.licenses := updated;
  }

  /** `_assign`, from the requested emails to the response. */
  method Assign(db: Database, plan: PlanId, requested: seq<Email>, now: Time) returns (r: AssignResult)
    modifies db`licenses
    ensures var unserved := Unserved(old(db.licenses), plan, Elems(requested));
            var available := |UnassignedIn(old(db.licenses), plan)|;
            if |unserved| > available then
              r == NotEnoughLicenses(|unserved|, available) && db.licenses == old(db.licenses)
            else
              && r.Done? && Enumerates(r.emails, unserved)
              && r.alreadyAssociated == |AssociatedWith(old(db.licenses), plan, Elems(requested))|
              && Step(old(db.Snapshot()), Event.Assign(plan, r.emails, r.targets, r.keys, now), db.Snapshot())
  {
    var distinct := set email | email in requested;
    assert distinct == Elems(requested);
    var emails := Query(distinct);
    var trimmed, associated := TrimAssociated(db.licenses, plan, emails);
    NoDupSize(trimmed);
    if trimmed == [] {
      return Done([], [], [], |associated|);
    }
    var available := |UnassignedIn(db.licenses, plan)|;
    if available < |trimmed| {
      return NotEnoughLicenses(|trimmed|, available);
    }
    var targets, keys := AssignNewLicenses(db, plan, trimmed, now);
    assert forall email :: email in trimmed ==> email in Elems(trimmed);
    r := Done(trimmed, targets, keys, |associated|);
  }

  /** After an assignment every requested learner holds exactly one active license; nobody else gains or loses one. */
  lemma AssignServesEveryone(s: State, t: State, plan: PlanId, requested: set<Email>, emails: seq<Email>,
                             targets: seq<LicenseId>, keys: seq<int>, now: Time)
    requires Unique(s.licenses) && Enumerates(emails, Unserved(s.licenses, plan, requested))
    requires Step(s, Event.Assign(plan, emails, targets, keys, now), t)
    ensures forall email :: email in requested ==> |ActiveFor(t.licenses, plan, Some(email))| == 1
    ensures Unserved(t.licenses, plan, requested) == {}
    ensures forall p, email :: p != plan || email == None || email.value !in requested ==>
              ActiveFor(t.licenses, p, email) == ActiveFor(s.licenses, p, email)
  {
    StepKeepsSound(s, Event.Assign(plan, emails, targets, keys, now), t);
    forall id | id in targets
      ensures id in s.licenses && s.licenses[id].status == Status.Unassigned && s.licenses[id].plan == plan
      ensures t.licenses[id].plan == plan && t.licenses[id].email.Some? && t.licenses[id].email.value in requested
    {
      var i :| 0 <= i < |targets| && targets[i] == id;
      assert targets[i] in UnassignedIn(s.licenses, plan) && emails[i] in Elems(emails);
    }
    OthersKeepTheirs(s.licenses, t.licenses, plan, requested, targets);
    forall email | email in requested
      ensures |ActiveFor(t.licenses, plan, Some(email))| == 1
    {
      var holders := ActiveFor(t.licenses, plan, Some(email));
      UniqueMeansAtMostOne(t.licenses, plan, Some(email));
      if email in Unserved(s.licenses, plan, requested) {
        assert email in Elems(emails);
        var i :| 0 <= i < |emails| && emails[i] == email;
        assert targets[i] in targets;
        assert targets[i] in holders;
      } else {
        var id :| id in ActiveFor(s.licenses, plan, Some(email));
        assert id in holders;
      }
    }
  }

  lemma OthersKeepTheirs(ls: Licenses, after: Licenses, plan: PlanId, requested: set<Email>, targets: seq<LicenseId>)
    requires after.Keys == ls.Keys && forall id :: id in ls && id !in targets ==> after[id] == ls[id]
    requires forall id :: id in targets ==>
               id in ls && !ls[id].Active()
               && after[id].plan == plan && after[id].email.Some? && after[id].email.value in requested
    ensures forall p, email :: p != plan || email == None || email.value !in requested ==>
              ActiveFor(after, p, email) == ActiveFor(ls, p, email)
  {
  }

  /** What an assignment writes, row by row. */
  lemma AssignmentInFields(s: State, t: State, plan: PlanId, emails: seq<Email>, targets: seq<LicenseId>,
                           keys: seq<int>, now: Time, i: nat)
    requires Step(s, Event.Assign(plan, emails, targets, keys, now), t) && i < |targets|
    ensures targets[i] in s.licenses && targets[i] in t.licenses
    ensures s.licenses[targets[i]].status == Status.Unassigned && s.licenses[targets[i]].plan == plan
    ensures t.licenses[targets[i]] ==
            s.licenses[targets[i]].(status := Status.Assigned, email := Some(emails[i]), activationKey := Some(keys[i]),
                                    assignedDate := Some(now), remindDate := Some(now))
  {
    assert targets[i] in UnassignedIn(s.licenses, plan);
  }

  /** In a table without duplicates, one license is reported as already associated for each learner served before. */
  lemma AssociatedAreServed(ls: Licenses, plan: PlanId, emails: set<Email>)
    requires Unique(ls)
    ensures |AssociatedWith(ls, plan, emails)| == |emails - Unserved(ls, plan, emails)|
  {
    var served, associated := emails - Unserved(ls, plan, emails), AssociatedWith(ls, plan, emails);
    assert served == set email | email in emails && ActiveFor(ls, plan, Some(email)) != {};
    forall id | id in ls && ls[id].plan == plan && ls[id].Active() && ls[id].email.Some?
      ensures ActiveFor(ls, plan, ls[id].email) != {}
    {
      assert id in ActiveFor(ls, plan, ls[id].email);
    }
    SameSizeByEmail(ls, plan, served, associated);
  }

  lemma {:induction false} SameSizeByEmail(ls: Licenses, plan: PlanId, emails: set<Email>, ids: set<LicenseId>)
    requires Unique(ls)
    requires forall id :: id in ids <==>
               id in ls && ls[id].plan == plan && ls[id].Active() && ls[id].email.Some? && ls[id].email.value in emails
    requires forall email :: email in emails ==> ActiveFor(ls, plan, Some(email)) != {}
    ensures |ids| == |emails|
    decreases |emails|
  {
    if emails == {} {
      assert ids == {};
    } else {
      var email :| email in emails;
      var id :| id in ActiveFor(ls, plan, Some(email));
      SameSizeByEmail(ls, plan, emails - {email}, ids - {id});
    }
  }

  // ---- Automatic application --------------------------------------------------------

  datatype AutoApplyResult =
    | NoPlan
    | RevokedBefore(plan: PlanId)
    | AlreadyHeld(plan: PlanId, id: LicenseId)
    | NoneLeft(plan: PlanId)
    | Applied(plan: PlanId, id: LicenseId, key: int)

  function AutoAppliedPlans(plans: Plans, agreement: AgreementId, now: Time): set<PlanId> {
    set p | p in CurrentPlans(plans, agreement, now) && plans[p].autoApply
  }

  /** `auto_applicable_subscription`: the current auto-applied plan that started last. */
  method AutoApplicable(plans: Plans, agreement: AgreementId, now: Time) returns (r: Option<PlanId>)
    ensures r == None <==> AutoAppliedPlans(plans, agreement, now) == {}
    ensures r.Some? ==> LatestStarted(plans, AutoAppliedPlans(plans, agreement, now), r.value)
  {
    r := FirstByStart(plans, AutoAppliedPlans(plans, agreement, now));
  }

  function RevokedFor(ls: Licenses, plan: PlanId, email: Email): set<LicenseId> {
    set id | id in ls && ls[id].plan == plan && ls[id].email == Some(email) && ls[id].status == Status.Revoked
  }

  ghost predicate CurrentAndAutoApplied(plans: Plans, agreement: AgreementId, now: Time, p: PlanId) {
    && p in plans && plans[p].agreement == agreement && plans[p].autoApply && plans[p].isActive
    && !(now < plans[p].startDate) && !(plans[p].expirationDate < now)
  }

  /** The learner has this license of the plan, in one of these states. */
  ghost predicate HasRow(ls: Licenses, id: LicenseId, plan: PlanId, email: Email, states: set<Status>) {
    id in ls && ls[id].plan == plan && ls[id].email == Some(email) && ls[id].status in states
  }

  lemma HoldersByStatus(ls: Licenses, plan: PlanId, email: Email)
    ensures ActiveFor(ls, plan, Some(email)) == {} <==>
            forall id :: !HasRow(ls, id, plan, email, {Status.Assigned, Status.Activated})
    ensures RevokedFor(ls, plan, email) == {} <==> forall id :: !HasRow(ls, id, plan, email, {Status.Revoked})
  {
    forall id
      ensures id in ActiveFor(ls, plan, Some(email)) <==>
              HasRow(ls, id, plan, email, {Status.Assigned, Status.Activated})
      ensures id in RevokedFor(ls, plan, email) <==> HasRow(ls, id, plan, email, {Status.Revoked})
    {
    }
  }

  lemma AutoAppliedByFields(plans: Plans, agreement: AgreementId, now: Time)
    ensures forall p :: p in AutoAppliedPlans(plans, agreement, now) <==>
              CurrentAndAutoApplied(plans, agreement, now, p)
  {
  }

  /** The auto-apply endpoint. The save at its end is never refused. */
  method AutoApply(db: Database, agreement: AgreementId, email: Email, user: int,
                   now: Time) returns (r: AutoApplyResult)
    modifies db`licenses
    ensures r.NoPlan? <==> AutoAppliedPlans(db.plans, agreement, now) == {}
    ensures !r.NoPlan? ==> LatestStarted(db.plans, AutoAppliedPlans(db.plans, agreement, now), r.plan)
    ensures !r.NoPlan? ==> (r.RevokedBefore? <==> RevokedFor(old(db.licenses), r.plan, email) != {})
    ensures r.AlreadyHeld? ==> r.id in ActiveFor(db.licenses, r.plan, Some(email))
    ensures r.NoneLeft? || r.Applied? ==> ActiveFor(old(db.licenses), r.plan, Some(email)) == {}
    ensures r.NoneLeft? ==> UnassignedIn(db.licenses, r.plan) == {}
    ensures !r.Applied? ==> db.licenses == old(db.licenses)
    ensures !r.NoPlan? ==>
              && CurrentAndAutoApplied(db.plans, agreement, now, r.plan)
              && forall p :: CurrentAndAutoApplied(db.plans, agreement, now, p) ==>
                               db.plans[p].startDate <= db.plans[r.plan].startDate
    ensures r.NoPlan? ==> forall p :: !CurrentAndAutoApplied(db.plans, agreement, now, p)
    ensures !r.NoPlan? ==>
              (r.RevokedBefore? <==> exists id :: HasRow(old(db.licenses), id, r.plan, email, {Status.Revoked}))
    ensures r.AlreadyHeld? ==> HasRow(db.licenses, r.id, r.plan, email, {Status.Assigned, Status.Activated})
    ensures r.Applied? ==>
              && (forall id :: !HasRow(old(db.licenses), id, r.plan, email, {Status.Assigned, Status.Activated}))
              && r.id in old(db.licenses) && old(db.licenses)[r.id].status == Status.Unassigned
              && db.licenses == old(db.licenses)[r.id := old(db.licenses)[r.id].(
                   status := Status.Activated, email := Some(email), lmsUser := Some(user),
                   activationKey := Some(r.key), activationDate := Some(now), assignedDate := Some(now),
                   remindDate := Some(now), autoApplied := true)]
    ensures r.Applied? ==>
              UnassignedIn(old(db.licenses), r.plan) != {} && r.id == Min(UnassignedIn(old(db.licenses), r.plan))
              && Step(old(db.Snapshot()), Event.AutoApply(r.plan, email, user, r.id, r.key, now), db.Snapshot())
  {
    AutoAppliedByFields(db.plans, agreement, now);
    var chosen := AutoApplicable(db.plans, agreement, now);
    if chosen == None {
      return NoPlan;
    }
    var plan := chosen.value;
    HoldersByStatus(db.licenses, plan, email);
    if RevokedFor(db.licenses, plan, email) != {} {
      return RevokedBefore(plan);
    }
    var held := ActiveFor(db.licenses, plan, Some(email));
    if held != {} {
      var id :| id in held;
      return AlreadyHeld(plan, id);
    }
    var pool := UnassignedIn(db.licenses, plan);
    if |pool| == 0 {
      return NoneLeft(plan);
    }
    var id := Min(pool);
    var key: int := *;
    var saved := db.Save(id, db.licenses[id].AutoApplyTo(email, user, key, now));
    assert saved;
    r := Applied(plan, id, key);
  }
}
