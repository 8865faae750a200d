/**
 The tables of the license manager and the row-level operations on them.
 Rows are values held in tables keyed by primary key; methods change the tables.
 Time is an integer, primary keys are naturals (in key order), emails are lower-case.
 */
module Licensing {
  import opened Collections

  type LicenseId = nat
  type PlanId = nat
  type RenewalId = nat
  type AgreementId = nat
  type Email = string
  type Time = int

  datatype Status = Unassigned | Assigned | Activated | Revoked

  datatype License = License(
    plan: PlanId,
    status: Status,
    email: Option<Email>,
    lmsUser: Option<int>,
    activationKey: Option<int>,
    assignedDate: Option<Time>,
    activationDate: Option<Time>,
    revokedDate: Option<Time>,
    remindDate: Option<Time>,
    reminderSent: Option<Time>,
    planExpirationSent: Option<Time>,
    autoApplied: bool,
    renewedTo: Option<LicenseId>)
  {
    /** Assigned or activated: the license is held by a learner. */
    predicate Active() {
      status == Assigned || status == Activated
    }

    function AssignTo(to: Email, key: int, now: Time): License {
      this.(email := Some(to), status := Assigned, activationKey := Some(key),
            assignedDate := Some(now), remindDate := Some(now))
    }

    function AutoApplyTo(to: Email, user: int, key: int, now: Time): License {
      this.(email := Some(to), lmsUser := Some(user), status := Activated, activationKey := Some(key),
            activationDate := Some(now), assignedDate := Some(now), remindDate := Some(now),
            autoApplied := true)
    }

    function Activate(user: int, now: Time): License {
      this.(status := Activated, activationDate := Some(now), lmsUser := Some(user))
    }

    function Revoke(now: Time): License {
      this.(status := Revoked, revokedDate := Some(now))
    }

    function ClearPii(): License {
      this.(email := None)
    }

    function ResetToUnassigned(): License {
      this.(status := Unassigned, email := None, lmsUser := None, remindDate := None,
            activationDate := None, activationKey := None, assignedDate := None, revokedDate := None)
    }

    /** The row of a future plan after it took over `original` (`renewedTo` stays). */
    function CopyFrom(original: License, planStart: Time, now: Time): License {
      this.(status := original.status, email := original.email, lmsUser := original.lmsUser,
            activationKey := original.activationKey, assignedDate := Some(now),
            activationDate := if original.status == Activated then Some(planStart) else activationDate)
    }
  }

  /** The row that `License(subscription_plan=plan)` inserts. */
  function NewLicense(plan: PlanId): License {
    License(plan, Unassigned, None, None, None, None, None, None, None, None, None, false, None)
  }

  /** A reset forgets whatever happened to the license since it was handed out. */
  lemma ResetForgets(row: License, to: Email, key: int, user: int, now: Time)
    ensures row.AssignTo(to, key, now).ResetToUnassigned() == row.ResetToUnassigned()
    ensures row.AutoApplyTo(to, user, key, now).ResetToUnassigned() == row.ResetToUnassigned().(autoApplied := true)
    ensures row.Activate(user, now).ResetToUnassigned() == row.ResetToUnassigned()
    ensures row.Revoke(now).ResetToUnassigned() == row.ResetToUnassigned()
    ensures row.ClearPii().ResetToUnassigned() == row.ResetToUnassigned()
  {
  }

  /** Only the marks of sent mails, the renewal link and the auto-apply flag tell a reset license from a new one. */
  lemma ResetIsLikeNew(row: License)
    ensures row.ResetToUnassigned() ==
            NewLicense(row.plan).(reminderSent := row.reminderSent, planExpirationSent := row.planExpirationSent,
                                  autoApplied := row.autoApplied, renewedTo := row.renewedTo)
  {
  }

  /** Applying a license automatically is assigning and activating it at once. */
  lemma AutoApplyIsAssignAndActivate(row: License, to: Email, key: int, user: int, now: Time)
    ensures row.AutoApplyTo(to, user, key, now) == row.AssignTo(to, key, now).Activate(user, now).(autoApplied := true)
  {
  }

  datatype Plan = Plan(
    agreement: AgreementId,
    startDate: Time,
    expirationDate: Time,
    isActive: bool,
    capEnabled: bool,
    maxPercentage: nat,
    revocationsApplied: nat,
    autoApply: bool,
    canFreeze: bool,
    lastFreeze: Option<Time>,
    internal: bool,
    expirationProcessed: bool,
    desired: Option<nat>)
  {
    predicate CurrentAt(now: Time) {
      isActive && startDate <= now <= expirationDate
    }
  }

  datatype LicenseTypes = AssignedAndActivated | OnlyActivated | Nothing

  datatype Renewal = Renewal(
    prior: PlanId,
    renewed: Option<PlanId>,
    numberOfLicenses: nat,
    typesToCopy: LicenseTypes,
    disableAutoApply: bool,
    effectiveDate: Time,
    renewedExpiration: Time,
    processed: bool,
    processedDate: Option<Time>)

  datatype Agreement = Agreement(
    autoScaling: bool,
    maxLicenses: Option<int>,
    thresholdPercentage: Option<int>,
    incrementPercentage: Option<int>,
    purgeAfter: int)

  type Licenses = map<LicenseId, License>
  type Plans = map<PlanId, Plan>
  type Renewals = map<RenewalId, Renewal>

  /** One state of the tables the lifecycle operations change. */
  datatype State = State(licenses: Licenses, plans: Plans)

  class Database {
    var licenses: Licenses
    var plans: Plans
    var renewals: Renewals
    var agreements: map<AgreementId, Agreement>

    constructor ()
      ensures licenses == map[] && plans == map[] && renewals == map[] && agreements == map[]
    {
      licenses, plans, renewals, agreements := map[], map[], map[], map[];
    }

    function Snapshot(): State
      reads this
    {
      State(licenses, plans)
    }

    /** Licenses and renewals refer to stored plans, and plans to stored agreements. */
    ghost predicate ForeignKeys()
      reads this
    {
      && (forall id :: id in licenses ==> licenses[id].plan in plans)
      && LinksStored(licenses)
      && (forall p :: p in plans ==> plans[p].agreement in agreements)
      && RenewalsStored(renewals, plans)
    }

    /** Leaving a `transaction.atomic()` block by an exception. */
    method Rollback(saved: State)
      modifies this`licenses, this`plans
      ensures Snapshot() == saved
    {
      licenses, plans := saved.licenses, saved.plans;
    }

    /** `License.save()`: runs `clean()` first and stores nothing when that raises. */
    method Save(id: LicenseId, row: License) returns (ok: bool)
      modifies this`licenses
      ensures ok <==> CleanAccepts(old(licenses), id, row)
      ensures licenses == if ok then old(licenses)[id := row] else old(licenses)
    {
      ok := true;
      if row.Active() {
        ok := ActiveFor(licenses, row.plan, row.email) - {id} == {};
      }
      if ok {
        licenses := licenses[id := row];
      }
    }
  }

  /** Primary keys that no stored row has (`uuid4()`). */
  method NewKeys(taken: set<nat>, n: nat) returns (added: set<nat>)
    ensures added !! taken && |added| == n
  {
    var bound: nat, left := 0, taken;
    while left != {}
      invariant forall id :: id in taken ==> id in left || id < bound
    {
      var id :| id in left;
      bound, left := if id < bound then bound else id + 1, left - {id};
    }
    added := {};
    for i := 0 to n
      invariant |added| == i
      invariant forall id :: id in added ==> bound <= id < bound + i
      invariant added !! taken
    {
      added := added + {bound + i};
    }
  }

  function CurrentPlans(plans: Plans, agreement: AgreementId, now: Time): set<PlanId> {
    set p | p in plans && plans[p].agreement == agreement && plans[p].CurrentAt(now)
  }

  /** One of some plans that no other started after. */
  ghost predicate LatestStarted(plans: Plans, candidates: set<PlanId>, latest: PlanId)
    requires candidates <= plans.Keys
  {
    latest in candidates && forall p :: p in candidates ==> plans[p].startDate <= plans[latest].startDate
  }

  /** `order_by('-start_date').first()` */
  method FirstByStart(plans: Plans, candidates: set<PlanId>) returns (r: Option<PlanId>)
    requires candidates <= plans.Keys
    ensures r == None <==> candidates == {}
    ensures r.Some? ==> LatestStarted(plans, candidates, r.value)
  {
    r := None;
    var left := candidates;
    while left != {}
      invariant left <= candidates && (r == None <==> left == candidates)
      invariant r.Some? ==> LatestStarted(plans, candidates - left, r.value)
    {
      var p :| p in left;
      if r == None || plans[r.value].startDate < plans[p].startDate {
        r := Some(p);
      }
      left := left - {p};
    }
    assert candidates - {} == candidates;
  }

  // ---- Querysets over the license table ------------------------------------

  function OfPlan(ls: Licenses, plan: PlanId): set<LicenseId> {
    set id | id in ls && ls[id].plan == plan
  }

  function UnassignedIn(ls: Licenses, plan: PlanId): set<LicenseId> {
    set id | id in ls && ls[id].plan == plan && ls[id].status == Unassigned
  }

  function AllocatedIn(ls: Licenses, plan: PlanId): set<LicenseId> {
    set id | id in ls && ls[id].plan == plan && ls[id].Active()
  }

  /** All but the revoked licenses of a plan. */
  function UsableIn(ls: Licenses, plan: PlanId): set<LicenseId> {
    set id | id in ls && ls[id].plan == plan && ls[id].status != Revoked
  }

  function ActiveFor(ls: Licenses, plan: PlanId, email: Option<Email>): set<LicenseId> {
    set id | id in ls && ls[id].plan == plan && ls[id].Active() && ls[id].email == email
  }

  function NumLicenses(ls: Licenses, plan: PlanId): nat {
    |UsableIn(ls, plan)|
  }

  function NumAllocated(ls: Licenses, plan: PlanId): nat {
    |AllocatedIn(ls, plan)|
  }

  ghost predicate LinksStored(ls: Licenses) {
    forall id :: id in ls && ls[id].renewedTo.Some? ==> ls[id].renewedTo.value in ls
  }

  ghost predicate RenewalsStored(rs: Renewals, plans: Plans) {
    forall r :: r in rs ==> rs[r].prior in plans && (rs[r].renewed.Some? ==> rs[r].renewed.value in plans)
  }

  // ---- Invariants of the license table -------------------------------------

  /** At most one active license for a learner in a plan. */
  ghost predicate Unique(ls: Licenses) {
    forall a, b | a in ls && b in ls && ls[a].Active() && ls[b].Active() ::
      ls[a].plan == ls[b].plan && ls[a].email == ls[b].email ==> a == b
  }

  /** An unassigned license names nobody; an active one names a learner and has its date. */
  ghost predicate Tidy(ls: Licenses) {
    forall id :: id in ls ==>
      (ls[id].status == Unassigned ==> ls[id].email == None) &&
      (ls[id].Active() ==> ls[id].email.Some? && ls[id].assignedDate.Some?)
  }

  /** `License.clean()` does not raise for `row` stored under `id`. */
  ghost predicate CleanAccepts(ls: Licenses, id: LicenseId, row: License) {
    row.Active() ==> ActiveFor(ls, row.plan, row.email) <= {id}
  }

  /** What `clean()` checks is enough and no more than needed to keep a unique table unique. */
  lemma SaveKeepsUniqueIff(ls: Licenses, id: LicenseId, row: License)
    requires Unique(ls)
    ensures Unique(ls[id := row]) <==> CleanAccepts(ls, id, row)
  {
    var after := ls[id := row];
    var holders := ActiveFor(ls, row.plan, row.email);
    assert forall other :: other in holders <==>
      other in ls && ls[other].Active() && ls[other].plan == row.plan && ls[other].email == row.email;
    if Unique(after) && row.Active() {
      forall other | other in holders
        ensures other == id
      {
        assert other in after && id in after;
      }
    }
  }

  lemma UniqueMeansAtMostOne(ls: Licenses, plan: PlanId, email: Option<Email>)
    requires Unique(ls)
    ensures |ActiveFor(ls, plan, email)| <= 1
  {
    var holders := ActiveFor(ls, plan, email);
    if holders != {} {
      var a :| a in holders;
      assert holders == {a};
    }
  }
}
