/**
 Freezing a plan: deleting its unused licenses, and what that does to its revocation cap.
 */
module Freezing {
  import opened Collections
  import opened Licensing
  import opened Lifecycle
  import opened Revocation

  /** `delete_unused_licenses_post_freeze`; refused when the plan does not support it. */
  method DeleteUnusedLicenses(db: Database, plan: PlanId, now: Time) returns (ok: bool)
    requires plan in db.plans
    modifies db`licenses, db`plans
    ensures ok <==> old(db.plans[plan].canFreeze)
    ensures !ok ==> db.Snapshot() == old(db.Snapshot())
    ensures ok ==> Step(old(db.Snapshot()), Freeze(plan, now), db.Snapshot())
  {
    ok := db.plans[plan].canFreeze;
    if ok {
      db.licenses := Deleted(db.licenses, UnassignedIn(db.licenses, plan));
      db.plans := db.plans[plan := db.plans[plan].(lastFreeze := Some(now))];
    }
  }

  /** A freeze takes only the unused licenses of its plan, and leaves no link to them behind. */
  lemma FreezeLosesNobody(s: State, plan: PlanId, now: Time, t: State)
    requires Step(s, Freeze(plan, now), t)
    ensures UnassignedIn(t.licenses, plan) == {}
    ensures forall id :: id in t.licenses <==>
              id in s.licenses && !(s.licenses[id].plan == plan && s.licenses[id].status == Status.Unassigned)
    ensures forall id :: id in t.licenses ==> t.licenses[id] == s.licenses[id].(renewedTo := t.licenses[id].renewedTo)
    ensures NumLicenses(t.licenses, plan) == NumAllocated(s.licenses, plan)
    ensures forall p, email :: ActiveFor(t.licenses, p, email) == ActiveFor(s.licenses, p, email)
    ensures forall p :: p != plan ==> OfPlan(t.licenses, p) == OfPlan(s.licenses, p)
    ensures LinksStored(s.licenses) ==> LinksStored(t.licenses)
  {
    assert UsableIn(t.licenses, plan) == AllocatedIn(s.licenses, plan);
    forall p, email
      ensures ActiveFor(t.licenses, p, email) == ActiveFor(s.licenses, p, email)
    {
    }
    forall p | p != plan
      ensures OfPlan(t.licenses, p) == OfPlan(s.licenses, p)
    {
    }
  }

  /** A freeze keeps the cap exactly when the used revocations fit the licenses it leaves. */
  lemma FreezeKeepsCapIff(s: State, plan: PlanId, now: Time, t: State)
    requires Step(s, Freeze(plan, now), t) && s.plans[plan].capEnabled
    ensures CapRespected(t, plan) <==>
            s.plans[plan].revocationsApplied
              <= RevocationsAllowed(NumAllocated(s.licenses, plan), s.plans[plan].maxPercentage)
  {
    assert UsableIn(t.licenses, plan) == AllocatedIn(s.licenses, plan);
  }

  /** One unassigned license, a cap of 5% and one revocation used: a freeze overdraws the cap. */
  lemma FreezeCanOverdrawCap() returns (s: State, t: State)
    ensures CapRespected(s, 0) && Step(s, Freeze(0, 0), t) && !CapRespected(t, 0)
  {
    var plan := Plan(0, 0, 0, true, true, 5, 1, false, true, None, false, false, None);
    s := State(map[0 := NewLicense(0)], map[0 := plan]);
    t := State(Deleted(s.licenses, UnassignedIn(s.licenses, 0)), map[0 := plan.(lastFreeze := Some(0))]);
    assert UsableIn(s.licenses, 0) == {0};
    assert UsableIn(t.licenses, 0) == {};
    RevocationsAllowedIsLeast(1, 5);
    RevocationsAllowedIsLeast(0, 5);
  }
}
