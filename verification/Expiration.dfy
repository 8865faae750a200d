/**
 The command that expires subscription plans: which plans it expires, in what
 batches their licenses go out, and when a plan counts as processed.
 */
module Expiration {
  import opened Collections
  import opened Licensing
  import opened RenewalChains

  const LICENSE_EXPIRATION_BATCH_SIZE := 100

  // ---- Expiring one plan -------------------------------------------------------------

  /** What happened to one plan: the batches sent and whether each was accepted. */
  datatype PlanRun = PlanRun(plan: PlanId, batches: seq<seq<LicenseId>>, accepted: seq<bool>) {
    predicate AllAccepted() {
      false !in accepted
    }
  }

  /** The batches partition the active licenses of the plan, and only the last may be short. */
  ghost predicate SentAll(ls: Licenses, run: PlanRun) {
    && |run.accepted| == |run.batches|
    && Enumerates(Flatten(run.batches), AllocatedIn(ls, run.plan))
    && (forall i :: 0 <= i < |run.batches| ==> 1 <= |run.batches[i]| <= LICENSE_EXPIRATION_BATCH_SIZE)
    && forall i :: 0 <= i < |run.batches| - 1 ==> |run.batches[i]| == LICENSE_EXPIRATION_BATCH_SIZE
  }

  function Marked(plans: Plans, run: PlanRun): Plans
    requires run.plan in plans
  {
    if run.AllAccepted() then plans[run.plan := plans[run.plan].(expirationProcessed := true)] else plans
  }

  /** `_expire_subscription_plan`; each call to the enrollment service may fail. */
  method ExpirePlan(db: Database, plan: PlanId) returns (run: PlanRun)
    requires plan in db.plans
    modifies db`plans
    ensures run.plan == plan && SentAll(db.licenses, run)
    ensures db.plans == Marked(old(db.plans), run)
  {
    var expired := Query(AllocatedIn(db.licenses, plan));
    var batches := Chunks(expired, LICENSE_EXPIRATION_BATCH_SIZE);
    ChunksTile(expired, LICENSE_EXPIRATION_BATCH_SIZE);
    var anyFailures, accepted := false, [];
    for i := 0 to |batches|
      invariant |accepted| == i
      invariant anyFailures <==> false in accepted
    {
      var ok: bool := *;
      accepted := accepted + [ok];
      if !ok {
        anyFailures := true;
      }
    }
    run := PlanRun(plan, batches, accepted);
    if !anyFailures {
      db.plans := db.plans[plan := db.plans[plan].(expirationProcessed := true)];
    }
  }

  // ---- The chain behind a plan -----------------------------------------------------------

  ghost predicate Terminal(rs: Renewals, p: PlanId) {
    forall r :: !IsRenewalOf(rs, p, r)
  }

  lemma TerminalNotOnCycle(rs: Renewals, p: PlanId)
    requires Terminal(rs, p)
    ensures !OnCycle(rs, p)
  {
    if OnCycle(rs, p) {
      var loop :| loop != [] && Leads(rs, p, loop, p);
      assert IsRenewalOf(rs, p, loop[0]);
    }
  }

  /** A plan and the plans it was renewed from. */
  function ChainPlans(rs: Renewals, p: PlanId, prior: Path): seq<PlanId>
    requires forall i :: 0 <= i < |prior| ==> prior[i] in rs
  {
    [p] + seq(|prior|, i requires 0 <= i < |prior| => rs[prior[i]].prior)
  }

  lemma ChainPlanReaches(rs: Renewals, p: PlanId, prior: Path, i: nat)
    requires PriorOf(rs, p, prior) && i <= |prior|
    ensures Reaches(rs, ChainPlans(rs, p, prior)[i], p)
  {
    var path := if i == 0 then [] else prior[i - 1..];
    assert Leads(rs, ChainPlans(rs, p, prior)[i], path, p);
  }

  lemma AncestorInChain(rs: Renewals, p: PlanId, prior: Path, q: PlanId)
    requires OneToOne(rs) && PriorOf(rs, p, prior) && Reaches(rs, q, p)
    ensures q in ChainPlans(rs, p, prior)
  {
    var path :| Leads(rs, q, path, p);
    WaysBackAreTails(rs, p, prior, q, path);
    assert ChainPlans(rs, p, prior)[if path == [] then 0 else |prior| - |path| + 1] == q;
  }

  lemma ChainPlansAreApart(rs: Renewals, p: PlanId, prior: Path)
    requires OneToOne(rs) && Terminal(rs, p) && PriorOf(rs, p, prior) && NoDup(prior)
    ensures NoDup(ChainPlans(rs, p, prior))
  {
    var plans := ChainPlans(rs, p, prior);
    forall i | 1 <= i < |plans|
      ensures plans[i] != p
    {
      assert IsRenewalOf(rs, plans[i], prior[i - 1]);
    }
    forall i, j | 1 <= i < j < |plans|
      ensures plans[i] != plans[j]
    {
      assert prior[i - 1] != prior[j - 1];
    }
  }

  /** The chain of a terminal plan holds each of its ancestors, and itself, once. */
  lemma ChainPlansAreAncestors(rs: Renewals, p: PlanId, prior: Path)
    requires OneToOne(rs) && Terminal(rs, p) && PriorOf(rs, p, prior) && NoDup(prior)
    ensures NoDup(ChainPlans(rs, p, prior))
    ensures forall q :: q in ChainPlans(rs, p, prior) <==> Reaches(rs, q, p)
  {
    ChainPlansAreApart(rs, p, prior);
    forall q
      ensures q in ChainPlans(rs, p, prior) <==> Reaches(rs, q, p)
    {
      if q in ChainPlans(rs, p, prior) {
        var i: nat :| i <= |prior| && ChainPlans(rs, p, prior)[i] == q;
        ChainPlanReaches(rs, p, prior, i);
      }
      if Reaches(rs, q, p) {
        AncestorInChain(rs, p, prior, q);
      }
    }
  }

  /** A plan lies behind at most one terminal plan. */
  lemma OneTerminalAhead(rs: Renewals, q: PlanId, a: PlanId, b: PlanId)
    requires OneToOne(rs) && Terminal(rs, a) && Terminal(rs, b) && Reaches(rs, q, a) && Reaches(rs, q, b)
    ensures a == b
  {
    var toA :| Leads(rs, q, toA, a);
    var toB :| Leads(rs, q, toB, b);
    assert forall r :: Follows(rs, q, toA, r) ==> IsRenewalOf(rs, a, r);
    assert forall r :: Follows(rs, q, toB, r) ==> IsRenewalOf(rs, b, r);
    FutureUnique(rs, q, toA, toB);
  }

  // ---- The command ---------------------------------------------------------------------------

  datatype Options = Options(after: Time, before: Time, uuids: set<PlanId>, dryRun: bool, force: bool)

  datatype Outcome =
    | NotExpiredYet
    | NothingSelected(raises: bool)
    | DryRun(selected: seq<PlanId>)
    | Ran(runs: seq<PlanRun>)

  /** The plans the filters of the command select. */
  function Selected(plans: Plans, o: Options, now: Time): set<PlanId> {
    if o.uuids != {} then
      set p | p in o.uuids && p in plans && plans[p].expirationDate <= now
    else
      set p | p in plans && o.after <= plans[p].expirationDate <= o.before && (o.force || !plans[p].expirationProcessed)
  }

  /** `p` ends its chain of renewals and was selected. */
  ghost predicate SelectedLast(rs: Renewals, selected: set<PlanId>, p: PlanId) {
    p in selected && Terminal(rs, p)
  }

  function PlansOf(runs: seq<PlanRun>): seq<PlanId> {
    seq(|runs|, i requires 0 <= i < |runs| => runs[i].plan)
  }

  /** A plan is marked when a run of it was accepted throughout, and otherwise keeps its mark. */
  ghost predicate MarkedBy(plans: Plans, after: Plans, runs: seq<PlanRun>) {
    && after.Keys == plans.Keys
    && forall p :: p in plans ==>
         after[p] == plans[p].(expirationProcessed := plans[p].expirationProcessed || FullyAccepted(runs, p))
  }

  ghost predicate FullyAccepted(runs: seq<PlanRun>, p: PlanId) {
    exists i :: 0 <= i < |runs| && runs[i].plan == p && forall k :: 0 <= k < |runs[i].accepted| ==> runs[i].accepted[k]
  }

  lemma MarkedByAppend(plans: Plans, mid: Plans, runs: seq<PlanRun>, run: PlanRun)
    requires MarkedBy(plans, mid, runs) && run.plan in mid
    ensures MarkedBy(plans, Marked(mid, run), runs + [run])
  {
    forall p | p in plans
      ensures FullyAccepted(runs + [run], p) <==> FullyAccepted(runs, p) || (run.plan == p && run.AllAccepted())
    {
      if FullyAccepted(runs, p) {
        var i :| 0 <= i < |runs| && runs[i].plan == p
                 && forall k :: 0 <= k < |runs[i].accepted| ==> runs[i].accepted[k];
        assert (runs + [run])[i] == runs[i];
      }
      assert (runs + [run])[|runs|] == run;
    }
  }

  /** Expires `plans` one after the other. */
  method ExpirePlans(db: Database, plans: seq<PlanId>, ghost start: Plans,
                     earlier: seq<PlanRun>) returns (runs: seq<PlanRun>)
    requires forall p :: p in plans ==> p in db.plans
    requires MarkedBy(start, db.plans, earlier)
    modifies db`plans
    ensures |runs| == |earlier| + |plans| && earlier <= runs
    ensures PlansOf(runs) == PlansOf(earlier) + plans
    ensures forall i :: |earlier| <= i < |runs| ==> SentAll(db.licenses, runs[i])
    ensures MarkedBy(start, db.plans, runs)
  {
    runs := earlier;
    for i := 0 to |plans|
      invariant |runs| == |earlier| + i && earlier <= runs
      invariant PlansOf(runs) == PlansOf(earlier) + plans[..i]
      invariant forall j :: |earlier| <= j < |runs| ==> SentAll(db.licenses, runs[j])
      invariant MarkedBy(start, db.plans, runs) && db.plans.Keys == old(db.plans.Keys)
    {
      ghost var mid := db.plans;
      assert plans[i] in plans;
      var run := ExpirePlan(db, plans[i]);
      MarkedByAppend(start, mid, runs, run);
      assert PlansOf(runs + [run]) == PlansOf(runs) + [plans[i]];
      runs := runs + [run];
    }
    assert plans[..|plans|] == plans;
  }

  /** The plans that the first `n` selected ones cause to be expired. */
  ghost predicate BehindSome(rs: Renewals, selected: seq<PlanId>, q: PlanId) {
    exists p :: p in selected && Terminal(rs, p) && Reaches(rs, q, p)
  }

  /** A run: the chains of the last plans selected, no plan twice, marked where all batches were accepted. */
  ghost predicate RanOver(plans: Plans, after: Plans, rs: Renewals, ls: Licenses, selected: set<PlanId>,
                          runs: seq<PlanRun>) {
    && NoDup(PlansOf(runs))
    && (forall q :: q in PlansOf(runs) <==> exists p :: SelectedLast(rs, selected, p) && Reaches(rs, q, p))
    && (forall i :: 0 <= i < |runs| ==> SentAll(ls, runs[i]))
    && MarkedBy(plans, after, runs)
  }

  /** What the options ask for: expired plans by id, or else plans in range that were not processed, unless forced. */
  ghost predicate InScope(o: Options, now: Time, p: PlanId, plan: Plan) {
    if o.uuids == {} then
      plan.expirationDate >= o.after && plan.expirationDate <= o.before && (plan.expirationProcessed ==> o.force)
    else
      p in o.uuids && !(now < plan.expirationDate)
  }

  lemma SelectedAreInScope(plans: Plans, o: Options, now: Time)
    ensures forall p :: p in Selected(plans, o, now) <==> p in plans && InScope(o, now, p, plans[p])
  {
  }

  lemma TerminalReachesItself(rs: Renewals, p: PlanId, q: PlanId)
    requires Terminal(rs, p)
    ensures Reaches(rs, p, q) <==> p == q
  {
    if Reaches(rs, p, q) {
      var path :| Leads(rs, p, path, q);
      if path != [] {
        assert IsRenewalOf(rs, p, path[0]);
      }
    }
    var none: Path := [];
    assert Leads(rs, p, none, p);
  }

  /** A plan without a renewal is expired exactly if it is in scope. */
  lemma LastPlansInScope(plans: Plans, after: Plans, rs: Renewals, ls: Licenses, o: Options, now: Time,
                         runs: seq<PlanRun>, p: PlanId)
    requires RanOver(plans, after, rs, ls, Selected(plans, o, now), runs) && Terminal(rs, p)
    ensures p in PlansOf(runs) <==> p in plans && InScope(o, now, p, plans[p])
  {
    forall q
      ensures Reaches(rs, p, q) <==> p == q
    {
      TerminalReachesItself(rs, p, q);
    }
    assert p in PlansOf(runs) <==> SelectedLast(rs, Selected(plans, o, now), p);
  }

  /**
   The same date-range run again expires just the chains of those last plans whose batches were not all
   accepted before; after full success it expires nothing.
   */
  lemma RerunExpiresTheRest(plans: Plans, mid: Plans, after: Plans, rs: Renewals, ls: Licenses, o: Options, now: Time,
                            runs: seq<PlanRun>, again: seq<PlanRun>, q: PlanId)
    requires o.uuids == {} && !o.force
    requires RanOver(plans, mid, rs, ls, Selected(plans, o, now), runs)
    requires RanOver(mid, after, rs, ls, Selected(mid, o, now), again)
    ensures q in PlansOf(again) <==>
            exists p :: Terminal(rs, p) && p in PlansOf(runs) && !FullyAccepted(runs, p) && Reaches(rs, q, p)
  {
    forall p
      ensures SelectedLast(rs, Selected(mid, o, now), p) <==>
              Terminal(rs, p) && p in PlansOf(runs) && !FullyAccepted(runs, p)
    {
      if Terminal(rs, p) {
        LastPlansInScope(plans, mid, rs, ls, o, now, runs, p);
      }
    }
  }

  lemma AllLastPlansInScope(plans: Plans, after: Plans, rs: Renewals, ls: Licenses, o: Options, now: Time,
                            runs: seq<PlanRun>)
    requires RanOver(plans, after, rs, ls, Selected(plans, o, now), runs)
    ensures forall p :: p in plans && Terminal(rs, p) ==> (p in PlansOf(runs) <==> InScope(o, now, p, plans[p]))
  {
    forall p | p in plans && Terminal(rs, p)
      ensures p in PlansOf(runs) <==> InScope(o, now, p, plans[p])
    {
      LastPlansInScope(plans, after, rs, ls, o, now, runs, p);
    }
  }

  lemma RanOverSet(plans: Plans, after: Plans, rs: Renewals, ls: Licenses, rows: seq<PlanId>, selected: set<PlanId>,
                   runs: seq<PlanRun>)
    requires Enumerates(rows, selected) && NoDup(PlansOf(runs)) && MarkedBy(plans, after, runs)
    requires forall q :: q in PlansOf(runs) <==> BehindSome(rs, rows, q)
    requires forall i :: 0 <= i < |runs| ==> SentAll(ls, runs[i])
    ensures RanOver(plans, after, rs, ls, selected, runs)
  {
    forall p
      ensures SelectedLast(rs, selected, p) <==> p in rows && Terminal(rs, p)
    {
      assert p in rows <==> p in Elems(rows);
    }
  }

  /** `handle`: never expires a plan twice, and a renewed plan only along with the last plan of its chain. */
  method ExpireSubscriptions(db: Database, o: Options, now: Time) returns (r: Outcome)
    requires db.ForeignKeys() && OneToOne(db.renewals)
    modifies db`plans
    ensures r.NotExpiredYet? <==> o.after > now || o.before > now
    ensures r.NothingSelected? <==> !r.NotExpiredYet? && Selected(old(db.plans), o, now) == {}
    ensures r.NothingSelected? ==> (r.raises <==> o.uuids != {})
    ensures r.DryRun? ==> o.dryRun && Enumerates(r.selected, Selected(old(db.plans), o, now))
                          && DescendingBy(r.selected, p =>
                                if p in old(db.plans) then -old(db.plans)[p].startDate else 0)
    ensures r.Ran? ==> !o.dryRun
    ensures !r.Ran? ==> db.plans == old(db.plans)
    ensures r.Ran? ==>
              RanOver(old(db.plans), db.plans, db.renewals, db.licenses, Selected(old(db.plans), o, now), r.runs)
    ensures r.NothingSelected? ==> forall p :: p in old(db.plans) ==> !InScope(o, now, p, old(db.plans)[p])
    ensures r.DryRun? ==> forall p :: p in r.selected <==> p in old(db.plans) && InScope(o, now, p, old(db.plans)[p])
    ensures r.Ran? ==> forall p :: p in old(db.plans) && Terminal(db.renewals, p) ==>
              (p in PlansOf(r.runs) <==> InScope(o, now, p, old(db.plans)[p]))
  {
    if o.after > now || o.before > now {
      return NotExpiredYet;
    }
    SelectedAreInScope(db.plans, o, now);
    var found := Query(Selected(db.plans, o, now));
    if found == [] {
      return NothingSelected(o.uuids != {});
    }
    var stored := db.plans;
    var key: PlanId -> int := (p: PlanId) => if p in stored then -stored[p].startDate else 0;
    var selected := SortDescending<PlanId>(found, key);
    SortIsDescending<PlanId>(found, key);
    SortEnumerates(found, selected, Selected(db.plans, o, now));
    assert forall p :: p in selected <==> p in Elems(selected);
    if o.dryRun {
      return DryRun(selected);
    }
    var runs := ExpireSelected(db, selected);
    RanOverSet(old(db.plans), db.plans, db.renewals, db.licenses, selected, Selected(old(db.plans), o, now), runs);
    AllLastPlansInScope(old(db.plans), db.plans, db.renewals, db.licenses, o, now, runs);
    r := Ran(runs);
  }

  /** The loop over the selected plans. */
  method ExpireSelected(db: Database, selected: seq<PlanId>) returns (runs: seq<PlanRun>)
    requires OneToOne(db.renewals) && NoDup(selected)
    requires forall r :: r in db.renewals ==> db.renewals[r].prior in db.plans
    requires forall p :: p in selected ==> p in db.plans
    modifies db`plans
    ensures NoDup(PlansOf(runs))
    ensures forall q :: q in PlansOf(runs) <==> BehindSome(db.renewals, selected, q)
    ensures forall i :: 0 <= i < |runs| ==> SentAll(db.licenses, runs[i])
    ensures MarkedBy(old(db.plans), db.plans, runs)
  {
    runs := [];
    ghost var rs := db.renewals;
    for i := 0 to |selected|
      invariant db.plans.Keys == old(db.plans.Keys)
      invariant NoDup(PlansOf(runs))
      invariant forall q :: q in PlansOf(runs) <==> BehindSome(rs, selected[..i], q)
      invariant forall j :: 0 <= j < |runs| ==> SentAll(db.licenses, runs[j])
      invariant MarkedBy(old(db.plans), db.plans, runs)
    {
      var p := selected[i];
      assert selected[..i + 1] == selected[..i] + [p];
      var renewal := GetRenewal(db.renewals, p);
      if renewal == None {
        TerminalNotOnCycle(rs, p);
        var prior := PriorRenewals(db.renewals, p);
        ChainPlansAreAncestors(rs, p, prior);
        ApartFromEarlier(rs, selected, i, PlansOf(runs), ChainPlans(rs, p, prior));
        runs := ExpirePlans(db, ChainPlans(db.renewals, p, prior), old(db.plans), runs);
      } else {
        assert !Terminal(rs, p);
        SkippedPlan(rs, selected[..i], p);
      }
    }
    assert selected[..|selected|] == selected;
  }

  lemma SkippedPlan(rs: Renewals, earlier: seq<PlanId>, p: PlanId)
    requires !Terminal(rs, p)
    ensures forall q :: BehindSome(rs, earlier + [p], q) <==> BehindSome(rs, earlier, q)
  {
  }

  lemma ApartFromEarlier(rs: Renewals, selected: seq<PlanId>, i: nat, done: seq<PlanId>, chain: seq<PlanId>)
    requires OneToOne(rs) && NoDup(selected) && i < |selected| && Terminal(rs, selected[i])
    requires NoDup(done) && forall q :: q in done <==> BehindSome(rs, selected[..i], q)
    requires NoDup(chain) && forall q :: q in chain <==> Reaches(rs, q, selected[i])
    ensures NoDup(done + chain)
    ensures forall q :: q in done + chain <==> BehindSome(rs, selected[..i + 1], q)
  {
    assert selected[..i + 1] == selected[..i] + [selected[i]];
    forall q | q in done
      ensures q !in chain
    {
      var p :| p in selected[..i] && Terminal(rs, p) && Reaches(rs, q, p);
      assert p != selected[i];
      if q in chain {
        OneTerminalAhead(rs, q, p, selected[i]);
      }
    }
    NoDupConcat(done, chain);
    forall q
      ensures BehindSome(rs, selected[..i + 1], q) <==> BehindSome(rs, selected[..i], q) || Reaches(rs, q, selected[i])
    {
      if Reaches(rs, q, selected[i]) {
        assert selected[i] in selected[..i + 1];
      }
    }
  }
}
