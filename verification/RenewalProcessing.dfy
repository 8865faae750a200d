/**
 Processing a renewal: creating or filling the future plan and copying the
 licenses of the original plan into it, as one transaction.
 */
module RenewalProcessing {
  import opened Collections
  import opened Licensing
  import opened Lifecycle
  import RenewalChains

  datatype RenewalError = TooFewLicenses | FuturePlanInUse | TooManyExistingLicenses

  datatype Outcome =
    | Raised(error: RenewalError)
    | DuplicateRenewedTo(future: PlanId, added: set<LicenseId>, originals: seq<LicenseId>, targets: seq<LicenseId>)
    | Processed(future: PlanId, added: set<LicenseId>, originals: seq<LicenseId>, targets: seq<LicenseId>)

  /** `_original_licenses_to_copy`. */
  function LicensesToCopy(ls: Licenses, rn: Renewal): set<LicenseId> {
    match rn.typesToCopy
    case Nothing => {}
    case AssignedAndActivated => set id | id in ls && ls[id].plan == rn.prior && ls[id].Active()
    case OnlyActivated => set id | id in ls && ls[id].plan == rn.prior && ls[id].status == Status.Activated
  }

  /** The licenses that the future plan already has. */
  function ExistingLicenses(ls: Licenses, rn: Renewal): set<LicenseId> {
    if rn.renewed == None then {} else OfPlan(ls, rn.renewed.value)
  }

  predicate AllUnassigned(ls: Licenses, ids: set<LicenseId>) {
    forall id :: id in ids ==> id in ls && ls[id].status == Status.Unassigned
  }

  /** The checks before the transaction, in their order. */
  function Precheck(ls: Licenses, rn: Renewal): Option<RenewalError> {
    if rn.numberOfLicenses < |LicensesToCopy(ls, rn)| then Some(TooFewLicenses)
    else if !AllUnassigned(ls, ExistingLicenses(ls, rn)) then Some(FuturePlanInUse)
    else if |ExistingLicenses(ls, rn)| > rn.numberOfLicenses then Some(TooManyExistingLicenses)
    else None
  }

  // ---- Plans --------------------------------------------------------------------

  function FuturePlan(rn: Renewal, original: Plan): Plan {
    Plan(original.agreement, rn.effectiveDate, rn.renewedExpiration, original.isActive, original.capEnabled,
         original.maxPercentage, 0, false, false, None, original.internal, false, None)
  }

  /** Auto-apply is on for `chosen`, and off for every other plan of the agreement. */
  function Toggled(plans: Plans, agreement: AgreementId, chosen: Option<PlanId>): Plans {
    map p | p in plans ::
      if chosen == Some(p) then plans[p].(autoApply := true)
      else if plans[p].agreement == agreement then plans[p].(autoApply := false)
      else plans[p]
  }

  /** `toggle_auto_apply_licenses`. */
  method ToggleAutoApply(plans: Plans, agreement: AgreementId, chosen: Option<PlanId>) returns (after: Plans)
    requires chosen.Some? ==> chosen.value in plans
    ensures after == Toggled(plans, agreement, chosen)
  {
    var rows := Query(set p | p in plans && plans[p].agreement == agreement && plans[p].autoApply);
    after := plans;
    for i := 0 to |rows|
      invariant after.Keys == plans.Keys
      invariant forall p :: p in plans ==>
                  after[p] == if p in rows[..i] then plans[p].(autoApply := false) else plans[p]
    {
      assert rows[..i + 1] == rows[..i] + [rows[i]];
      assert rows[i] in Elems(rows);
      after := after[rows[i] := after[rows[i]].(autoApply := false)];
    }
    assert rows[..|rows|] == rows;
    assert forall p :: p in rows <==> p in Elems(rows);
    if chosen.Some? {
      after := after[chosen.value := after[chosen.value].(autoApply := true)];
    }
  }

  /** After a toggle to one of its plans, an agreement auto-applies that plan and no other. */
  lemma ToggleChoosesOne(plans: Plans, agreement: AgreementId, chosen: PlanId)
    requires chosen in plans && plans[chosen].agreement == agreement
    ensures var after := Toggled(plans, agreement, Some(chosen));
            forall p :: p in after && after[p].agreement == agreement && after[p].autoApply <==> p == chosen
  {
  }

  function PlansAfter(plans: Plans, rn: Renewal, future: PlanId): Plans
    requires rn.prior in plans
  {
    var original := plans[rn.prior];
    var stored := if rn.renewed == None then plans[future := FuturePlan(rn, original)] else plans;
    if original.autoApply then
      Toggled(stored, original.agreement, if rn.disableAutoApply then None else Some(future))
    else
      stored
  }

  // ---- The outcome ----------------------------------------------------------------

  /** What a processed renewal did to licenses and plans. */
  ghost predicate RenewalDone(s: State, t: State, rn: Renewal, future: PlanId, added: set<LicenseId>,
                              originals: seq<LicenseId>, targets: seq<LicenseId>, now: Time) {
    && rn.prior in s.plans && Precheck(s.licenses, rn) == None
    && RenewsInto(s, rn, future)
    && Enumerates(originals, LicensesToCopy(s.licenses, rn))
    && |added| == rn.numberOfLicenses - |ExistingLicenses(s.licenses, rn)|
    && t.plans == PlansAfter(s.plans, rn, future)
    && Renewed(s.licenses, t.licenses, future, added, originals, targets, t.plans[future].startDate, now)
  }

  /** `renewed_to` is one-to-one. */
  ghost predicate RenewedToUnique(ls: Licenses) {
    forall a, b | a in ls && b in ls && ls[a].renewedTo.Some? ::
      ls[a].renewedTo == ls[b].renewedTo ==> a == b
  }

  /** Licenses that were renewed into the plan earlier and are not renewed now. */
  function RenewedIntoBefore(ls: Licenses, future: PlanId, copying: set<LicenseId>): set<LicenseId> {
    set id | id in ls && id !in copying && ls[id].renewedTo.Some?
             && ls[id].renewedTo.value in ls && ls[ls[id].renewedTo.value].plan == future
  }

  ghost predicate Zippable(pool: Licenses, originals: seq<LicenseId>, targets: seq<LicenseId>) {
    && |originals| <= |targets| && NoDup(originals) && NoDup(targets)
    && (forall i :: 0 <= i < |originals| ==> originals[i] in pool && originals[i] !in targets)
    && (forall i :: 0 <= i < |targets| ==> targets[i] in pool)
  }

  ghost predicate PairsCopied(pool: Licenses, after: Licenses, originals: seq<LicenseId>, targets: seq<LicenseId>,
                              n: nat, planStart: Time, now: Time)
    requires Zippable(pool, originals, targets) && n <= |originals|
  {
    && after.Keys == pool.Keys
    && (forall i :: 0 <= i < n ==> after[targets[i]] == pool[targets[i]].CopyFrom(pool[originals[i]], planStart, now))
    && (forall i :: 0 <= i < n ==> after[originals[i]] == pool[originals[i]].(renewedTo := Some(targets[i])))
  }

  ghost predicate RestKept(pool: Licenses, after: Licenses, originals: seq<LicenseId>, targets: seq<LicenseId>) {
    && after.Keys == pool.Keys
    && (forall id :: id in pool && id !in targets && id !in originals ==> after[id] == pool[id])
  }

  /** The license table after the first `n` pairs of the loop. */
  ghost predicate CopiedUpTo(pool: Licenses, after: Licenses, originals: seq<LicenseId>, targets: seq<LicenseId>,
                             n: nat, planStart: Time, now: Time)
    requires Zippable(pool, originals, targets) && n <= |originals|
  {
    && PairsCopied(pool, after, originals, targets, n, planStart, now)
    && RestKept(pool, after, originals[..n], targets[..n])
  }

  lemma ApartInZip(pool: Licenses, originals: seq<LicenseId>, targets: seq<LicenseId>, n: nat)
    requires Zippable(pool, originals, targets) && n < |originals|
    ensures targets[n] in targets && targets[n] !in originals
    ensures forall i :: 0 <= i < |originals| && i != n ==> targets[i] != targets[n] && originals[i] != originals[n]
    ensures forall i :: 0 <= i < |originals| ==> targets[i] != originals[n] && originals[i] != targets[n]
    ensures targets[n] !in targets[..n] && targets[n] !in originals[..n]
    ensures originals[n] !in targets[..n] && originals[n] !in originals[..n]
  {
    assert forall i :: 0 <= i < |originals| ==> targets[i] in targets;
  }

  lemma CopyStep(pool: Licenses, after: Licenses, originals: seq<LicenseId>, targets: seq<LicenseId>,
                 n: nat, planStart: Time, now: Time)
    requires Zippable(pool, originals, targets) && n < |originals|
    requires CopiedUpTo(pool, after, originals, targets, n, planStart, now)
    ensures after[targets[n]] == pool[targets[n]] && after[originals[n]] == pool[originals[n]]
    ensures CopiedUpTo(pool,
                       after[targets[n] := pool[targets[n]].CopyFrom(pool[originals[n]], planStart, now)]
                            [originals[n] := pool[originals[n]].(renewedTo := Some(targets[n]))],
                       originals, targets, n + 1, planStart, now)
  {
    ApartInZip(pool, originals, targets, n);
    RestKeptStep(pool, after, originals[..n], targets[..n], originals[n], targets[n],
                 pool[targets[n]].CopyFrom(pool[originals[n]], planStart, now),
                 pool[originals[n]].(renewedTo := Some(targets[n])));
    assert targets[..n + 1] == targets[..n] + [targets[n]];
    assert originals[..n + 1] == originals[..n] + [originals[n]];
  }

  lemma RestKeptStep(pool: Licenses, after: Licenses, originals: seq<LicenseId>, targets: seq<LicenseId>,
                     original: LicenseId, target: LicenseId, copy: License, linked: License)
    requires RestKept(pool, after, originals, targets) && target in pool && original in pool
    ensures RestKept(pool, after[target := copy][original := linked], originals + [original], targets + [target])
  {
    assert (targets + [target])[|targets|] == target && (originals + [original])[|originals|] == original;
    assert forall id :: id in targets ==> id in targets + [target];
    assert forall id :: id in originals ==> id in originals + [original];
  }

  /** The loop of `_renew_all_licenses` over the zipped lists. */
  method CopyLicenses(pool: Licenses, originals: seq<LicenseId>, targets: seq<LicenseId>, planStart: Time, now: Time)
    returns (after: Licenses)
    requires Zippable(pool, originals, targets)
    ensures CopiedUpTo(pool, after, originals, targets, |originals|, planStart, now)
  {
    after := pool;
    for i := 0 to |originals|
      invariant CopiedUpTo(pool, after, originals, targets, i, planStart, now)
    {
      CopyStep(pool, after, originals, targets, i, planStart, now);
      var original := after[originals[i]];
      after := after[targets[i] := after[targets[i]].CopyFrom(original, planStart, now)];
      after := after[originals[i] := original.(renewedTo := Some(targets[i]))];
    }
  }

  /** Licenses that already point at one of `targets` and are not being renewed now. */
  function Clashing(ls: Licenses, originals: set<LicenseId>, targets: set<LicenseId>): set<LicenseId> {
    set id | id in ls && id !in originals && ls[id].renewedTo.Some? && ls[id].renewedTo.value in targets
  }

  /** Originals point at their targets; the links of the others are as before, and new licenses have none. */
  ghost predicate Relinked(ls: Licenses, after: Licenses, originals: seq<LicenseId>, targets: seq<LicenseId>) {
    && |originals| == |targets|
    && (forall id :: id in after && id !in originals ==>
          after[id].renewedTo == if id in ls then ls[id].renewedTo else None)
    && (forall id :: id in originals ==>
          id in after
          && exists i :: 0 <= i < |originals| && originals[i] == id && after[id].renewedTo == Some(targets[i]))
  }

  /** An original and another license never point at the same license if nothing clashes. */
  lemma OthersPointElsewhere(ls: Licenses, after: Licenses, originals: seq<LicenseId>, targets: seq<LicenseId>,
                             a: LicenseId, b: LicenseId)
    requires Relinked(ls, after, originals, targets) && Clashing(ls, Elems(originals), Elems(targets)) == {}
    requires a in originals && b in after && b !in originals
    ensures after[a].renewedTo != after[b].renewedTo
  {
    var i :| 0 <= i < |originals| && originals[i] == a && after[a].renewedTo == Some(targets[i]);
    assert targets[i] in Elems(targets);
    assert b !in Clashing(ls, Elems(originals), Elems(targets));
  }

  lemma LinksStayApart(ls: Licenses, after: Licenses, originals: seq<LicenseId>, targets: seq<LicenseId>,
                       a: LicenseId, b: LicenseId)
    requires Relinked(ls, after, originals, targets) && NoDup(targets)
    requires RenewedToUnique(ls) && Clashing(ls, Elems(originals), Elems(targets)) == {}
    requires a in after && b in after && after[a].renewedTo.Some? && after[a].renewedTo == after[b].renewedTo
    ensures a == b
  {
    if a in originals && b in originals {
      TargetsTellApart(ls, after, originals, targets, a, b);
    } else if a in originals {
      OthersPointElsewhere(ls, after, originals, targets, a, b);
    } else if b in originals {
      OthersPointElsewhere(ls, after, originals, targets, b, a);
    }
  }

  lemma ClashRepeatsLink(ls: Licenses, after: Licenses, future: PlanId, added: set<LicenseId>,
                         originals: seq<LicenseId>, targets: seq<LicenseId>, planStart: Time, now: Time, a: LicenseId)
    requires Renewed(ls, after, future, added, originals, targets, planStart, now)
    requires a in Clashing(ls, Elems(originals), Elems(targets))
    ensures !RenewedToUnique(after)
  {
    RenewedLinks(ls, after, future, added, originals, targets, planStart, now);
    var i :| 0 <= i < |targets| && targets[i] == ls[a].renewedTo.value;
    assert originals[i] in originals && originals[i] in after && a in after;
    assert after[originals[i]].renewedTo == after[a].renewedTo && originals[i] != a;
  }

  /** The one-to-one constraint survives the copy exactly if nothing clashes. */
  lemma RenewedToUniqueIffNoClash(ls: Licenses, after: Licenses, future: PlanId, added: set<LicenseId>,
                                  originals: seq<LicenseId>, targets: seq<LicenseId>, planStart: Time, now: Time)
    requires RenewedToUnique(ls) && Renewed(ls, after, future, added, originals, targets, planStart, now)
    ensures RenewedToUnique(after) <==> Clashing(ls, Elems(originals), Elems(targets)) == {}
  {
    if Clashing(ls, Elems(originals), Elems(targets)) != {} {
      var a :| a in Clashing(ls, Elems(originals), Elems(targets));
      ClashRepeatsLink(ls, after, future, added, originals, targets, planStart, now, a);
    } else {
      RenewedLinks(ls, after, future, added, originals, targets, planStart, now);
      forall a, b | a in after && b in after && after[a].renewedTo.Some? && after[a].renewedTo == after[b].renewedTo
        ensures a == b
      {
        LinksStayApart(ls, after, originals, targets, a, b);
      }
    }
  }

  lemma RenewedLinks(ls: Licenses, after: Licenses, future: PlanId, added: set<LicenseId>,
                     originals: seq<LicenseId>, targets: seq<LicenseId>, planStart: Time, now: Time)
    requires Renewed(ls, after, future, added, originals, targets, planStart, now)
    ensures Relinked(ls, after, originals, targets)
  {
    var pool := Increased(ls, future, added);
    forall id | id in after && id !in originals
      ensures after[id].renewedTo == if id in ls then ls[id].renewedTo else None
    {
      if id in targets {
        var i :| 0 <= i < |targets| && targets[i] == id;
      }
    }
    forall id | id in originals
      ensures exists i :: 0 <= i < |originals| && originals[i] == id && after[id].renewedTo == Some(targets[i])
    {
      var i :| 0 <= i < |originals| && originals[i] == id;
    }
  }

  // ---- When the one-to-one constraint can fail -------------------------------------------

  /** New licenses to add, originals to copy, and as many licenses of the future plan to copy them into. */
  ghost predicate Chosen(ls: Licenses, rn: Renewal, future: PlanId, added: set<LicenseId>,
                         originals: seq<LicenseId>, targets: seq<LicenseId>) {
    && added !! ls.Keys && |added| == rn.numberOfLicenses - |ExistingLicenses(ls, rn)|
    && Enumerates(originals, LicensesToCopy(ls, rn))
    && |targets| == |originals| && NoDup(targets)
    && Elems(targets) <= OfPlan(Increased(ls, future, added), future)
  }

  /** This choice would make two licenses point at one. */
  ghost predicate Clashes(ls: Licenses, rn: Renewal, future: PlanId, added: set<LicenseId>,
                          originals: seq<LicenseId>, targets: seq<LicenseId>) {
    Chosen(ls, rn, future, added, originals, targets) && Clashing(ls, Elems(originals), Elems(targets)) != {}
  }

  /** Licenses of the future plan that others, not renewed now, already point at. */
  ghost function Claimed(ls: Licenses, future: PlanId, copying: set<LicenseId>): set<LicenseId> {
    set target | target in OfPlan(ls, future) && PointedAt(ls, copying, target)
  }

  ghost predicate PointedAt(ls: Licenses, copying: set<LicenseId>, target: LicenseId) {
    exists id :: id in ls && id !in copying && ls[id].renewedTo == Some(target)
  }

  /** A choice clashes exactly if it takes a claimed license. */
  lemma ClashesIffClaimed(s: State, rn: Renewal, future: PlanId, added: set<LicenseId>,
                          originals: seq<LicenseId>, targets: seq<LicenseId>)
    requires LinksStored(s.licenses) && Chosen(s.licenses, rn, future, added, originals, targets)
    ensures Clashes(s.licenses, rn, future, added, originals, targets) <==>
            Elems(targets) * Claimed(s.licenses, future, LicensesToCopy(s.licenses, rn)) != {}
  {
    var ls, copying := s.licenses, LicensesToCopy(s.licenses, rn);
    if Clashing(ls, copying, Elems(targets)) != {} {
      var id :| id in Clashing(ls, copying, Elems(targets));
      assert PointedAt(ls, copying, ls[id].renewedTo.value);
      assert ls[id].renewedTo.value in Elems(targets) * Claimed(ls, future, copying);
    }
    if Elems(targets) * Claimed(ls, future, copying) != {} {
      var target :| target in Elems(targets) * Claimed(ls, future, copying);
      var id :| id in ls && id !in copying && ls[id].renewedTo == Some(target);
      assert id in Clashing(ls, copying, Elems(targets));
    }
  }

  lemma {:induction false} FreshKeys(taken: set<nat>, n: nat) returns (added: set<nat>)
    ensures added !! taken && |added| == n
  {
    if n == 0 {
      added := {};
    } else {
      var fewer := FreshKeys(taken, n - 1);
      var bound := UpperBound(taken + fewer);
      added := fewer + {bound};
    }
  }

  lemma {:induction false} UpperBound(s: set<nat>) returns (bound: nat)
    ensures forall x :: x in s ==> x < bound
    decreases |s|
  {
    if s == {} {
      bound := 0;
    } else {
      var x :| x in s;
      var rest := UpperBound(s - {x});
      assert forall y :: y in s ==> y == x || y in s - {x};
      bound := if x < rest then rest else x + 1;
    }
  }

  /** Any preferred licenses of the topped-up plan can be the ones chosen, as far as they are needed. */
  lemma SomeChoice(s: State, rn: Renewal, future: PlanId, added: set<LicenseId>, preferred: seq<LicenseId>)
    returns (originals: seq<LicenseId>, targets: seq<LicenseId>)
    requires Precheck(s.licenses, rn) == None && RenewsInto(s, rn, future)
    requires added !! s.licenses.Keys && |added| == rn.numberOfLicenses - |ExistingLicenses(s.licenses, rn)|
    requires NoDup(preferred) && Elems(preferred) <= OfPlan(Increased(s.licenses, future, added), future)
    ensures Chosen(s.licenses, rn, future, added, originals, targets)
    ensures |originals| == |LicensesToCopy(s.licenses, rn)|
    ensures |originals| <= |preferred| ==> targets == preferred[..|originals|]
    ensures |preferred| <= |originals| ==> Elems(preferred) <= Elems(targets)
  {
    var pool := OfPlan(Increased(s.licenses, future, added), future);
    PoolSize(s.licenses, future, added);
    originals := InKeyOrder(LicensesToCopy(s.licenses, rn));
    AscendingEnumerates(originals);
    var others := InKeyOrder(pool - Elems(preferred));
    AscendingEnumerates(others);
    NoDupSize(preferred);
    assert forall x :: x in preferred ==> x in Elems(preferred);
    assert forall x :: x in others ==> x in Elems(others);
    NoDupConcat(preferred, others);
    var rows := preferred + others;
    targets := rows[..|originals|];
    assert Elems(targets) <= pool by {
      assert forall x :: x in targets ==> x in preferred || x in others;
    }
    if |preferred| <= |originals| {
      assert forall i :: 0 <= i < |preferred| ==> targets[i] == preferred[i];
    }
  }

  ghost predicate SomeChoiceClashes(ls: Licenses, rn: Renewal, future: PlanId) {
    exists added: set<LicenseId>, originals: seq<LicenseId>, targets: seq<LicenseId> ::
      Clashes(ls, rn, future, added, originals, targets)
  }

  ghost predicate EveryChoiceClashes(ls: Licenses, rn: Renewal, future: PlanId) {
    forall added: set<LicenseId>, originals: seq<LicenseId>, targets: seq<LicenseId> ::
      Chosen(ls, rn, future, added, originals, targets) ==> Clashes(ls, rn, future, added, originals, targets)
  }

  /** Fewer licenses of the topped-up plan are unclaimed than there are to copy. */
  ghost predicate TooFewUnclaimed(ls: Licenses, rn: Renewal, future: PlanId) {
    rn.numberOfLicenses - |Claimed(ls, future, LicensesToCopy(ls, rn))| < |LicensesToCopy(ls, rn)|
  }

  lemma ClashNeedsEarlierLink(s: State, rn: Renewal, future: PlanId)
    requires RenewsInto(s, rn, future) && LinksStored(s.licenses) && SomeChoiceClashes(s.licenses, rn, future)
    ensures LicensesToCopy(s.licenses, rn) != {}
    ensures RenewedIntoBefore(s.licenses, future, LicensesToCopy(s.licenses, rn)) != {}
  {
    var ls, copying := s.licenses, LicensesToCopy(s.licenses, rn);
    var added: set<LicenseId>, originals: seq<LicenseId>, targets: seq<LicenseId> :|
      Clashes(ls, rn, future, added, originals, targets);
    ClashesIffClaimed(s, rn, future, added, originals, targets);
    var target :| target in Elems(targets) * Claimed(ls, future, copying);
    var id :| id in ls && id !in copying && ls[id].renewedTo == Some(target);
    assert id in RenewedIntoBefore(ls, future, copying);
    assert originals[0] in Elems(originals);
  }

  lemma EarlierLinkCanClash(s: State, rn: Renewal, future: PlanId)
    requires Precheck(s.licenses, rn) == None && RenewsInto(s, rn, future) && LinksStored(s.licenses)
    requires LicensesToCopy(s.licenses, rn) != {}
    requires RenewedIntoBefore(s.licenses, future, LicensesToCopy(s.licenses, rn)) != {}
    ensures SomeChoiceClashes(s.licenses, rn, future)
  {
    var ls, copying := s.licenses, LicensesToCopy(s.licenses, rn);
    var id :| id in RenewedIntoBefore(ls, future, copying);
    var target := ls[id].renewedTo.value;
    assert PointedAt(ls, copying, target);
    var added := FreshKeys(ls.Keys, rn.numberOfLicenses - |ExistingLicenses(ls, rn)|);
    PoolSize(ls, future, added);
    var originals, targets := SomeChoice(s, rn, future, added, [target]);
    assert target in Elems([target]);
    assert target in Elems(targets) * Claimed(ls, future, copying);
    ClashesIffClaimed(s, rn, future, added, originals, targets);
  }

  /** Some choice clashes exactly if there is something to copy and a license renewed into the plan before. */
  lemma ClashPossibleIff(s: State, rn: Renewal, future: PlanId)
    requires Precheck(s.licenses, rn) == None && RenewsInto(s, rn, future) && LinksStored(s.licenses)
    ensures SomeChoiceClashes(s.licenses, rn, future) <==>
            LicensesToCopy(s.licenses, rn) != {}
            && RenewedIntoBefore(s.licenses, future, LicensesToCopy(s.licenses, rn)) != {}
  {
    if SomeChoiceClashes(s.licenses, rn, future) {
      ClashNeedsEarlierLink(s, rn, future);
    }
    if LicensesToCopy(s.licenses, rn) != {}
       && RenewedIntoBefore(s.licenses, future, LicensesToCopy(s.licenses, rn)) != {} {
      EarlierLinkCanClash(s, rn, future);
    }
  }

  /** Every choice clashes exactly if too few licenses of the future plan are unclaimed. */
  lemma ClashCertainIff(s: State, rn: Renewal, future: PlanId)
    requires Precheck(s.licenses, rn) == None && RenewsInto(s, rn, future) && LinksStored(s.licenses)
    ensures EveryChoiceClashes(s.licenses, rn, future) <==> TooFewUnclaimed(s.licenses, rn, future)
  {
    var ls, copying := s.licenses, LicensesToCopy(s.licenses, rn);
    var claimed := Claimed(ls, future, copying);
    if TooFewUnclaimed(ls, rn, future) {
      forall added: set<LicenseId>, originals: seq<LicenseId>, targets: seq<LicenseId>
        | Chosen(ls, rn, future, added, originals, targets)
        ensures Clashes(ls, rn, future, added, originals, targets)
      {
        MustTakeClaimed(s, rn, future, added, originals, targets);
      }
    } else {
      var added := FreshKeys(ls.Keys, rn.numberOfLicenses - |ExistingLicenses(ls, rn)|);
      PoolSize(ls, future, added);
      var unclaimed := OfPlan(Increased(ls, future, added), future) - claimed;
      assert |unclaimed| == rn.numberOfLicenses - |claimed|;
      AscendingEnumerates(InKeyOrder(unclaimed));
      var originals, targets := SomeChoice(s, rn, future, added, InKeyOrder(unclaimed));
      assert forall x :: x in targets ==> x in InKeyOrder(unclaimed) && x in Elems(InKeyOrder(unclaimed));
      ClashesIffClaimed(s, rn, future, added, originals, targets);
    }
  }

  lemma MustTakeClaimed(s: State, rn: Renewal, future: PlanId, added: set<LicenseId>,
                        originals: seq<LicenseId>, targets: seq<LicenseId>)
    requires RenewsInto(s, rn, future) && LinksStored(s.licenses)
    requires Chosen(s.licenses, rn, future, added, originals, targets)
    requires TooFewUnclaimed(s.licenses, rn, future)
    ensures Clashes(s.licenses, rn, future, added, originals, targets)
  {
    var claimed := Claimed(s.licenses, future, LicensesToCopy(s.licenses, rn));
    var pool := OfPlan(Increased(s.licenses, future, added), future);
    PoolSize(s.licenses, future, added);
    ClashesIffClaimed(s, rn, future, added, originals, targets);
    NoDupSize(targets);
    NoDupSize(originals);
    assert |pool - claimed| == |pool| - |claimed|;
    if Elems(targets) * claimed == {} {
      SubsetSize(Elems(targets), pool - claimed);
    }
  }

  /** With too few unclaimed licenses, `renewed_to` repeats however the renewal is carried out. */
  lemma CertainClashRepeats(s: State, rn: Renewal, future: PlanId)
    requires Precheck(s.licenses, rn) == None && RenewsInto(s, rn, future)
    requires LinksStored(s.licenses) && RenewedToUnique(s.licenses)
    requires TooFewUnclaimed(s.licenses, rn, future)
    ensures forall added: set<LicenseId>, originals: seq<LicenseId>, targets: seq<LicenseId>, after, planStart, now ::
              Chosen(s.licenses, rn, future, added, originals, targets)
              && Renewed(s.licenses, after, future, added, originals, targets, planStart, now)
              ==> !RenewedToUnique(after)
  {
    forall added: set<LicenseId>, originals: seq<LicenseId>, targets: seq<LicenseId>, after, planStart, now
      | Chosen(s.licenses, rn, future, added, originals, targets)
        && Renewed(s.licenses, after, future, added, originals, targets, planStart, now)
      ensures !RenewedToUnique(after)
    {
      MustTakeClaimed(s, rn, future, added, originals, targets);
      RenewedToUniqueIffNoClash(s.licenses, after, future, added, originals, targets, planStart, now);
    }
  }

  lemma ClaimedTable() returns (ls: Licenses)
    ensures ls.Keys == {0, 1, 2} && ls[0].plan == ls[1].plan == 0 && ls[2].plan == 1
    ensures ls[0].status == Status.Revoked && ls[1].status == Status.Assigned && ls[2].status == Status.Unassigned
    ensures ls[0].renewedTo == Some(2) && ls[1].renewedTo == ls[2].renewedTo == None
  {
    ls := map[0 := NewLicense(0).(status := Status.Revoked, renewedTo := Some(2)),
              1 := NewLicense(0).(status := Status.Assigned, email := Some("a"), assignedDate := Some(0)),
              2 := NewLicense(1)];
  }

  /** One license to copy, and the only license of the future plan is claimed by a revoked one. */
  lemma RenewalCanBeForcedToClash() returns (s: State, rn: Renewal)
    ensures Unique(s.licenses) && LinksStored(s.licenses) && RenewedToUnique(s.licenses)
    ensures Precheck(s.licenses, rn) == None && RenewsInto(s, rn, 1)
    ensures TooFewUnclaimed(s.licenses, rn, 1)
  {
    var plan := Plan(0, 0, 0, true, false, 0, 0, false, false, None, false, false, None);
    var ls := ClaimedTable();
    s := State(ls, map[0 := plan, 1 := plan]);
    rn := Renewal(0, Some(1), 1, AssignedAndActivated, false, 0, 0, false, None);
    assert LicensesToCopy(ls, rn) == {1} && OfPlan(ls, 1) == {2};
    assert 0 in ls && ls[0].renewedTo == Some(2);
    assert PointedAt(ls, {1}, 2);
    assert Claimed(ls, 1, {1}) == {2};
  }

  // ---- Processing ---------------------------------------------------------------------

  /** The copy happens inside the future plan and leaves the originals' plan alone. */
  lemma CopyIsRenewed(ls: Licenses, after: Licenses, future: PlanId, added: set<LicenseId>,
                      originals: seq<LicenseId>, targets: seq<LicenseId>, planStart: Time, now: Time)
    requires |originals| == |targets| && added !! ls.Keys
    requires Zippable(Increased(ls, future, added), originals, targets)
    requires forall i :: 0 <= i < |originals| ==> originals[i] in ls
    requires forall i :: 0 <= i < |targets| ==> targets[i] in OfPlan(Increased(ls, future, added), future)
    requires CopiedUpTo(Increased(ls, future, added), after, originals, targets, |originals|, planStart, now)
    ensures Renewed(ls, after, future, added, originals, targets, planStart, now)
  {
    assert targets[..|originals|] == targets && originals[..|originals|] == originals;
  }

  lemma PoolSize(ls: Licenses, future: PlanId, added: set<LicenseId>)
    requires added !! ls.Keys
    ensures OfPlan(Increased(ls, future, added), future) == OfPlan(ls, future) + added
    ensures |OfPlan(Increased(ls, future, added), future)| == |OfPlan(ls, future)| + |added|
  {
    assert OfPlan(Increased(ls, future, added), future) == OfPlan(ls, future) + added;
  }

  lemma UnassignedAreUsable(ls: Licenses, plan: PlanId)
    requires AllUnassigned(ls, OfPlan(ls, plan))
    ensures UsableIn(ls, plan) == OfPlan(ls, plan)
  {
  }

  lemma CopiedAreNotTargets(ls: Licenses, rn: Renewal, future: PlanId, added: set<LicenseId>, id: LicenseId)
    requires AllUnassigned(ls, OfPlan(ls, future)) && added !! ls.Keys && id in LicensesToCopy(ls, rn)
    ensures id in ls && ls[id].Active() && ls[id].plan == rn.prior
    ensures id !in OfPlan(Increased(ls, future, added), future)
  {
  }

  /** A license that the renewal has to carry over, by its status and what the renewal asks for. */
  ghost predicate HasToMove(rn: Renewal, row: License) {
    row.plan == rn.prior
    && match row.status
       case Activated => rn.typesToCopy != Nothing
       case Assigned => rn.typesToCopy == AssignedAndActivated
       case _ => false
  }

  /** The error that a renewal has to raise, told by the rows. */
  ghost function MustRaise(ls: Licenses, rn: Renewal): Option<RenewalError> {
    var moving := set id | id in ls && HasToMove(rn, ls[id]);
    var existing := set id | id in ls && rn.renewed == Some(ls[id].plan);
    if |moving| > rn.numberOfLicenses then Some(TooFewLicenses)
    else if exists id :: id in existing && ls[id].status != Status.Unassigned then Some(FuturePlanInUse)
    else if |existing| > rn.numberOfLicenses then Some(TooManyExistingLicenses)
    else None
  }

  lemma PrecheckByStatus(ls: Licenses, rn: Renewal)
    ensures Precheck(ls, rn) == MustRaise(ls, rn)
  {
    assert LicensesToCopy(ls, rn) == set id | id in ls && HasToMove(rn, ls[id]);
    assert ExistingLicenses(ls, rn) == set id | id in ls && rn.renewed == Some(ls[id].plan);
  }

  /** `renew_subscription`. */
  method RenewSubscription(db: Database, id: RenewalId, now: Time) returns (r: Outcome)
    requires id in db.renewals && db.ForeignKeys()
    modifies db`licenses, db`plans, db`renewals
    ensures r.Raised? <==> Precheck(old(db.licenses), old(db.renewals[id])).Some?
    ensures r.Raised? ==> Precheck(old(db.licenses), old(db.renewals[id])) == Some(r.error)
    ensures r.Raised? <==> MustRaise(old(db.licenses), old(db.renewals[id])).Some?
    ensures r.Raised? ==> MustRaise(old(db.licenses), old(db.renewals[id])) == Some(r.error)
    ensures r.Raised? ==> db.Snapshot() == old(db.Snapshot()) && db.renewals == old(db.renewals)
    ensures !r.Raised? ==>
              Transacted(old(db.Snapshot()), db.Snapshot(), old(db.renewals), db.renewals, id, r, now)
  {
    var rn := db.renewals[id];
    PrecheckByStatus(db.licenses, rn);
    var originals := Query(LicensesToCopy(db.licenses, rn));
    if rn.numberOfLicenses < |originals| {
      return Raised(TooFewLicenses);
    }
    var future := FutureKey(db, rn);
    var existing := Query(ExistingLicenses(db.licenses, rn));
    if !AllUnassigned(db.licenses, ExistingLicenses(db.licenses, rn)) {
      return Raised(FuturePlanInUse);
    }
    if |existing| > rn.numberOfLicenses {
      return Raised(TooManyExistingLicenses);
    }
    r := Transact(db, id, future, originals, now);
  }

  /** How a renewal that passed the checks ends: processed, or rolled back by the one-to-one constraint. */
  ghost predicate Transacted(s: State, t: State, renewals: Renewals, after: Renewals, id: RenewalId, r: Outcome,
                             now: Time) {
    && id in renewals
    && var rn := renewals[id];
    match r
    case Raised(_) => false
    case DuplicateRenewedTo(future, added, originals, targets) =>
      && t == s && after == renewals && rn.renewed.Some? && RenewsInto(s, rn, future)
      && RenewedIntoBefore(s.licenses, rn.renewed.value, LicensesToCopy(s.licenses, rn)) != {}
      && Chosen(s.licenses, rn, future, added, originals, targets)
      && Clashing(s.licenses, Elems(originals), Elems(targets)) != {}
    case Processed(future, added, originals, targets) =>
      && RenewalDone(s, t, rn, future, added, originals, targets, now)
      && Clashing(s.licenses, Elems(originals), Elems(targets)) == {}
      && after == renewals[id := rn.(renewed := Some(future), processed := true, processedDate := Some(now))]
  }

  lemma CommitIsTransacted(s: State, renewals: Renewals, id: RenewalId, future: PlanId, added: set<LicenseId>,
                           originals: seq<LicenseId>, targets: seq<LicenseId>, after: Licenses, plans: Plans, now: Time)
    requires id in renewals && renewals[id].prior in s.plans && Precheck(s.licenses, renewals[id]) == None
    requires RenewsInto(s, renewals[id], future) && Enumerates(originals, LicensesToCopy(s.licenses, renewals[id]))
    requires |added| == renewals[id].numberOfLicenses - NumLicenses(s.licenses, future)
    requires plans == PlansAfter(s.plans, renewals[id], future) && future in plans
    requires Renewed(s.licenses, after, future, added, originals, targets, plans[future].startDate, now)
    requires Clashing(s.licenses, Elems(originals), Elems(targets)) == {}
    ensures var done := renewals[id].(renewed := Some(future), processed := true, processedDate := Some(now));
            Transacted(s, State(after, plans), renewals, renewals[id := done], id,
                       Processed(future, added, originals, targets), now)
  {
    UnassignedAreUsable(s.licenses, future);
  }

  /** The transaction: nothing is stored until the constraint on `renewed_to` holds. */
  method Transact(db: Database, id: RenewalId, future: PlanId, originals: seq<LicenseId>,
                  now: Time) returns (r: Outcome)
    requires id in db.renewals && LinksStored(db.licenses)
    requires var rn := db.renewals[id];
             && rn.prior in db.plans && Precheck(db.licenses, rn) == None
             && Enumerates(originals, LicensesToCopy(db.licenses, rn)) && |originals| <= rn.numberOfLicenses
             && RenewsInto(db.Snapshot(), rn, future)
    modifies db`licenses, db`plans, db`renewals
    ensures Transacted(old(db.Snapshot()), db.Snapshot(), old(db.renewals), db.renewals, id, r, now)
  {
    var rn, ls := db.renewals[id], db.licenses;
    UnassignedAreUsable(ls, future);
    var plans := StorePlans(db.plans, rn, future);
    var added, targets, after := PrepareCopy(ls, rn, future, originals, plans[future].startDate, now);
    var copied, taken := set x | x in originals, set x | x in targets;
    assert copied == Elems(originals) && taken == Elems(targets);
    if Clashing(ls, copied, taken) != {} {
      ClashMeansRenewedBefore(ls, rn, future, added, copied, taken);
      return DuplicateRenewedTo(future, added, originals, targets);
    }
    CommitIsTransacted(db.Snapshot(), db.renewals, id, future, added, originals, targets, after, plans, now);
    db.licenses, db.plans := after, plans;
    db.renewals := db.renewals[id := rn.(renewed := Some(future), processed := true, processedDate := Some(now))];
    r := Processed(future, added, originals, targets);
  }

  /** Tops the future plan up and copies the originals into its first licenses, in query order. */
  method PrepareCopy(ls: Licenses, rn: Renewal, future: PlanId, originals: seq<LicenseId>, planStart: Time, now: Time)
    returns (added: set<LicenseId>, targets: seq<LicenseId>, after: Licenses)
    requires AllUnassigned(ls, OfPlan(ls, future))
    requires Enumerates(originals, LicensesToCopy(ls, rn))
    requires |originals| <= rn.numberOfLicenses && NumLicenses(ls, future) <= rn.numberOfLicenses
    ensures |added| == rn.numberOfLicenses - NumLicenses(ls, future)
    ensures Renewed(ls, after, future, added, originals, targets, planStart, now)
    ensures added !! ls.Keys && |targets| == |originals| && NoDup(targets)
    ensures Elems(targets) <= OfPlan(Increased(ls, future, added), future)
  {
    UnassignedAreUsable(ls, future);
    added := NewKeys(ls.Keys, rn.numberOfLicenses - NumLicenses(ls, future));
    var pool := Increased(ls, future, added);
    PoolSize(ls, future, added);
    var rows := Query(OfPlan(pool, future));
    targets := rows[..|originals|];
    AboutToCopy(ls, rn, future, added, originals, rows, targets);
    after := CopyLicenses(pool, originals, targets, planStart, now);
    CopyIsRenewed(ls, after, future, added, originals, targets, planStart, now);
  }

  ghost predicate RenewsInto(s: State, rn: Renewal, future: PlanId) {
    && ExistingLicenses(s.licenses, rn) == OfPlan(s.licenses, future)
    && if rn.renewed.Some? then future == rn.renewed.value && future in s.plans
       else future !in s.plans && OfPlan(s.licenses, future) == {}
  }

  /** The plan to renew into: the one on record, or a new key. */
  method FutureKey(db: Database, rn: Renewal) returns (future: PlanId)
    requires db.ForeignKeys() && rn in db.renewals.Values
    ensures rn.prior in db.plans && RenewsInto(db.Snapshot(), rn, future)
  {
    if rn.renewed.Some? {
      future := rn.renewed.value;
    } else {
      var keys := NewKeys(db.plans.Keys, 1);
      assert keys != {};
      future :| future in keys;
      assert OfPlan(db.licenses, future) == {};
    }
  }

  /** Saves the future plan and moves the auto-apply setting to it. */
  method StorePlans(plans: Plans, rn: Renewal, future: PlanId) returns (after: Plans)
    requires rn.prior in plans && (rn.renewed.Some? ==> future in plans)
    ensures after == PlansAfter(plans, rn, future)
    ensures future in after
  {
    var original := plans[rn.prior];
    after := if rn.renewed == None then plans[future := FuturePlan(rn, original)] else plans;
    if original.autoApply {
      after := ToggleAutoApply(after, original.agreement, if rn.disableAutoApply then None else Some(future));
    }
  }

  lemma AboutToCopy(ls: Licenses, rn: Renewal, future: PlanId, added: set<LicenseId>,
                    originals: seq<LicenseId>, rows: seq<LicenseId>, targets: seq<LicenseId>)
    requires AllUnassigned(ls, OfPlan(ls, future)) && added !! ls.Keys
    requires Enumerates(originals, LicensesToCopy(ls, rn))
    requires Enumerates(rows, OfPlan(Increased(ls, future, added), future))
    requires |originals| <= |rows| && targets == rows[..|originals|]
    ensures NoDup(targets)
    ensures forall i :: 0 <= i < |targets| ==> targets[i] in OfPlan(Increased(ls, future, added), future)
    ensures forall i :: 0 <= i < |originals| ==> originals[i] in ls && originals[i] !in targets
  {
    forall i | 0 <= i < |targets|
      ensures targets[i] in OfPlan(Increased(ls, future, added), future)
    {
      assert rows[i] in Elems(rows);
    }
    forall i | 0 <= i < |originals|
      ensures originals[i] in ls && originals[i] !in targets
    {
      assert originals[i] in Elems(originals);
      CopiedAreNotTargets(ls, rn, future, added, originals[i]);
    }
  }

  lemma ClashMeansRenewedBefore(ls: Licenses, rn: Renewal, future: PlanId, added: set<LicenseId>,
                                copied: set<LicenseId>, taken: set<LicenseId>)
    requires copied == LicensesToCopy(ls, rn) && ExistingLicenses(ls, rn) == OfPlan(ls, future)
    requires if rn.renewed.Some? then future == rn.renewed.value else OfPlan(ls, future) == {}
    requires taken <= OfPlan(Increased(ls, future, added), future) && added !! ls.Keys
    requires LinksStored(ls) && Clashing(ls, copied, taken) != {}
    ensures rn.renewed.Some? && RenewedIntoBefore(ls, rn.renewed.value, copied) != {}
  {
    var id :| id in Clashing(ls, copied, taken);
    assert ls[id].renewedTo.value in OfPlan(ls, future);
    assert id in RenewedIntoBefore(ls, future, copied);
  }

  // ---- What a renewal guarantees ----------------------------------------------------------

  /** Renewal records stay one-to-one and acyclic, whichever way a renewal ends. */
  lemma RenewalKeepsGraph(s: State, t: State, renewals: Renewals, after: Renewals, id: RenewalId, r: Outcome, now: Time)
    requires Transacted(s, t, renewals, after, id, r, now) && RenewalsStored(renewals, s.plans)
    requires RenewalChains.OneToOne(renewals) && RenewalChains.Acyclic(renewals)
    ensures RenewalChains.OneToOne(after) && RenewalChains.Acyclic(after)
  {
    if r.Processed? {
      if renewals[id].renewed == None {
        RenewalChains.FreshPlanKeepsGraph(renewals, id, r.future, Some(now));
      } else {
        RenewalChains.SameLinksSameGraph(renewals, after);
      }
    }
  }

  lemma PlansAfterKeepsCaps(plans: Plans, rn: Renewal, future: PlanId)
    requires rn.prior in plans && (if rn.renewed.Some? then future in plans else future !in plans)
    ensures future in PlansAfter(plans, rn, future) && SameCaps(plans, PlansAfter(plans, rn, future))
  {
  }

  lemma CopiedRows(ls: Licenses, rn: Renewal, originals: seq<LicenseId>)
    requires Enumerates(originals, LicensesToCopy(ls, rn))
    ensures forall id :: id in originals <==> id in LicensesToCopy(ls, rn)
    ensures forall id :: id in originals ==> id in ls && ls[id].plan == rn.prior && ls[id].Active()
  {
    assert forall id :: id in originals <==> id in Elems(originals);
  }

  /** A processed renewal is one step of the lifecycle. */
  lemma RenewalIsStep(s: State, t: State, rn: Renewal, future: PlanId, added: set<LicenseId>,
                      originals: seq<LicenseId>, targets: seq<LicenseId>, now: Time)
    requires RenewalDone(s, t, rn, future, added, originals, targets, now)
    ensures Step(s, Renew(rn.prior, future, added, originals, targets, now), t)
  {
    PlansAfterKeepsCaps(s.plans, rn, future);
    CopiedRows(s.licenses, rn, originals);
  }

  /** The learner data that a renewal carries over. */
  ghost predicate SameHolder(a: License, b: License) {
    a.status == b.status && a.email == b.email && a.lmsUser == b.lmsUser && a.activationKey == b.activationKey
  }

  /** `id` is linked to a license of the future plan that names the same learner, and is otherwise as before. */
  ghost predicate CarriedOver(ls: Licenses, after: Licenses, future: PlanId, id: LicenseId) {
    && id in ls && id in after && after[id].renewedTo.Some?
    && after[id] == ls[id].(renewedTo := after[id].renewedTo)
    && after[id].renewedTo.value in OfPlan(after, future)
    && SameHolder(after[after[id].renewedTo.value], ls[id])
  }

  lemma PairsCarriedOver(ls: Licenses, after: Licenses, future: PlanId, added: set<LicenseId>,
                         originals: seq<LicenseId>, targets: seq<LicenseId>, planStart: Time, now: Time, i: nat)
    requires Renewed(ls, after, future, added, originals, targets, planStart, now) && i < |originals|
    ensures CarriedOver(ls, after, future, originals[i]) && after[originals[i]].renewedTo == Some(targets[i])
  {
    assert targets[i] in OfPlan(Increased(ls, future, added), future);
  }

  lemma OthersUntouched(ls: Licenses, after: Licenses, future: PlanId, added: set<LicenseId>,
                        originals: seq<LicenseId>, targets: seq<LicenseId>, planStart: Time, now: Time)
    requires Renewed(ls, after, future, added, originals, targets, planStart, now)
    ensures forall id :: id in ls && ls[id].plan != future && id !in originals ==> id in after && after[id] == ls[id]
  {
    forall id | id in targets
      ensures id in OfPlan(Increased(ls, future, added), future)
    {
      var i :| 0 <= i < |targets| && targets[i] == id;
    }
  }

  /**
   Every copied original is linked to a license of its own in the future plan, which names the
   same learner; originals change in nothing else, and licenses of other plans not at all.
   */
  lemma RenewalLosesNobody(s: State, t: State, rn: Renewal, future: PlanId, added: set<LicenseId>,
                           originals: seq<LicenseId>, targets: seq<LicenseId>, now: Time)
    requires RenewalDone(s, t, rn, future, added, originals, targets, now)
    ensures forall id :: id in LicensesToCopy(s.licenses, rn) ==> CarriedOver(s.licenses, t.licenses, future, id)
    ensures forall a, b | a in LicensesToCopy(s.licenses, rn) && b in LicensesToCopy(s.licenses, rn) ::
              t.licenses[a].renewedTo == t.licenses[b].renewedTo ==> a == b
    ensures forall id :: id in s.licenses && s.licenses[id].plan != future && id !in LicensesToCopy(s.licenses, rn) ==>
              id in t.licenses && t.licenses[id] == s.licenses[id]
  {
    CopiedRows(s.licenses, rn, originals);
    PairsAreApart(s.licenses, t.licenses, future, added, originals, targets, t.plans[future].startDate, now);
    OthersUntouched(s.licenses, t.licenses, future, added, originals, targets, t.plans[future].startDate, now);
  }

  /** A license of the future plan, as it stands for `row`. */
  ghost predicate StandsFor(copy: License, row: License, future: PlanId, planStart: Time, now: Time) {
    && copy.plan == future && copy.status == row.status && copy.email == row.email
    && copy.lmsUser == row.lmsUser && copy.activationKey == row.activationKey && copy.assignedDate == Some(now)
    && (row.status == Status.Activated ==> copy.activationDate == Some(planStart))
  }

  /** Who is carried over is told by status alone; every other license of the prior plan stays as it was. */
  lemma RenewalServesByStatus(s: State, t: State, rn: Renewal, future: PlanId, added: set<LicenseId>,
                              originals: seq<LicenseId>, targets: seq<LicenseId>, now: Time, id: LicenseId)
    requires RenewalDone(s, t, rn, future, added, originals, targets, now)
    requires id in s.licenses && s.licenses[id].plan == rn.prior
    ensures id in t.licenses
    ensures HasToMove(rn, s.licenses[id]) ==>
              && t.licenses[id].renewedTo.Some? && t.licenses[id].renewedTo.value in t.licenses
              && StandsFor(t.licenses[t.licenses[id].renewedTo.value], s.licenses[id], future,
                           t.plans[future].startDate, now)
              && t.licenses[id] == s.licenses[id].(renewedTo := t.licenses[id].renewedTo)
    ensures !HasToMove(rn, s.licenses[id]) && rn.prior != future ==> t.licenses[id] == s.licenses[id]
  {
    CopiedRows(s.licenses, rn, originals);
    if HasToMove(rn, s.licenses[id]) {
      assert id in LicensesToCopy(s.licenses, rn);
      var i :| 0 <= i < |originals| && originals[i] == id;
      assert targets[i] in OfPlan(Increased(s.licenses, future, added), future);
    } else if rn.prior != future {
      assert id !in LicensesToCopy(s.licenses, rn);
      OthersUntouched(s.licenses, t.licenses, future, added, originals, targets, t.plans[future].startDate, now);
    }
  }

  /** A plan that a renewal creates follows the record and the prior plan. */
  ghost predicate Inherits(plan: Plan, rn: Renewal, prior: Plan) {
    && plan.agreement == prior.agreement && plan.isActive == prior.isActive
    && plan.internal == prior.internal && plan.capEnabled == prior.capEnabled
    && plan.maxPercentage == prior.maxPercentage && plan.revocationsApplied == 0
    && plan.startDate == rn.effectiveDate && plan.expirationDate == rn.renewedExpiration
    && plan.desired == None && plan.lastFreeze == None && !plan.expirationProcessed && !plan.canFreeze
  }

  lemma ToggledFields(plans: Plans, agreement: AgreementId, chosen: Option<PlanId>)
    ensures Toggled(plans, agreement, chosen).Keys == plans.Keys
    ensures forall p :: p in plans ==>
              Toggled(plans, agreement, chosen)[p]
              == plans[p].(autoApply := Toggled(plans, agreement, chosen)[p].autoApply)
  {
  }

  /** Plans change in nothing but auto-apply, and a plan that the renewal creates inherits. */
  lemma RenewalOfPlans(plans: Plans, rn: Renewal, future: PlanId)
    requires rn.prior in plans && (if rn.renewed.Some? then future in plans else future !in plans)
    ensures var after := PlansAfter(plans, rn, future);
            && after.Keys == plans.Keys + {future}
            && (forall p :: p in plans ==> after[p] == plans[p].(autoApply := after[p].autoApply))
            && (rn.renewed == None ==> Inherits(after[future], rn, plans[rn.prior]))
  {
    var original := plans[rn.prior];
    var stored := if rn.renewed == None then plans[future := FuturePlan(rn, original)] else plans;
    ToggledFields(stored, original.agreement, if rn.disableAutoApply then None else Some(future));
    PlansStored(plans, rn, future);
  }

  lemma PlansStored(plans: Plans, rn: Renewal, future: PlanId)
    requires rn.prior in plans && (if rn.renewed.Some? then future in plans else future !in plans)
    ensures var stored := if rn.renewed == None then plans[future := FuturePlan(rn, plans[rn.prior])] else plans;
            && stored.Keys == plans.Keys + {future}
            && (forall p :: p in plans ==> stored[p] == plans[p])
            && (rn.renewed == None ==> Inherits(stored[future], rn, plans[rn.prior]))
  {
  }

  /** If the prior plan was auto-applied, its agreement now auto-applies the future plan only, or none on request. */
  lemma RenewalMovesAutoApply(s: State, t: State, rn: Renewal, future: PlanId, added: set<LicenseId>,
                              originals: seq<LicenseId>, targets: seq<LicenseId>, now: Time, p: PlanId)
    requires RenewalDone(s, t, rn, future, added, originals, targets, now) && p in t.plans
    ensures s.plans[rn.prior].autoApply && t.plans[p].agreement == s.plans[rn.prior].agreement ==>
              (t.plans[p].autoApply <==> p == future && !rn.disableAutoApply)
    ensures !s.plans[rn.prior].autoApply ==>
              (t.plans[p].autoApply <==> p in s.plans && s.plans[p].autoApply)
    ensures p != future && t.plans[p].agreement != s.plans[rn.prior].agreement ==> t.plans[p] == s.plans[p]
  {
  }

  lemma PairsAreApart(ls: Licenses, after: Licenses, future: PlanId, added: set<LicenseId>,
                      originals: seq<LicenseId>, targets: seq<LicenseId>, planStart: Time, now: Time)
    requires Renewed(ls, after, future, added, originals, targets, planStart, now)
    ensures forall id :: id in originals ==> CarriedOver(ls, after, future, id)
    ensures forall a, b | a in originals && b in originals :: after[a].renewedTo == after[b].renewedTo ==> a == b
  {
    RenewedLinks(ls, after, future, added, originals, targets, planStart, now);
    forall id | id in originals
      ensures CarriedOver(ls, after, future, id)
    {
      var i :| 0 <= i < |originals| && originals[i] == id;
      PairsCarriedOver(ls, after, future, added, originals, targets, planStart, now, i);
    }
    forall a, b | a in originals && b in originals
      ensures after[a].renewedTo == after[b].renewedTo ==> a == b
    {
      TargetsTellApart(ls, after, originals, targets, a, b);
    }
  }

  lemma TargetsTellApart(ls: Licenses, after: Licenses, originals: seq<LicenseId>, targets: seq<LicenseId>,
                         a: LicenseId, b: LicenseId)
    requires Relinked(ls, after, originals, targets) && NoDup(targets) && a in originals && b in originals
    ensures after[a].renewedTo == after[b].renewedTo ==> a == b
  {
    var i :| 0 <= i < |originals| && originals[i] == a && after[a].renewedTo == Some(targets[i]);
    var j :| 0 <= j < |originals| && originals[j] == b && after[b].renewedTo == Some(targets[j]);
  }

  lemma TargetsAreActive(ls: Licenses, after: Licenses, future: PlanId, added: set<LicenseId>,
                         originals: seq<LicenseId>, targets: seq<LicenseId>, planStart: Time, now: Time)
    requires Renewed(ls, after, future, added, originals, targets, planStart, now)
    requires forall id :: id in originals ==> id in ls && ls[id].Active()
    requires AllUnassigned(ls, OfPlan(ls, future))
    ensures OfPlan(after, future) == OfPlan(ls, future) + added
    ensures AllocatedIn(after, future) == Elems(targets)
    ensures UsableIn(after, future) == OfPlan(after, future)
    ensures forall id :: id in OfPlan(after, future) && id !in targets ==> after[id].status == Status.Unassigned
  {
    RenewedRows(ls, after, future, added, originals, targets, planStart, now);
    forall id | id in targets
      ensures id in after && after[id].Active() && after[id].plan == future
      ensures id in OfPlan(ls, future) + added
    {
      var i :| 0 <= i < |targets| && targets[i] == id;
      assert originals[i] in originals && targets[i] in OfPlan(Increased(ls, future, added), future);
    }
    RenewedPlan(ls, after, future, added, Elems(targets));
  }

  /** The future plan row by row: its targets are active and the rest of it is unassigned. */
  lemma RenewedPlan(ls: Licenses, after: Licenses, future: PlanId, added: set<LicenseId>, targets: set<LicenseId>)
    requires added !! ls.Keys && after.Keys == ls.Keys + added
    requires AllUnassigned(ls, OfPlan(ls, future)) && targets <= OfPlan(ls, future) + added
    requires forall id :: id in targets ==> after[id].Active() && after[id].plan == future
    requires forall id :: id in after && id !in targets ==>
               if id in ls then after[id] == ls[id].(renewedTo := after[id].renewedTo)
               else after[id] == NewLicense(future)
    ensures OfPlan(after, future) == OfPlan(ls, future) + added
    ensures AllocatedIn(after, future) == targets
    ensures UsableIn(after, future) == OfPlan(after, future)
    ensures forall id :: id in OfPlan(after, future) && id !in targets ==> after[id].status == Status.Unassigned
  {
    forall id | id in after && id !in targets
      ensures id in OfPlan(after, future) <==> id in OfPlan(ls, future) + added
      ensures id in OfPlan(after, future) ==> after[id].status == Status.Unassigned
    {
      assert id in OfPlan(ls, future) ==> ls[id].status == Status.Unassigned;
    }
  }

  /** The future plan ends with the requested number of licenses, and all but the copies are unassigned. */
  lemma RenewalFillsPlan(s: State, t: State, rn: Renewal, future: PlanId, added: set<LicenseId>,
                         originals: seq<LicenseId>, targets: seq<LicenseId>, now: Time)
    requires RenewalDone(s, t, rn, future, added, originals, targets, now)
    ensures |OfPlan(t.licenses, future)| == rn.numberOfLicenses == NumLicenses(t.licenses, future)
    ensures NumAllocated(t.licenses, future) == |LicensesToCopy(s.licenses, rn)|
    ensures forall id :: id in OfPlan(t.licenses, future) && id !in targets ==>
              t.licenses[id].status == Status.Unassigned
  {
    CopiedRows(s.licenses, rn, originals);
    TargetsAreActive(s.licenses, t.licenses, future, added, originals, targets, t.plans[future].startDate, now);
    NoDupSize(targets);
    NoDupSize(originals);
    PoolSize(s.licenses, future, added);
  }

  /** Asking again at once either raises or changes no license. */
  lemma RepeatRaisesOrChangesNothing(s: State, t: State, rn: Renewal, future: PlanId, added: set<LicenseId>,
                                     originals: seq<LicenseId>, targets: seq<LicenseId>, now: Time, again: Renewal)
    requires RenewalDone(s, t, rn, future, added, originals, targets, now)
    requires again == rn.(renewed := Some(future), processed := true, processedDate := Some(now))
    ensures Precheck(t.licenses, again).Some? <==> LicensesToCopy(s.licenses, rn) != {}
    ensures forall u, added', originals': seq<LicenseId>, targets', later ::
              RenewalDone(t, u, again, future, added', originals', targets', later) ==> u.licenses == t.licenses
  {
    RenewalFillsPlan(s, t, rn, future, added, originals, targets, now);
    if LicensesToCopy(s.licenses, rn) != {} {
      assert AllocatedIn(t.licenses, future) != {};
      var id :| id in AllocatedIn(t.licenses, future);
      assert id in ExistingLicenses(t.licenses, again);
    } else {
      NothingToCopyAgain(s, t, rn, future, added, originals, targets, now);
      forall u, added', originals': seq<LicenseId>, targets', later
        | RenewalDone(t, u, again, future, added', originals', targets', later)
        ensures u.licenses == t.licenses
      {
        EmptyRenewal(t, u, again, future, added', originals', targets', later);
      }
    }
  }

  lemma EmptyRenewal(s: State, t: State, rn: Renewal, future: PlanId, added: set<LicenseId>,
                     originals: seq<LicenseId>, targets: seq<LicenseId>, now: Time)
    requires RenewalDone(s, t, rn, future, added, originals, targets, now)
    requires LicensesToCopy(s.licenses, rn) == {}
    ensures t.licenses == Increased(s.licenses, future, added)
    ensures |OfPlan(s.licenses, future)| == rn.numberOfLicenses ==> t.licenses == s.licenses
  {
    NoDupSize(originals);
    assert t.licenses == Increased(s.licenses, future, added);
    if |OfPlan(s.licenses, future)| == rn.numberOfLicenses {
      assert added == {};
      assert Increased(s.licenses, future, {}) == s.licenses;
    }
  }

  lemma NothingToCopyAgain(s: State, t: State, rn: Renewal, future: PlanId, added: set<LicenseId>,
                           originals: seq<LicenseId>, targets: seq<LicenseId>, now: Time)
    requires RenewalDone(s, t, rn, future, added, originals, targets, now)
    requires LicensesToCopy(s.licenses, rn) == {}
    ensures t.licenses == Increased(s.licenses, future, added)
    ensures forall id :: id in OfPlan(t.licenses, future) ==> t.licenses[id].status == Status.Unassigned
    ensures forall again: Renewal :: again.prior == rn.prior && again.typesToCopy == rn.typesToCopy ==>
              LicensesToCopy(t.licenses, again) == {}
  {
    EmptyRenewal(s, t, rn, future, added, originals, targets, now);
    forall again: Renewal | again.prior == rn.prior && again.typesToCopy == rn.typesToCopy
      ensures LicensesToCopy(t.licenses, again) == {}
    {
      forall id | id in LicensesToCopy(t.licenses, again)
        ensures id in LicensesToCopy(s.licenses, rn)
      {
      }
    }
  }
}
