/**
 Retiring learner data: the command's three passes over licenses past their purge
 date, and the retirement of one user.
 */
module Retirement {
  import opened Collections
  import opened Licensing
  import opened Lifecycle
  import opened Paging
  import Revocation

  datatype Pass = ExpiredPlans | RevokedLongAgo | AssignedLongAgo

  /** The data a pass looks at besides the licenses; none of it changes during a run. */
  datatype Context = Context(plans: Plans, agreements: map<AgreementId, Agreement>, now: Time)

  predicate PastPurge(c: Context, row: License, date: Option<Time>) {
    && row.plan in c.plans && c.plans[row.plan].agreement in c.agreements
    && date.Some? && date.value < c.now - c.agreements[c.plans[row.plan].agreement].purgeAfter
  }

  /** The filters of `get_licenses_exceeding_purge_duration`, as each pass uses them. */
  predicate Matches(c: Context, pass: Pass, row: License) {
    && row.email.Some? && row.plan in c.plans
    && match pass
       case ExpiredPlans => PastPurge(c, row, Some(c.plans[row.plan].expirationDate))
       case RevokedLongAgo =>
         row.status == Status.Revoked && !c.plans[row.plan].internal && PastPurge(c, row, row.revokedDate)
       case AssignedLongAgo =>
         row.status == Status.Assigned && !c.plans[row.plan].internal && PastPurge(c, row, row.assignedDate)
  }

  function Matching(c: Context, pass: Pass, ls: Licenses): set<LicenseId> {
    set id | id in ls && Matches(c, pass, ls[id])
  }

  /** What a pass does to one license. */
  function Retire(pass: Pass, row: License, now: Time): License {
    match pass
    case ExpiredPlans => row.ClearPii().Revoke(now)
    case RevokedLongAgo => row.ClearPii()
    case AssignedLongAgo => row.ResetToUnassigned()
  }

  function Retired(c: Context, pass: Pass, ls: Licenses, ids: set<LicenseId>): Licenses {
    map id | id in ls :: if id in ids then Retire(pass, ls[id], c.now) else ls[id]
  }

  function RetireEvent(pass: Pass, id: LicenseId, now: Time): Event {
    match pass
    case ExpiredPlans => RetireExpired(id, now)
    case RevokedLongAgo => ScrubRevoked(id)
    case AssignedLongAgo => Reset(id)
  }

  /** A retired license no longer matches any pass; the others match as before. */
  lemma RetiredDropOut(c: Context, pass: Pass, ls: Licenses, ids: set<LicenseId>, other: Pass)
    requires ids <= ls.Keys
    ensures Matching(c, other, Retired(c, pass, ls, ids)) == Matching(c, other, ls) - ids
  {
    var after := Retired(c, pass, ls, ids);
    forall id | id in ls
      ensures id in Matching(c, other, after) <==> id in Matching(c, other, ls) && id !in ids
    {
      if id in ids { assert after[id].email == None; }
    }
  }

  // ---- One pass ---------------------------------------------------------------------

  /** Pages that start at these positions, each full but perhaps the last, cover `total` rows. */
  ghost predicate Covers(positions: seq<nat>, total: nat, size: nat) {
    && (positions == [] <==> total == 0)
    && (positions != [] ==>
          positions[0] == 0 && positions[|positions| - 1] < total <= positions[|positions| - 1] + size)
    && forall k :: 0 <= k < |positions| - 1 ==> positions[k + 1] == positions[k] + size
  }

  ghost predicate StartAt(offsets: seq<Option<nat>>, keys: seq<nat>, positions: seq<nat>) {
    && |offsets| == |positions|
    && forall k :: 0 <= k < |offsets| ==> positions[k] < |keys| && offsets[k] == OffsetAt(keys, positions[k])
  }

  lemma OneMorePage(offsets: seq<Option<nat>>, keys: seq<nat>, positions: seq<nat>, seen: nat, page: nat, size: nat)
    requires StartAt(offsets, keys, positions) && Covers(positions, seen, size) && seen < |keys|
    requires positions != [] ==> seen == positions[|positions| - 1] + size
    requires 0 < page <= size
    ensures StartAt(offsets + [OffsetAt(keys, seen)], keys, positions + [seen])
    ensures Covers(positions + [seen], seen + page, size)
  {
  }

  /** `chain(*pages)` runs the generator to its end before the first page is read: only offsets remain. */
  method DrainPages(matching: set<LicenseId>, size: nat) returns (offsets: seq<Option<nat>>, ghost positions: seq<nat>)
    requires size > 0
    ensures StartAt(offsets, InKeyOrder(matching), positions)
    ensures Covers(positions, |InKeyOrder(matching)|, size)
  {
    offsets, positions := [], [];
    ghost var keys := InKeyOrder(matching);
    var offset: Option<nat> := None;
    var page := FetchPage(matching, offset, size);
    PageIsNextStretch(matching, matching, 0, size);
    assert keys[0..] == keys;
    ghost var seen := 0;
    while page != []
      invariant seen <= |keys| && offset == OffsetAt(keys, seen) && page == Take(keys[seen..], size)
      invariant StartAt(offsets, keys, positions)
      invariant Covers(positions, seen, size)
                && (seen < |keys| && positions != [] ==> seen == positions[|positions| - 1] + size)
      decreases |keys| - seen
    {
      OneMorePage(offsets, keys, positions, seen, |page|, size);
      offsets, positions := offsets + [offset], positions + [seen];
      offset := Some(page[|page| - 1]);
      seen := seen + |page|;
      PageIsNextStretch(matching, matching, seen, size);
      page := FetchPage(matching, offset, size);
    }
  }

  /** Progress of a pass: the first `i` of the keys that matched at the start are done. */
  ghost predicate DoneUpTo(c: Context, pass: Pass, before: State, after: State, i: nat)
    requires i <= |InKeyOrder(Matching(c, pass, before.licenses))|
  {
    && after.licenses == Retired(c, pass, before.licenses, Elems(InKeyOrder(Matching(c, pass, before.licenses))[..i]))
    && after.plans == before.plans
    && Reachable(before, after)
  }

  lemma DoneOneMore(c: Context, pass: Pass, before: State, after: State, i: nat)
    requires i < |InKeyOrder(Matching(c, pass, before.licenses))| && DoneUpTo(c, pass, before, after, i)
    ensures var id := InKeyOrder(Matching(c, pass, before.licenses))[i];
            id in after.licenses && after.licenses[id] == before.licenses[id]
            && DoneUpTo(c, pass, before,
                        State(after.licenses[id := Retire(pass, after.licenses[id], c.now)], after.plans), i + 1)
  {
    var keys := InKeyOrder(Matching(c, pass, before.licenses));
    var id := keys[i];
    NextRow(keys, i);
    var t := State(after.licenses[id := Retire(pass, after.licenses[id], c.now)], after.plans);
    ReachableStep(before, after, RetireEvent(pass, id, c.now), t);
    assert t.licenses == Retired(c, pass, before.licenses, Elems(keys[..i + 1]));
  }

  /** The page at an offset, read only now, is the next stretch of the keys that matched at the start. */
  lemma LazyPage(c: Context, pass: Pass, before: State, after: State, i: nat, size: nat)
    requires i <= |InKeyOrder(Matching(c, pass, before.licenses))| && DoneUpTo(c, pass, before, after, i)
    ensures var keys := InKeyOrder(Matching(c, pass, before.licenses));
            Page(Matching(c, pass, after.licenses), OffsetAt(keys, i), size) == Take(keys[i..], size)
  {
    var matching := Matching(c, pass, before.licenses);
    var keys := InKeyOrder(matching);
    forall id | id in Elems(keys[..i])
      ensures id in matching
    {
      assert id in Elems(keys);
    }
    RetiredDropOut(c, pass, before.licenses, Elems(keys[..i]), pass);
    ProcessedLieBefore(matching, i);
    PageIsNextStretch(matching, Matching(c, pass, after.licenses), i, size);
  }

  /** One turn of a loop of `handle`. */
  method RetireOne(db: Database, c: Context, pass: Pass, id: LicenseId, ghost before: State, ghost i: nat)
    requires i < |InKeyOrder(Matching(c, pass, before.licenses))|
             && id == InKeyOrder(Matching(c, pass, before.licenses))[i]
    requires DoneUpTo(c, pass, before, db.Snapshot(), i)
    modifies db`licenses
    ensures DoneUpTo(c, pass, before, db.Snapshot(), i + 1)
  {
    DoneOneMore(c, pass, before, db.Snapshot(), i);
    RetiredNotActive(c, pass, before.licenses, id);
    var saved := db.Save(id, Retire(pass, db.licenses[id], c.now));
  }

  lemma RetiredNotActive(c: Context, pass: Pass, ls: Licenses, id: LicenseId)
    requires id in InKeyOrder(Matching(c, pass, ls))
    ensures id in ls && !Retire(pass, ls[id], c.now).Active()
  {
    assert id in Elems(InKeyOrder(Matching(c, pass, ls)));
  }

  /** Where page `k` starts; the end of the keys counts as the start after the last page. */
  ghost function StartOf(positions: seq<nat>, total: nat, k: nat): nat {
    if k < |positions| then positions[k] else total
  }

  lemma PageSpan(keys: seq<nat>, positions: seq<nat>, size: nat, k: nat)
    requires Covers(positions, |keys|, size) && k < |positions|
    ensures var start, end := StartOf(positions, |keys|, k), StartOf(positions, |keys|, k + 1);
            start <= end <= |keys| && Take(keys[start..], size) == keys[start..end]
  {
    PositionsAscend(positions, |keys|, size, k);
  }

  lemma {:induction false} PositionsAscend(positions: seq<nat>, total: nat, size: nat, k: nat)
    requires Covers(positions, total, size) && k < |positions|
    ensures positions[k] < total && (k + 1 < |positions| ==> positions[k] + size < total)
    decreases |positions| - k
  {
    if k + 1 == |positions| {
    } else {
      PositionsAscend(positions, total, size, k + 1);
    }
  }

  /** One page of a loop of `handle`. */
  method RetirePage(db: Database, c: Context, pass: Pass, page: seq<LicenseId>, ghost before: State, ghost i: nat)
    requires i + |page| <= |InKeyOrder(Matching(c, pass, before.licenses))|
    requires page == InKeyOrder(Matching(c, pass, before.licenses))[i..i + |page|]
    requires DoneUpTo(c, pass, before, db.Snapshot(), i)
    modifies db`licenses
    ensures DoneUpTo(c, pass, before, db.Snapshot(), i + |page|)
  {
    for j := 0 to |page|
      invariant DoneUpTo(c, pass, before, db.Snapshot(), i + j)
    {
      RetireOne(db, c, pass, page[j], before, i + j);
    }
  }

  /** Reads and retires page number `k`, at its offset. */
  method RetirePageAt(db: Database, c: Context, pass: Pass, size: nat, offset: Option<nat>,
                      ghost before: State, ghost positions: seq<nat>, ghost k: nat) returns (page: seq<LicenseId>)
    requires var keys := InKeyOrder(Matching(c, pass, before.licenses));
             && Covers(positions, |keys|, size) && k < |positions| && positions[k] < |keys|
             && offset == OffsetAt(keys, positions[k])
    requires DoneUpTo(c, pass, before, db.Snapshot(), positions[k])
    modifies db`licenses
    ensures var keys := InKeyOrder(Matching(c, pass, before.licenses));
            var end := StartOf(positions, |keys|, k + 1);
            && positions[k] <= end <= |keys| && page == keys[positions[k]..end]
            && DoneUpTo(c, pass, before, db.Snapshot(), end)
  {
    LazyPage(c, pass, before, db.Snapshot(), positions[k], size);
    PageSpan(InKeyOrder(Matching(c, pass, before.licenses)), positions, size, k);
    page := FetchPage(Matching(c, pass, db.licenses), offset, size);
    RetirePage(db, c, pass, page, before, positions[k]);
  }

  /** One pass: every license that matched at the start is retired once, in key order, whatever the page size. */
  method RunPass(db: Database, c: Context, pass: Pass, size: nat) returns (visited: seq<LicenseId>)
    requires size > 0 && c.plans == db.plans
    modifies db`licenses
    ensures visited == InKeyOrder(Matching(c, pass, old(db.licenses)))
    ensures db.licenses == Retired(c, pass, old(db.licenses), Matching(c, pass, old(db.licenses)))
    ensures Reachable(old(db.Snapshot()), db.Snapshot())
  {
    ghost var before := db.Snapshot();
    ghost var keys := InKeyOrder(Matching(c, pass, db.licenses));
    ghost var positions;
    var offsets;
    offsets, positions := DrainPages(Matching(c, pass, db.licenses), size);
    visited := [];
    NothingDone(c, pass, before);
    for k := 0 to |offsets|
      invariant StartOf(positions, |keys|, k) <= |keys| && visited == keys[..StartOf(positions, |keys|, k)]
      invariant DoneUpTo(c, pass, before, db.Snapshot(), StartOf(positions, |keys|, k))
    {
      var page := RetirePageAt(db, c, pass, size, offsets[k], before, positions, k);
      visited := visited + page;
    }
    assert keys[..|keys|] == keys;
  }

  lemma NothingDone(c: Context, pass: Pass, before: State)
    ensures DoneUpTo(c, pass, before, before, 0)
  {
    ReachableRefl(before);
    var keys := InKeyOrder(Matching(c, pass, before.licenses));
    assert Elems(keys[..0]) == {};
    assert before.licenses == Retired(c, pass, before.licenses, {});
  }

  /**
   Retiring a license that was not yet revoked lowers the plan total; the cap then holds exactly if it can
   bear that.
   */
  lemma RetiringKeepsCapIff(s: State, id: LicenseId, now: Time, t: State, plan: PlanId)
    requires Step(s, RetireExpired(id, now), t) && s.licenses[id].plan == plan
    requires plan in s.plans && s.plans[plan].capEnabled
    ensures Revocation.CapRespected(t, plan) <==>
            s.plans[plan].revocationsApplied
              <= RevocationsAllowed(|UsableIn(s.licenses, plan) - {id}|, s.plans[plan].maxPercentage)
  {
    assert UsableIn(t.licenses, plan) == UsableIn(s.licenses, plan) - {id};
  }

  // ---- The command -------------------------------------------------------------------

  lemma ReachableTrans(s: State, t: State, u: State)
    requires Reachable(s, t) && Reachable(t, u)
    ensures Reachable(s, u)
  {
    var r1, e1 :| History(r1, e1) && r1[0] == s && r1[|r1| - 1] == t;
    var r2, e2 :| History(r2, e2) && r2[0] == t && r2[|r2| - 1] == u;
    var run, events := r1 + r2[1..], e1 + e2;
    forall i | 0 <= i < |events|
      ensures Step(run[i], events[i], run[i + 1])
    {
      if i < |e1| {
        assert events[i] == e1[i];
      } else {
        assert events[i] == e2[i - |e1|];
        assert run[i] == r2[i - |e1|];
      }
    }
    assert History(run, events);
  }

  /** What the command makes of one license, given what its passes visited. */
  function RowAfter(row: License, id: LicenseId, expired: seq<LicenseId>, revoked: seq<LicenseId>,
                    pending: seq<LicenseId>, now: Time): License {
    if id in expired then row.ClearPii().Revoke(now)
    else if id in revoked then row.ClearPii()
    else if id in pending then row.ResetToUnassigned()
    else row
  }

  /** What the command has done: whom each pass visited, and what became of every license. */
  ghost predicate RetirementDone(c: Context, ls: Licenses, after: Licenses,
                                 expired: seq<LicenseId>, revoked: seq<LicenseId>, pending: seq<LicenseId>) {
    && expired == InKeyOrder(Matching(c, ExpiredPlans, ls))
    && revoked == InKeyOrder(Matching(c, RevokedLongAgo, ls) - Elems(expired))
    && pending == InKeyOrder(Matching(c, AssignedLongAgo, ls) - Elems(expired))
    && after.Keys == ls.Keys
    && forall id :: id in ls ==> after[id] == RowAfter(ls[id], id, expired, revoked, pending, c.now)
  }

  /** `handle`: three passes; no license is retired twice, and nothing is left to retire. */
  method RetireOldLicenses(db: Database, size: nat, now: Time)
    returns (expired: seq<LicenseId>, revoked: seq<LicenseId>, pending: seq<LicenseId>)
    requires size > 0
    modifies db`licenses
    ensures var c := Context(db.plans, db.agreements, now);
            && RetirementDone(c, old(db.licenses), db.licenses, expired, revoked, pending)
            && NoDup(expired + revoked + pending)
            && forall pass :: Matching(c, pass, db.licenses) == {}
    ensures Reachable(old(db.Snapshot()), db.Snapshot())
  {
    var c := Context(db.plans, db.agreements, now);
    ghost var s0 := db.Snapshot();
    expired := RunPass(db, c, ExpiredPlans, size);
    ghost var s1 := db.Snapshot();
    revoked := RunPass(db, c, RevokedLongAgo, size);
    ghost var s2 := db.Snapshot();
    pending := RunPass(db, c, AssignedLongAgo, size);
    ReachableTrans(s0, s1, s2);
    ReachableTrans(s0, s2, db.Snapshot());
    PassesAreApart(c, s0.licenses, s1.licenses, s2.licenses, db.licenses);
    VisitedOnce(expired, revoked, pending);
    RetiredInTurn(c, s0.licenses, expired, revoked, pending);
  }

  /**
   After a run a plan is within its cap exactly if the cap bears the loss of the licenses that were retired as
   expired.
   */
  lemma RetirementKeepsCapIff(c: Context, s: State, t: State, plan: PlanId,
                              expired: seq<LicenseId>, revoked: seq<LicenseId>, pending: seq<LicenseId>)
    requires RetirementDone(c, s.licenses, t.licenses, expired, revoked, pending) && t.plans == s.plans
    requires plan in s.plans && s.plans[plan].capEnabled
    ensures Revocation.CapRespected(t, plan) <==>
            s.plans[plan].revocationsApplied
              <= RevocationsAllowed(|UsableIn(s.licenses, plan) - Matching(c, ExpiredPlans, s.licenses)|,
                                    s.plans[plan].maxPercentage)
  {
    UsableAfterRetirement(c, s.licenses, t.licenses, plan, expired, revoked, pending);
  }

  lemma UsableAfterRetirement(c: Context, ls: Licenses, after: Licenses, plan: PlanId,
                              expired: seq<LicenseId>, revoked: seq<LicenseId>, pending: seq<LicenseId>)
    requires RetirementDone(c, ls, after, expired, revoked, pending)
    ensures UsableIn(after, plan) == UsableIn(ls, plan) - Matching(c, ExpiredPlans, ls)
  {
    forall id | id in ls
      ensures after[id].plan == ls[id].plan
      ensures after[id].status == Status.Revoked <==>
              ls[id].status == Status.Revoked || id in Matching(c, ExpiredPlans, ls)
    {
      assert id in expired <==> id in Elems(expired);
      assert id in revoked <==> id in Elems(revoked);
      assert id in pending <==> id in Elems(pending);
    }
  }

  /**
   One activated license of a plan that expired long ago, a cap of 5% and one revocation used: any run
   overdraws the cap.
   */
  lemma RetirementCanOverdrawCap() returns (c: Context, s: State)
    ensures c.plans == s.plans && 0 in s.plans && Revocation.CapRespected(s, 0)
    ensures forall t: State, expired: seq<LicenseId>, revoked: seq<LicenseId>, pending: seq<LicenseId> ::
              t.plans == s.plans && RetirementDone(c, s.licenses, t.licenses, expired, revoked, pending) ==>
              !Revocation.CapRespected(t, 0)
  {
    var plan := Plan(0, 0, 0, true, true, 5, 1, false, false, None, false, false, None);
    var row := NewLicense(0).(status := Status.Activated, email := Some("a"), assignedDate := Some(0));
    s := State(map[0 := row], map[0 := plan]);
    c := Context(s.plans, map[0 := Agreement(false, None, None, None, 90)], 100);
    assert UsableIn(s.licenses, 0) == {0} && Matching(c, ExpiredPlans, s.licenses) == {0};
    assert UsableIn(s.licenses, 0) - {0} == {};
    RevocationsAllowedAtEnds();
    forall t: State, expired: seq<LicenseId>, revoked: seq<LicenseId>, pending: seq<LicenseId>
      | t.plans == s.plans && RetirementDone(c, s.licenses, t.licenses, expired, revoked, pending)
      ensures !Revocation.CapRespected(t, 0)
    {
      RetirementKeepsCapIff(c, s, t, 0, expired, revoked, pending);
    }
  }

  lemma RevocationsAllowedAtEnds()
    ensures RevocationsAllowed(1, 5) == 1 && RevocationsAllowed(0, 5) == 0
  {
    Revocation.RevocationsAllowedIsLeast(1, 5);
    Revocation.RevocationsAllowedIsLeast(0, 5);
  }

  /** Three passes over apart licenses, row by row. */
  lemma RetiredInTurn(c: Context, ls: Licenses, expired: seq<LicenseId>, revoked: seq<LicenseId>,
                      pending: seq<LicenseId>)
    requires Elems(expired) !! Elems(revoked) && (Elems(expired) + Elems(revoked)) !! Elems(pending)
    ensures var after := Retired(c, AssignedLongAgo, Retired(c, RevokedLongAgo,
                           Retired(c, ExpiredPlans, ls, Elems(expired)), Elems(revoked)), Elems(pending));
            && after.Keys == ls.Keys
            && forall id :: id in ls ==> after[id] == RowAfter(ls[id], id, expired, revoked, pending, c.now)
  {
    assert forall id :: id in expired <==> id in Elems(expired);
    assert forall id :: id in revoked <==> id in Elems(revoked);
    assert forall id :: id in pending <==> id in Elems(pending);
  }

  lemma VisitedOnce(a: seq<nat>, b: seq<nat>, c: seq<nat>)
    requires Ascending(a) && Ascending(b) && Ascending(c)
    requires Elems(a) !! Elems(b) && (Elems(a) + Elems(b)) !! Elems(c)
    ensures NoDup(a + b + c)
  {
    forall x | x in a
      ensures x !in b && x !in c
    {
      assert x in Elems(a);
    }
    NoDupConcat(a, b);
    forall x | x in a + b
      ensures x !in c
    {
      assert x in Elems(a) + Elems(b);
    }
    NoDupConcat(a + b, c);
  }

  lemma PassesAreApart(c: Context, l0: Licenses, l1: Licenses, l2: Licenses, l3: Licenses)
    requires l1 == Retired(c, ExpiredPlans, l0, Matching(c, ExpiredPlans, l0))
    requires l2 == Retired(c, RevokedLongAgo, l1, Matching(c, RevokedLongAgo, l1))
    requires l3 == Retired(c, AssignedLongAgo, l2, Matching(c, AssignedLongAgo, l2))
    ensures Matching(c, RevokedLongAgo, l1) == Matching(c, RevokedLongAgo, l0) - Matching(c, ExpiredPlans, l0)
    ensures Matching(c, AssignedLongAgo, l2) == Matching(c, AssignedLongAgo, l0) - Matching(c, ExpiredPlans, l0)
    ensures Matching(c, RevokedLongAgo, l1) !! Matching(c, AssignedLongAgo, l2)
    ensures forall pass :: Matching(c, pass, l3) == {}
  {
    forall other: Pass
      ensures Matching(c, other, l1) == Matching(c, other, l0) - Matching(c, ExpiredPlans, l0)
      ensures Matching(c, other, l2) == Matching(c, other, l1) - Matching(c, RevokedLongAgo, l1)
      ensures Matching(c, other, l3) == Matching(c, other, l2) - Matching(c, AssignedLongAgo, l2)
    {
      RetiredDropOut(c, ExpiredPlans, l0, Matching(c, ExpiredPlans, l0), other);
      RetiredDropOut(c, RevokedLongAgo, l1, Matching(c, RevokedLongAgo, l1), other);
      RetiredDropOut(c, AssignedLongAgo, l2, Matching(c, AssignedLongAgo, l2), other);
    }
    assert Matching(c, RevokedLongAgo, l0) !! Matching(c, AssignedLongAgo, l0);
    forall pass
      ensures Matching(c, pass, l3) == {}
    {
      match pass
      case ExpiredPlans =>
      case RevokedLongAgo =>
      case AssignedLongAgo =>
    }
  }

  // ---- When data goes ----------------------------------------------------------------

  /** The date lies further back than the agreement of the plan keeps data. */
  ghost predicate Overdue(c: Context, plan: PlanId, date: Time) {
    && plan in c.plans && c.plans[plan].agreement in c.agreements
    && date + c.agreements[c.plans[plan].agreement].purgeAfter < c.now
  }

  /** The plan of the license expired too long ago. */
  ghost predicate Lapsed(c: Context, row: License) {
    row.plan in c.plans && Overdue(c, row.plan, c.plans[row.plan].expirationDate)
  }

  /** The license was assigned, or revoked, too long ago; plans for internal use are exempt. */
  ghost predicate Stale(c: Context, row: License) {
    var date := match row.status
                case Assigned => row.assignedDate
                case Revoked => row.revokedDate
                case _ => None;
    row.plan in c.plans && !c.plans[row.plan].internal && date.Some? && Overdue(c, row.plan, date.value)
  }

  lemma MatchesWhenDue(c: Context, row: License)
    ensures Matches(c, ExpiredPlans, row) <==> row.email.Some? && Lapsed(c, row)
    ensures Matches(c, RevokedLongAgo, row) <==> row.email.Some? && row.status == Status.Revoked && Stale(c, row)
    ensures Matches(c, AssignedLongAgo, row) <==> row.email.Some? && row.status == Status.Assigned && Stale(c, row)
  {
  }

  /** A license loses its email exactly when it is due, and what is left of it depends on why; no other changes. */
  lemma RetiredWhenDue(c: Context, ls: Licenses, after: Licenses, id: LicenseId,
                       expired: seq<LicenseId>, revoked: seq<LicenseId>, pending: seq<LicenseId>)
    requires RetirementDone(c, ls, after, expired, revoked, pending) && id in ls && id in after
    ensures ls[id].email.Some? ==> (after[id].email == None <==> Lapsed(c, ls[id]) || Stale(c, ls[id]))
    ensures after[id] ==
            if ls[id].email == None || !(Lapsed(c, ls[id]) || Stale(c, ls[id])) then ls[id]
            else if Lapsed(c, ls[id]) then ls[id].(email := None, status := Status.Revoked, revokedDate := Some(c.now))
            else if ls[id].status == Status.Revoked then ls[id].(email := None)
            else
              ls[id].(status := Status.Unassigned, email := None, lmsUser := None, remindDate := None,
                      activationDate := None, activationKey := None, assignedDate := None, revokedDate := None)
  {
    MatchesWhenDue(c, ls[id]);
    assert id in expired <==> id in Elems(expired);
    assert id in revoked <==> id in Elems(revoked);
    assert id in pending <==> id in Elems(pending);
  }

  /** What one run would retire, any later run would too, if the license is still there as it was. */
  lemma DueStaysDue(c: Context, later: Context, pass: Pass, ls: Licenses)
    requires later.plans == c.plans && later.agreements == c.agreements && c.now <= later.now
    ensures Matching(c, pass, ls) <= Matching(later, pass, ls)
  {
  }

  // ---- One user -------------------------------------------------------------------------

  function LicensesOf(ls: Licenses, user: int): set<LicenseId> {
    set id | id in ls && ls[id].lmsUser == Some(user)
  }

  function Forgotten(row: License): License {
    if row.status == Status.Revoked then row.ClearPii() else row.ResetToUnassigned()
  }

  /** What retiring `user` leaves of a license: a revoked one loses its email, others their history with the learner. */
  ghost function WithoutUser(row: License, user: int): License {
    if row.lmsUser != Some(user) then row
    else
      match row.status
      case Revoked => row.(email := None)
      case _ =>
        row.(status := Status.Unassigned, email := None, lmsUser := None, remindDate := None,
             activationDate := None, activationKey := None, assignedDate := None, revokedDate := None)
  }

  /** The table after the licenses in `ids` were scrubbed one by one. */
  ghost predicate ForgottenIn(before: State, after: State, ids: set<LicenseId>) {
    && after == State(map id | id in before.licenses ::
                        if id in ids then Forgotten(before.licenses[id]) else before.licenses[id], before.plans)
    && Reachable(before, after)
    && forall p :: NumLicenses(after.licenses, p) == NumLicenses(before.licenses, p)
  }

  lemma ForgetOneMore(before: State, after: State, ids: set<LicenseId>, id: LicenseId)
    requires ForgottenIn(before, after, ids) && id in before.licenses && id !in ids
    ensures ForgottenIn(before, State(after.licenses[id := Forgotten(before.licenses[id])], after.plans), ids + {id})
  {
    var t := State(after.licenses[id := Forgotten(before.licenses[id])], after.plans);
    var e := if before.licenses[id].status == Status.Revoked then ScrubRevoked(id) else Reset(id);
    assert after.licenses[id] == before.licenses[id];
    assert Step(after, e, t);
    ReachableStep(before, after, e, t);
    forall p
      ensures NumLicenses(t.licenses, p) == NumLicenses(before.licenses, p)
    {
      StepTotals(after, e, t, p);
    }
    assert t.licenses == map x | x in before.licenses ::
        if x in ids + {id} then Forgotten(before.licenses[x]) else before.licenses[x];
  }

  /** The scrub loop of the user retirement endpoint; plan totals stay as they were. */
  method RetireUser(db: Database, user: int) returns (rows: seq<LicenseId>)
    modifies db`licenses
    ensures Enumerates(rows, LicensesOf(old(db.licenses), user))
    ensures ForgottenIn(old(db.Snapshot()), db.Snapshot(), LicensesOf(old(db.licenses), user))
    ensures db.licenses.Keys == old(db.licenses).Keys
    ensures forall id :: id in old(db.licenses) ==>
              db.licenses[id] == WithoutUser(old(db.licenses)[id], user)
  {
    ghost var before := db.Snapshot();
    rows := Query(LicensesOf(db.licenses, user));
    ReachableRefl(before);
    assert ForgottenIn(before, before, Elems(rows[..0]));
    for i := 0 to |rows|
      invariant ForgottenIn(before, db.Snapshot(), Elems(rows[..i]))
    {
      NextRow(rows, i);
      ForgetOneMore(before, db.Snapshot(), Elems(rows[..i]), rows[i]);
      var saved := db.Save(rows[i], Forgotten(db.licenses[rows[i]]));
    }
    assert rows[..|rows|] == rows;
  }

  /** No license names the user any more, except that revoked ones keep the user's LMS id. */
  lemma RetiredUserIsForgotten(before: State, after: State, user: int)
    requires ForgottenIn(before, after, LicensesOf(before.licenses, user))
    ensures forall id :: id in LicensesOf(before.licenses, user) ==>
              id in after.licenses && after.licenses[id].email == None
    ensures forall id :: id in LicensesOf(after.licenses, user) <==>
                           id in LicensesOf(before.licenses, user) && before.licenses[id].status == Status.Revoked
  {
  }
}
