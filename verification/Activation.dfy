/**
 Activating a license by its key: finding it, cleaning up duplicates the learner
 holds in the same plan, and the save that `License.clean()` could refuse.
 */
module Activation {
  import opened Collections
  import opened Licensing
  import opened Lifecycle

  datatype Lookup =
    | Missing
    | ToActivateIsRevoked(id: LicenseId)
    | MixedDates
    | Found(id: LicenseId)

  /** The learner's licenses with this key in plans that are active and current. */
  function WithKey(s: State, email: Email, key: int, now: Time): set<LicenseId> {
    set id | id in s.licenses && s.licenses[id].email == Some(email) && s.licenses[id].activationKey == Some(key)
             && s.licenses[id].plan in s.plans && s.plans[s.licenses[id].plan].CurrentAt(now)
  }

  function OfStatus(ls: Licenses, ids: set<LicenseId>, status: Status): set<LicenseId> {
    set id | id in ids && id in ls && ls[id].status == status
  }

  /** The licenses among `ids` that carry no assignment date. */
  function Undated(ls: Licenses, ids: set<LicenseId>): set<LicenseId> {
    set id | id in ids && id in ls && ls[id].assignedDate == None
  }

  /**
   Comparing a missing date (a naive minimum) with a stored one raises, and sorting
   must compare them: the clean-up fails when it has to sort both kinds.
   */
  predicate CannotSort(ls: Licenses, candidates: set<LicenseId>) {
    && |candidates| > 1
    && OfStatus(ls, candidates, Status.Activated) == {}
    && Undated(ls, candidates) != {} && Undated(ls, candidates) != candidates
  }

  function AssignedAt(ls: Licenses, id: LicenseId): int {
    if id in ls && ls[id].assignedDate.Some? then ls[id].assignedDate.value else 0
  }

  /** An activated license if the learner has one, else one with the newest assignment date. */
  ghost predicate Preferred(ls: Licenses, candidates: set<LicenseId>, kept: LicenseId) {
    && kept in candidates && candidates <= ls.Keys
    && ((exists id :: id in candidates && ls[id].status == Status.Activated) ==> ls[kept].status == Status.Activated)
    && ((forall id :: id in candidates ==> ls[id].status != Status.Activated && ls[id].assignedDate.Some?) ==>
          forall id :: id in candidates ==> ls[id].assignedDate.value <= ls[kept].assignedDate.value)
  }

  /** None is activated, and some are dated while others are not. */
  ghost predicate MixesDates(ls: Licenses, candidates: set<LicenseId>)
    requires candidates <= ls.Keys
  {
    && (forall id :: id in candidates ==> ls[id].status != Status.Activated)
    && exists a, b :: a in candidates && b in candidates && ls[a].assignedDate == None && ls[b].assignedDate != None
  }

  lemma CannotSortIffMixed(ls: Licenses, candidates: set<LicenseId>)
    requires candidates <= ls.Keys
    ensures CannotSort(ls, candidates) <==> MixesDates(ls, candidates)
  {
    if CannotSort(ls, candidates) {
      var a :| a in Undated(ls, candidates);
      var b :| b in candidates && b !in Undated(ls, candidates);
      assert forall id :: id in candidates ==> id !in OfStatus(ls, candidates, Status.Activated);
      assert ls[a].assignedDate == None && ls[b].assignedDate != None;
    }
    if MixesDates(ls, candidates) {
      var a, b :| a in candidates && b in candidates && ls[a].assignedDate == None && ls[b].assignedDate != None;
      assert a in Undated(ls, candidates) && b !in Undated(ls, candidates);
      SubsetSize({a, b}, candidates);
    }
  }

  /** `_clean_up_duplicate_licenses`; None is the exception raised while sorting. */
  method CleanUpDuplicates(db: Database, duplicates: seq<LicenseId>) returns (kept: Option<LicenseId>)
    requires NoDup(duplicates) && |duplicates| > 1
    requires Elems(duplicates) <= db.licenses.Keys
    modifies db`licenses
    ensures kept == None <==> CannotSort(old(db.licenses), Elems(duplicates))
    ensures kept == None <==> MixesDates(old(db.licenses), Elems(duplicates))
    ensures kept == None ==> db.licenses == old(db.licenses)
    ensures kept.Some? ==> Preferred(old(db.licenses), Elems(duplicates), kept.value)
    ensures kept.Some? ==> db.licenses == CleanedUp(old(db.licenses), Elems(duplicates), kept.value)
  {
    var candidates := set id | id in duplicates;
    assert candidates == Elems(duplicates);
    NoDupSize(duplicates);
    CannotSortIffMixed(db.licenses, candidates);
    var activated := OfStatus(db.licenses, candidates, Status.Activated);
    if activated != {} {
      var first :| first in activated;
      kept := Some(first);
    } else {
      if CannotSort(db.licenses, candidates) {
        return None;
      }
      kept := NewestOf(db.licenses, duplicates);
    }
    ResetOthers(db, duplicates, kept.value);
  }

  lemma CleanedUpMore(ls: Licenses, candidates: set<LicenseId>, kept: LicenseId, id: LicenseId)
    requires id in ls && id !in candidates
    ensures var before := CleanedUp(ls, candidates, kept);
            CleanedUp(ls, candidates + {id}, kept) ==
              if id == kept then before else before[id := before[id].ResetToUnassigned()]
  {
  }

  /** Resets and saves every duplicate but the kept one; these saves are never refused. */
  method ResetOthers(db: Database, duplicates: seq<LicenseId>, kept: LicenseId)
    requires NoDup(duplicates) && Elems(duplicates) <= db.licenses.Keys
    modifies db`licenses
    ensures db.licenses == CleanedUp(old(db.licenses), Elems(duplicates), kept)
  {
    ghost var before := db.licenses;
    assert db.licenses == CleanedUp(before, Elems(duplicates[..0]), kept);
    for i := 0 to |duplicates|
      invariant db.licenses == CleanedUp(before, Elems(duplicates[..i]), kept)
    {
      NextRow(duplicates, i);
      CleanedUpMore(before, Elems(duplicates[..i]), kept, duplicates[i]);
      if duplicates[i] != kept {
        var saved := db.Save(duplicates[i], db.licenses[duplicates[i]].ResetToUnassigned());
      }
    }
    assert duplicates[..|duplicates|] == duplicates;
  }

  /** The head of the list sorted by newest assignment date. */
  method NewestOf(ls: Licenses, duplicates: seq<LicenseId>) returns (newest: Option<LicenseId>)
    requires |duplicates| > 0 && Elems(duplicates) <= ls.Keys
    requires OfStatus(ls, Elems(duplicates), Status.Activated) == {}
    ensures newest.Some? && Preferred(ls, Elems(duplicates), newest.value)
  {
    var key: LicenseId -> int := (id: LicenseId) => AssignedAt(ls, id);
    var sorted := SortDescending<LicenseId>(duplicates, key);
    SortIsDescending<LicenseId>(duplicates, key);
    assert forall id :: id in Elems(duplicates) <==> id in multiset(duplicates);
    assert sorted[0] in multiset(sorted) && sorted[0] in Elems(duplicates);
    newest := Some(sorted[0]);
    forall id | id in Elems(duplicates)
      ensures AssignedAt(ls, id) <= AssignedAt(ls, sorted[0])
    {
      assert id in multiset(sorted);
      var j :| 0 <= j < |sorted| && sorted[j] == id;
      assert j == 0 || key(sorted[0]) >= key(sorted[j]);
    }
    NewestIsPreferred(ls, Elems(duplicates), sorted[0]);
  }

  lemma NewestIsPreferred(ls: Licenses, candidates: set<LicenseId>, newest: LicenseId)
    requires newest in candidates && candidates <= ls.Keys && OfStatus(ls, candidates, Status.Activated) == {}
    requires forall id :: id in candidates ==> AssignedAt(ls, id) <= AssignedAt(ls, newest)
    ensures Preferred(ls, candidates, newest)
  {
    assert forall id :: id in candidates ==> id !in OfStatus(ls, candidates, Status.Activated);
    assert forall id :: id in candidates && ls[id].assignedDate.Some? ==>
        AssignedAt(ls, id) == ls[id].assignedDate.value;
  }

  /** `license_for_activation`. */
  method LicenseForActivation(db: Database, email: Email, key: int, now: Time) returns (r: Lookup)
    modifies db`licenses
    ensures r == Missing <==> WithKey(old(db.Snapshot()), email, key, now) == {}
    ensures r != Missing ==>
              var ls := old(db.licenses);
              var first := Min(WithKey(old(db.Snapshot()), email, key, now));
              var candidates := HeldBy(ls, ls[first].plan, email);
              if ls[first].status == Status.Revoked then r == ToActivateIsRevoked(first)
              else if CannotSort(ls, candidates) then r == MixedDates
              else r.Found? && Preferred(ls, candidates, r.id)
                   && Step(old(db.Snapshot()), CleanUp(ls[first].plan, email, r.id), db.Snapshot())
    ensures !r.Found? ==> db.licenses == old(db.licenses)
  {
    var matching := WithKey(db.Snapshot(), email, key, now);
    if matching == {} {
      return Missing;
    }
    var first := Min(matching);
    if db.licenses[first].status == Status.Revoked {
      return ToActivateIsRevoked(first);
    }
    ghost var ls := db.licenses;
    var candidates := HeldBy(db.licenses, db.licenses[first].plan, email);
    var rows := Query(candidates);
    assert first in Elems(rows);
    if |rows| > 1 {
      var kept := CleanUpDuplicates(db, rows);
      r := if kept == None then MixedDates else Found(kept.value);
    } else {
      assert rows == [first];
      assert candidates == {first};
      assert db.licenses == CleanedUp(ls, candidates, first);
      r := Found(rows[0]);
    }
  }

  /** From any table, duplicates or not, the clean-up leaves at most the kept license active. */
  lemma CleanUpLeavesAtMostOne(s: State, plan: PlanId, email: Email, kept: LicenseId, t: State)
    requires Step(s, CleanUp(plan, email, kept), t)
    ensures ActiveFor(t.licenses, plan, Some(email)) == ActiveFor(s.licenses, plan, Some(email)) * {kept}
    ensures forall user, now :: CleanAccepts(t.licenses, kept, t.licenses[kept].Activate(user, now))
    ensures forall p :: NumLicenses(t.licenses, p) == NumLicenses(s.licenses, p)
    ensures forall p, e :: p != plan || e != Some(email) ==> ActiveFor(t.licenses, p, e) == ActiveFor(s.licenses, p, e)
  {
    assert ActiveFor(t.licenses, plan, Some(email)) == ActiveFor(s.licenses, plan, Some(email)) * {kept};
    forall p
      ensures NumLicenses(t.licenses, p) == NumLicenses(s.licenses, p)
    {
      StepTotals(s, CleanUp(plan, email, kept), t, p);
    }
    forall p, e | p != plan || e != Some(email)
      ensures ActiveFor(t.licenses, p, e) == ActiveFor(s.licenses, p, e)
    {
    }
  }

  /** The learner has this license of the plan, and it was not revoked. */
  ghost predicate NotRevokedOf(row: License, plan: PlanId, email: Email) {
    && row.plan == plan && row.email == Some(email)
    && row.status in {Status.Unassigned, Status.Assigned, Status.Activated}
  }

  /** What a clean-up writes: all of these licenses but the kept one go back to the pool, and no other changes. */
  lemma CleanUpInFields(s: State, plan: PlanId, email: Email, kept: LicenseId, t: State, id: LicenseId)
    requires Step(s, CleanUp(plan, email, kept), t) && id in s.licenses
    ensures kept in s.licenses && NotRevokedOf(s.licenses[kept], plan, email)
    ensures t.plans == s.plans && t.licenses.Keys == s.licenses.Keys
    ensures t.licenses[id] ==
            if id == kept || !NotRevokedOf(s.licenses[id], plan, email) then s.licenses[id]
            else
              s.licenses[id].(status := Status.Unassigned, email := None, lmsUser := None, remindDate := None,
                              activationDate := None, activationKey := None, assignedDate := None, revokedDate := None)
  {
  }

  /** In a tidy table the clean-up can always sort, and it leaves exactly one active license. */
  lemma TidyCleanUp(s: State, plan: PlanId, email: Email)
    requires Tidy(s.licenses)
    ensures !CannotSort(s.licenses, HeldBy(s.licenses, plan, email))
    ensures forall kept: LicenseId, t :: Step(s, CleanUp(plan, email, kept), t) ==>
              ActiveFor(t.licenses, plan, Some(email)) == {kept}
  {
    var held := HeldBy(s.licenses, plan, email);
    assert held == ActiveFor(s.licenses, plan, Some(email));
    forall kept: LicenseId, t | Step(s, CleanUp(plan, email, kept), t)
      ensures ActiveFor(t.licenses, plan, Some(email)) == {kept}
    {
      CleanUpLeavesAtMostOne(s, plan, email, kept, t);
    }
  }

  /** Two assigned licenses, one of them undated, cannot be cleaned up. */
  lemma UndatedDuplicateCannotBeSorted() returns (ls: Licenses)
    ensures Elems([0, 1]) <= ls.Keys && CannotSort(ls, HeldBy(ls, 0, "a"))
  {
    var row := NewLicense(0).(status := Status.Assigned, email := Some("a"));
    ls := map[0 := row, 1 := row.(assignedDate := Some(5))];
    assert HeldBy(ls, 0, "a") == {0, 1};
    assert 0 in Undated(ls, {0, 1}) && 1 !in Undated(ls, {0, 1});
  }

  datatype ActivationResult =
    | NotFound
    | Unprocessable(id: LicenseId)
    | Crashed
    | Refused
    | Active(id: LicenseId)

  /** What the endpoint answers and leaves. `Refused` would be `clean()` rejecting the save, and never happens. */
  ghost predicate ActivateOutcome(s: State, u: State, email: Email, key: int, user: int, now: Time,
                                  r: ActivationResult) {
    && !r.Refused?
    && (r.NotFound? <==> WithKey(s, email, key, now) == {})
    && (!r.Active? ==> u == s)
    && (!r.NotFound? ==>
          var first := s.licenses[Min(WithKey(s, email, key, now))];
          && (r.Unprocessable? <==> first.status == Status.Revoked)
          && (r.Crashed? <==>
                first.status != Status.Revoked && CannotSort(s.licenses, HeldBy(s.licenses, first.plan, email))))
    && (r.Active? ==>
          var plan := s.licenses[Min(WithKey(s, email, key, now))].plan;
          var cleaned := State(CleanedUp(s.licenses, HeldBy(s.licenses, plan, email), r.id), s.plans);
          && Preferred(s.licenses, HeldBy(s.licenses, plan, email), r.id)
          && Step(s, CleanUp(plan, email, r.id), cleaned)
          && if s.licenses[r.id].status == Status.Assigned
             then Step(cleaned, Event.Activate(r.id, user, now), u)
             else u == cleaned)
  }

  /** The activation endpoint. */
  method Activate(db: Database, email: Email, key: int, user: int, now: Time) returns (r: ActivationResult)
    modifies db`licenses
    ensures ActivateOutcome(old(db.Snapshot()), db.Snapshot(), email, key, user, now, r)
  {
    ghost var s := db.Snapshot();
    var found := LicenseForActivation(db, email, key, now);
    match found
    case Missing => r := NotFound;
    case ToActivateIsRevoked(id) => r := Unprocessable(id);
    case MixedDates => r := Crashed;
    case Found(id) =>
      r := Active(id);
      CleanUpLeavesAtMostOne(s, s.licenses[Min(WithKey(s, email, key, now))].plan, email, id, db.Snapshot());
      if db.licenses[id].status == Status.Assigned {
        var saved := db.Save(id, db.licenses[id].Activate(user, now));
        if !saved {
          r := Refused;
        }
      }
  }

  // ---- From assignment to activation ------------------------------------------------------

  /** The learner has a license with this key in a plan that is active and has begun and not ended. */
  ghost predicate HoldsKey(s: State, id: LicenseId, email: Email, key: int, now: Time) {
    && id in s.licenses && s.licenses[id].email == Some(email) && s.licenses[id].activationKey == Some(key)
    && Running(s, s.licenses[id].plan, now)
  }

  ghost predicate Running(s: State, plan: PlanId, now: Time) {
    && plan in s.plans && s.plans[plan].isActive
    && !(now < s.plans[plan].startDate) && !(s.plans[plan].expirationDate < now)
  }

  lemma NotFoundIff(s: State, u: State, email: Email, key: int, user: int, now: Time, r: ActivationResult)
    requires ActivateOutcome(s, u, email, key, user, now, r)
    ensures r.NotFound? <==> forall id :: !HoldsKey(s, id, email, key, now)
  {
    forall id
      ensures id in WithKey(s, email, key, now) <==> HoldsKey(s, id, email, key, now)
    {
    }
  }

  /** After an assignment, a key finds what it found before and, if it is the learner's new key, the new license. */
  lemma NewKeyFinds(s: State, t: State, plan: PlanId, emails: seq<Email>, targets: seq<LicenseId>, keys: seq<int>,
                    assignedAt: Time, i: nat, key: int, now: Time)
    requires Step(s, Event.Assign(plan, emails, targets, keys, assignedAt), t) && Tidy(s.licenses) && i < |emails|
    ensures WithKey(t, emails[i], key, now) ==
            WithKey(s, emails[i], key, now) + if key == keys[i] && Running(s, plan, now) then {targets[i]} else {}
  {
    forall j | 0 <= j < |targets|
      ensures targets[j] in s.licenses && s.licenses[targets[j]].plan == plan && s.licenses[targets[j]].email == None
    {
      assert targets[j] in UnassignedIn(s.licenses, plan);
    }
    forall id
      ensures id in WithKey(t, emails[i], key, now) <==>
              id in WithKey(s, emails[i], key, now) || (key == keys[i] && Running(s, plan, now) && id == targets[i])
    {
      if id in targets {
        var j :| 0 <= j < |targets| && targets[j] == id;
      }
    }
  }

  /** The key in the answer of an assignment activates the license assigned with it, and changes no other license. */
  lemma AssignedKeyActivates(s: State, t: State, u: State, plan: PlanId, emails: seq<Email>, targets: seq<LicenseId>,
                             keys: seq<int>, assignedAt: Time, i: nat, user: int, now: Time, r: ActivationResult)
    requires Unique(s.licenses) && Tidy(s.licenses)
    requires Step(s, Event.Assign(plan, emails, targets, keys, assignedAt), t) && i < |emails|
    requires Running(s, plan, now) && forall id :: !HoldsKey(s, id, emails[i], keys[i], now)
    requires ActivateOutcome(t, u, emails[i], keys[i], user, now, r)
    ensures r == Active(targets[i]) && targets[i] in t.licenses && u.plans == t.plans
    ensures u.licenses == t.licenses[targets[i] := t.licenses[targets[i]].(
              status := Status.Activated, lmsUser := Some(user), activationDate := Some(now))]
  {
    AssignedIsOnlyFound(s, t, plan, emails, targets, keys, assignedAt, i, now);
    OnlyFoundActivates(t, u, plan, targets[i], emails[i], keys[i], user, now, r);
  }

  lemma AssignedIsOnlyFound(s: State, t: State, plan: PlanId, emails: seq<Email>, targets: seq<LicenseId>,
                            keys: seq<int>, assignedAt: Time, i: nat, now: Time)
    requires Unique(s.licenses) && Tidy(s.licenses)
    requires Step(s, Event.Assign(plan, emails, targets, keys, assignedAt), t) && i < |emails|
    requires Running(s, plan, now) && forall id :: !HoldsKey(s, id, emails[i], keys[i], now)
    ensures targets[i] in t.licenses && t.licenses[targets[i]].status == Status.Assigned
    ensures WithKey(t, emails[i], keys[i], now) == {targets[i]}
    ensures HeldBy(t.licenses, plan, emails[i]) == {targets[i]} && t.licenses[targets[i]].plan == plan
  {
    NewKeyFinds(s, t, plan, emails, targets, keys, assignedAt, i, keys[i], now);
    assert forall x :: x in WithKey(s, emails[i], keys[i], now) ==> HoldsKey(s, x, emails[i], keys[i], now);
    assert WithKey(s, emails[i], keys[i], now) == {};
    assert targets[i] in UnassignedIn(s.licenses, plan);
    StepKeepsSound(s, Event.Assign(plan, emails, targets, keys, assignedAt), t);
    OnlyHolder(t.licenses, plan, emails[i], targets[i]);
  }

  lemma OnlyFoundActivates(t: State, u: State, plan: PlanId, id: LicenseId, email: Email, key: int,
                           user: int, now: Time, r: ActivationResult)
    requires id in t.licenses && t.licenses[id].status == Status.Assigned && t.licenses[id].plan == plan
    requires WithKey(t, email, key, now) == {id} && HeldBy(t.licenses, plan, email) == {id}
    requires ActivateOutcome(t, u, email, key, user, now, r)
    ensures r == Active(id) && u.plans == t.plans
    ensures u.licenses == t.licenses[id := t.licenses[id].Activate(user, now)]
  {
    assert CleanedUp(t.licenses, {id}, id) == t.licenses;
  }

  lemma OnlyHolder(ls: Licenses, plan: PlanId, email: Email, id: LicenseId)
    requires Unique(ls) && Tidy(ls) && id in HeldBy(ls, plan, email)
    ensures HeldBy(ls, plan, email) == {id}
  {
  }

  /** Another key does not: it is not found, unless the learner held a license with it before. */
  lemma OtherKeyIsNotFound(s: State, t: State, u: State, plan: PlanId, emails: seq<Email>, targets: seq<LicenseId>,
                           keys: seq<int>, assignedAt: Time, i: nat, key: int, user: int, now: Time,
                           r: ActivationResult)
    requires Tidy(s.licenses) && Step(s, Event.Assign(plan, emails, targets, keys, assignedAt), t) && i < |emails|
    requires key != keys[i] && forall id :: !HoldsKey(s, id, emails[i], key, now)
    requires ActivateOutcome(t, u, emails[i], key, user, now, r)
    ensures r == NotFound && u == t
  {
    NewKeyFinds(s, t, plan, emails, targets, keys, assignedAt, i, key, now);
    assert forall x :: x in WithKey(s, emails[i], key, now) ==> HoldsKey(s, x, emails[i], key, now);
    assert WithKey(t, emails[i], key, now) == {};
  }
}
