/**
 Auto-scaling of the current plan of each agreement: when it acts, by how much, and
 where repeated runs come to rest. Percentages are exact.
 */
module AutoScaling {
  import opened Collections
  import opened Licensing
  import opened Lifecycle
  import opened Provisioning

  /** An agreement's settings once all three are filled in. */
  datatype Settings = Settings(limit: int, threshold: int, increment: int)

  /** `int(x)`: drops the fraction, towards zero. */
  function Truncate(x: real): int {
    if x >= 0.0 then x.Floor else -((-x).Floor)
  }

  /** The share of unallocated licenses fell below the share that has to stay unallocated. */
  predicate NeedsScaling(total: nat, taken: nat, c: Settings)
    requires total > 0
  {
    var required := 100.0 - c.threshold as real;
    var unallocated := (total - taken) as real / total as real * 100.0;
    unallocated < required
  }

  function LicensesToAdd(total: nat, c: Settings): int {
    var scaled := total as real * (c.increment as real / 100.0);
    var room := (c.limit - total) as real;
    Truncate(if scaled <= room then scaled else room)
  }

  /** The total after one run over a plan; `range(n)` of a negative n creates nothing. */
  function Scaled(total: nat, taken: nat, c: Settings): nat {
    if total == 0 || !NeedsScaling(total, taken, c) || LicensesToAdd(total, c) <= 0 then total
    else total + LicensesToAdd(total, c)
  }

  // ---- The arithmetic -------------------------------------------------------------

  /** Scaling acts exactly when more than the threshold percentage is allocated. */
  lemma ActsIffOverThreshold(total: nat, taken: nat, c: Settings)
    requires total > 0
    ensures NeedsScaling(total, taken, c) <==> 100 * taken > c.threshold * total
  {
    var t, a := total as real, taken as real;
    var unallocated := (total - taken) as real / t * 100.0;
    assert (total - taken) as real == t - a;
    assert unallocated * t == 100.0 * (t - a);
    var required := 100.0 - c.threshold as real;
    ScaleByPositive(unallocated, required, t);
    assert required * t == 100.0 * t - c.threshold as real * t;
    assert (c.threshold * total) as real == c.threshold as real * t;
    assert (100 * taken) as real == 100.0 * a;
    assert unallocated * t < required * t <==> 100.0 * a > c.threshold as real * t;
    assert NeedsScaling(total, taken, c) <==> unallocated < required;
    assert 100 * taken > c.threshold * total <==> (100 * taken) as real > (c.threshold * total) as real;
  }

  lemma ScaleByPositive(x: real, y: real, t: real)
    requires t > 0.0
    ensures x < y <==> x * t < y * t
  {
    if x < y {
      assert (y - x) * t > 0.0;
    } else {
      assert (x - y) * t >= 0.0;
    }
  }

  /** What is added: the increment without its fraction, or what the limit leaves if that is less. */
  lemma AddedIsTruncatedWithinLimit(total: nat, c: Settings)
    ensures var added, scaled := LicensesToAdd(total, c), total * c.increment;
            if scaled > 100 * (c.limit - total) then added == c.limit - total
            else if scaled >= 0 then 100 * added <= scaled < 100 * (added + 1)
            else 100 * (added - 1) < scaled <= 100 * added
  {
    var scaled := total as real * (c.increment as real / 100.0);
    assert 100.0 * scaled == total as real * c.increment as real;
    assert (total * c.increment) as real == total as real * c.increment as real;
  }

  /** A run never shrinks a plan and never takes it past the larger of its total and the limit. */
  lemma ScaledWithinLimit(total: nat, taken: nat, c: Settings)
    ensures total <= Scaled(total, taken, c)
    ensures Scaled(total, taken, c) <= if c.limit > total then c.limit else total
  {
    AddedIsTruncatedWithinLimit(total, c);
  }

  // ---- Repeated runs -----------------------------------------------------------------

  function Repeated(total: nat, taken: nat, c: Settings, runs: nat): nat
    decreases runs
  {
    if runs == 0 then total else Repeated(Scaled(total, taken, c), taken, c, runs - 1)
  }

  predicate AtRest(total: nat, taken: nat, c: Settings) {
    Scaled(total, taken, c) == total
  }

  /** A plan is left alone exactly if it is empty, not over the threshold, full, or too small for the increment. */
  lemma AtRestIff(total: nat, taken: nat, c: Settings)
    ensures AtRest(total, taken, c) <==>
            total == 0 || 100 * taken <= c.threshold * total || c.limit <= total || total * c.increment < 100
  {
    AddedIsTruncatedWithinLimit(total, c);
    if total > 0 {
      ActsIffOverThreshold(total, taken, c);
    }
  }

  /** With the allocation fixed, every run that adds anything shortens the way to the limit. */
  lemma RunsApproachLimit(total: nat, taken: nat, c: Settings)
    requires !AtRest(total, taken, c)
    ensures 0 <= c.limit - Scaled(total, taken, c) < c.limit - total
  {
    ScaledWithinLimit(total, taken, c);
    AtRestIff(total, taken, c);
  }

  /** Repeated runs come to rest, after no more runs than licenses were missing to the limit. */
  lemma {:induction false} RunsComeToRest(total: nat, taken: nat, c: Settings) returns (runs: nat)
    ensures AtRest(Repeated(total, taken, c, runs), taken, c)
    ensures runs <= if c.limit > total then c.limit - total else 0
    decreases if c.limit > total then c.limit - total else 0
  {
    if AtRest(total, taken, c) {
      runs := 0;
    } else {
      RunsApproachLimit(total, taken, c);
      var more := RunsComeToRest(Scaled(total, taken, c), taken, c);
      runs := more + 1;
    }
  }

  // ---- The command ---------------------------------------------------------------------

  datatype Scaling =
    | NoCurrentPlan
    | EmptyPlan(plan: PlanId)
    | MissingSettings(plan: PlanId)
    | Enough(plan: PlanId)
    | Grown(plan: PlanId, added: set<LicenseId>)
    | WouldGrow(plan: PlanId, extra: int)

  function SettingsOf(a: Agreement): Option<Settings> {
    if a.maxLicenses.Some? && a.thresholdPercentage.Some? && a.incrementPercentage.Some? then
      Some(Settings(a.maxLicenses.value, a.thresholdPercentage.value, a.incrementPercentage.value))
    else None
  }

  /** The run needs a setting that was left empty; the other two matter only once scaling is due. */
  predicate RaisesFor(a: Agreement, total: nat, taken: nat)
    requires total > 0
  {
    || a.thresholdPercentage == None
    || (NeedsScaling(total, taken, Settings(0, a.thresholdPercentage.value, 0))
        && (a.maxLicenses == None || a.incrementPercentage == None))
  }

  /** What a run over an agreement finds, and what it adds, given the tables it starts from. */
  ghost predicate OutcomeOf(s: State, agreements: map<AgreementId, Agreement>, agreement: AgreementId, now: Time,
                            dryRun: bool, r: Scaling)
    requires agreement in agreements
  {
    if r.NoCurrentPlan? then CurrentPlans(s.plans, agreement, now) == {}
    else
      && LatestStarted(s.plans, CurrentPlans(s.plans, agreement, now), r.plan)
      && PlanOutcome(NumLicenses(s.licenses, r.plan), NumAllocated(s.licenses, r.plan),
                     agreements[agreement], dryRun, r)
  }

  ghost predicate PlanOutcome(total: nat, taken: nat, a: Agreement, dryRun: bool, r: Scaling) {
    var settings := SettingsOf(a);
    && !r.NoCurrentPlan?
    && (r.EmptyPlan? <==> total == 0)
    && (r.MissingSettings? <==> total > 0 && RaisesFor(a, total, taken))
    && (r.Enough? <==> total > 0 && a.thresholdPercentage.Some?
                       && !NeedsScaling(total, taken, Settings(0, a.thresholdPercentage.value, 0)))
    && (r.WouldGrow? ==> dryRun && settings.Some? && r.extra == LicensesToAdd(total, settings.value))
    && (r.Grown? ==> !dryRun && settings.Some? && total + |r.added| == Scaled(total, taken, settings.value))
  }

  /** One turn of the loop in `handle`. A setting left empty that is needed makes the command raise. */
  method ScaleAgreement(db: Database, agreement: AgreementId, now: Time, dryRun: bool) returns (r: Scaling)
    requires agreement in db.agreements
    modifies db`licenses
    ensures OutcomeOf(old(db.Snapshot()), db.agreements, agreement, now, dryRun, r)
    ensures r.Grown? ==> Step(old(db.Snapshot()), Increase(r.plan, r.added), db.Snapshot())
    ensures !r.Grown? ==> db.licenses == old(db.licenses)
  {
    var current := FirstByStart(db.plans, CurrentPlans(db.plans, agreement, now));
    if current == None {
      return NoCurrentPlan;
    }
    var plan := current.value;
    var total, taken := NumLicenses(db.licenses, plan), NumAllocated(db.licenses, plan);
    if total == 0 {
      return EmptyPlan(plan);
    }
    var a := db.agreements[agreement];
    if a.thresholdPercentage == None {
      return MissingSettings(plan);
    }
    if !NeedsScaling(total, taken, Settings(0, a.thresholdPercentage.value, 0)) {
      return Enough(plan);
    }
    if a.maxLicenses == None || a.incrementPercentage == None {
      return MissingSettings(plan);
    }
    var settings := Settings(a.maxLicenses.value, a.thresholdPercentage.value, a.incrementPercentage.value);
    var toAdd := LicensesToAdd(total, settings);
    if dryRun {
      return WouldGrow(plan, toAdd);
    }
    var added := IncreaseNumLicenses(db, plan, toAdd);
    r := Grown(plan, added);
  }

  function Enabled(agreements: map<AgreementId, Agreement>): set<AgreementId> {
    set a | a in agreements && agreements[a].autoScaling
  }

  /** How many licenses the turns so far have added to a plan. */
  ghost function AddedTo(results: seq<Scaling>, plan: PlanId): nat {
    if results == [] then 0
    else
      var last := results[|results| - 1];
      AddedTo(results[..|results| - 1], plan) + if last.Grown? && last.plan == plan then |last.added| else 0
  }

  /** What the turns over some agreements did, each judged by the tables at the start. */
  ghost predicate TurnsDone(s: State, t: State, agreements: map<AgreementId, Agreement>, now: Time, dryRun: bool,
                            done: seq<AgreementId>, results: seq<Scaling>) {
    Judged(s, agreements, now, dryRun, done, results) && Grew(s, t, results)
  }

  ghost predicate Judged(s: State, agreements: map<AgreementId, Agreement>, now: Time, dryRun: bool,
                         done: seq<AgreementId>, results: seq<Scaling>) {
    && |results| == |done|
    && forall i :: 0 <= i < |done| ==>
         done[i] in agreements && OutcomeOf(s, agreements, done[i], now, dryRun, results[i])
  }

  ghost predicate Grew(s: State, t: State, results: seq<Scaling>) {
    && t.plans == s.plans
    && (forall p :: NumLicenses(t.licenses, p) == NumLicenses(s.licenses, p) + AddedTo(results, p)
                    && NumAllocated(t.licenses, p) == NumAllocated(s.licenses, p))
    && Reachable(s, t)
  }

  /** Plans belong to one agreement each, so no turn sees what another one added. */
  lemma {:induction false} NothingAddedYet(s: State, agreements: map<AgreementId, Agreement>, now: Time, dryRun: bool,
                                           done: seq<AgreementId>, results: seq<Scaling>, plan: PlanId)
    requires Judged(s, agreements, now, dryRun, done, results)
    requires plan in s.plans && s.plans[plan].agreement !in done
    ensures AddedTo(results, plan) == 0
  {
    if results == [] {
    } else {
      var n := |results| - 1;
      assert done[n] in done && OutcomeOf(s, agreements, done[n], now, dryRun, results[n]);
      NothingAddedYet(s, agreements, now, dryRun, done[..n], results[..n], plan);
    }
  }

  lemma AllocatedAfterIncrease(ls: Licenses, plan: PlanId, added: set<LicenseId>, p: PlanId)
    requires added !! ls.Keys
    ensures AllocatedIn(Increased(ls, plan, added), p) == AllocatedIn(ls, p)
  {
  }

  lemma OneMoreTurn(s: State, t: State, u: State, agreements: map<AgreementId, Agreement>, now: Time, dryRun: bool,
                    done: seq<AgreementId>, results: seq<Scaling>, next: AgreementId, r: Scaling)
    requires TurnsDone(s, t, agreements, now, dryRun, done, results) && next in agreements && next !in done
    requires OutcomeOf(t, agreements, next, now, dryRun, r)
    requires if r.Grown? then Step(t, Increase(r.plan, r.added), u) else u == t
    ensures TurnsDone(s, u, agreements, now, dryRun, done + [next], results + [r])
  {
    JudgedFromStart(s, t, agreements, now, dryRun, done, results, next, r);
    GrewMore(s, t, u, results, r);
  }

  lemma JudgedFromStart(s: State, t: State, agreements: map<AgreementId, Agreement>, now: Time, dryRun: bool,
                        done: seq<AgreementId>, results: seq<Scaling>, next: AgreementId, r: Scaling)
    requires TurnsDone(s, t, agreements, now, dryRun, done, results) && next in agreements && next !in done
    requires OutcomeOf(t, agreements, next, now, dryRun, r)
    ensures Judged(s, agreements, now, dryRun, done + [next], results + [r])
  {
    if !r.NoCurrentPlan? {
      NothingAddedYet(s, agreements, now, dryRun, done, results, r.plan);
    }
    assert OutcomeOf(s, agreements, next, now, dryRun, r);
  }

  lemma GrewMore(s: State, t: State, u: State, results: seq<Scaling>, r: Scaling)
    requires Grew(s, t, results)
    requires if r.Grown? then Step(t, Increase(r.plan, r.added), u) else u == t
    ensures Grew(s, u, results + [r])
  {
    assert (results + [r])[..|results|] == results;
    if r.Grown? {
      forall p
        ensures NumLicenses(u.licenses, p) == NumLicenses(s.licenses, p) + AddedTo(results + [r], p)
        ensures NumAllocated(u.licenses, p) == NumAllocated(s.licenses, p)
      {
        IncreaseTotals(t.licenses, r.plan, r.added, p);
        AllocatedAfterIncrease(t.licenses, r.plan, r.added, p);
      }
      ReachableStep(s, t, Increase(r.plan, r.added), u);
    }
  }

  /**
   `handle`: every agreement that has auto-scaling enabled gets one turn, and each turn is as if it were
   the only one; a missing setting ends the command, and what was added before stays.
   */
  method ScaleAll(db: Database, now: Time, dryRun: bool) returns (done: seq<AgreementId>, results: seq<Scaling>,
                  raised: bool)
    modifies db`licenses
    ensures TurnsDone(old(db.Snapshot()), db.Snapshot(), db.agreements, now, dryRun, done, results)
    ensures NoDup(done) && Elems(done) <= Enabled(db.agreements)
    ensures !raised ==> Elems(done) == Enabled(db.agreements)
    ensures forall a :: a in done ==> a in db.agreements && db.agreements[a].autoScaling
    ensures !raised ==> forall a :: a in db.agreements && db.agreements[a].autoScaling ==> a in done
    ensures forall i :: 0 <= i < |results| ==> (results[i].MissingSettings? <==> raised && i == |results| - 1)
    ensures raised ==> results != []
  {
    var rows := Query(Enabled(db.agreements));
    done, results := [], [];
    ghost var s := db.Snapshot();
    ReachableRefl(s);
    for i := 0 to |rows|
      invariant done == rows[..i] && TurnsDone(s, db.Snapshot(), db.agreements, now, dryRun, done, results)
      invariant forall j :: 0 <= j < i ==> !results[j].MissingSettings?
    {
      ghost var t := db.Snapshot();
      NextRow(rows, i);
      var r := ScaleAgreement(db, rows[i], now, dryRun);
      OneMoreTurn(s, t, db.Snapshot(), db.agreements, now, dryRun, done, results, rows[i], r);
      assert rows[..i + 1] == rows[..i] + [rows[i]];
      done, results := done + [rows[i]], results + [r];
      if r.MissingSettings? {
        PrefixOfRows(rows, i + 1);
        DoneByField(db.agreements, done);
        return done, results, true;
      }
    }
    assert rows[..|rows|] == rows;
    DoneByField(db.agreements, done);
    raised := false;
  }

  lemma DoneByField(agreements: map<AgreementId, Agreement>, done: seq<AgreementId>)
    requires Elems(done) <= Enabled(agreements)
    ensures forall a :: a in done ==> a in agreements && agreements[a].autoScaling
    ensures Elems(done) == Enabled(agreements) ==>
              forall a :: a in agreements && agreements[a].autoScaling ==> a in done
  {
    assert forall a :: a in done <==> a in Elems(done);
  }

  lemma PrefixOfRows(rows: seq<AgreementId>, n: nat)
    requires NoDup(rows) && n <= |rows|
    ensures NoDup(rows[..n]) && Elems(rows[..n]) <= Elems(rows)
  {
  }

  // ---- In terms of the settings -----------------------------------------------------------

  /** What a turn may add to `total` licenses, in whole numbers. */
  ghost predicate FitsIncrement(total: nat, limit: int, increment: int, n: int) {
    if total * increment > 100 * (limit - total) then n == limit - total
    else if total * increment >= 0 then 100 * n <= total * increment < 100 * (n + 1)
    else 100 * (n - 1) < total * increment <= 100 * n
  }

  /** Each outcome of a turn, told by the agreement's own fields and whole numbers. */
  lemma TurnInFields(total: nat, taken: nat, a: Agreement, dryRun: bool, r: Scaling)
    requires PlanOutcome(total, taken, a, dryRun, r)
    ensures r.Enough? <==>
            total > 0 && a.thresholdPercentage.Some? && 100 * taken <= a.thresholdPercentage.value * total
    ensures r.MissingSettings? <==>
            && total > 0
            && (a.thresholdPercentage == None
                || (100 * taken > a.thresholdPercentage.value * total
                    && (a.maxLicenses == None || a.incrementPercentage == None)))
    ensures r.WouldGrow? ==>
              && dryRun && a.maxLicenses.Some? && a.incrementPercentage.Some?
              && FitsIncrement(total, a.maxLicenses.value, a.incrementPercentage.value, r.extra)
    ensures r.Grown? ==>
              && !dryRun && a.maxLicenses.Some? && a.incrementPercentage.Some?
              && exists n :: FitsIncrement(total, a.maxLicenses.value, a.incrementPercentage.value, n)
                             && |r.added| == if n > 0 then n else 0
  {
    if total > 0 && a.thresholdPercentage.Some? {
      ActsIffOverThreshold(total, taken, Settings(0, a.thresholdPercentage.value, 0));
    }
    var settings := SettingsOf(a);
    if settings.Some? {
      AddedIsTruncatedWithinLimit(total, settings.value);
      assert FitsIncrement(total, a.maxLicenses.value, a.incrementPercentage.value,
                           LicensesToAdd(total, settings.value));
    }
  }

  /** The plan of a turn: of the agreement, active, current, and none such started later. */
  lemma TurnIsOnCurrentPlan(s: State, agreements: map<AgreementId, Agreement>, agreement: AgreementId, now: Time,
                            dryRun: bool, r: Scaling, p: PlanId)
    requires agreement in agreements && OutcomeOf(s, agreements, agreement, now, dryRun, r)
    requires p in s.plans && s.plans[p].agreement == agreement && s.plans[p].isActive
    requires !(now < s.plans[p].startDate) && !(s.plans[p].expirationDate < now)
    ensures !r.NoCurrentPlan? && r.plan in s.plans && s.plans[p].startDate <= s.plans[r.plan].startDate
    ensures s.plans[r.plan].agreement == agreement && s.plans[r.plan].isActive
    ensures s.plans[r.plan].startDate <= now && now <= s.plans[r.plan].expirationDate
  {
    assert p in CurrentPlans(s.plans, agreement, now);
  }
}
