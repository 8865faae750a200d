/**
 Mailing administrators when a plan's utilization reaches a threshold, for any
 descending list of thresholds with a notification type of its own each.
 */
module UtilizationNotices {
  import opened Collections
  import opened Licensing

  type AdminId = nat

  datatype Threshold = Threshold(level: real, notice: nat)
  datatype Notification = Notification(plan: PlanId, admin: AdminId, notice: nat)

  ghost predicate WellFormed(ts: seq<Threshold>) {
    && (forall i, j :: 0 <= i < j < |ts| ==> ts[i].level > ts[j].level)
    && (forall i, j :: 0 <= i < j < |ts| ==> ts[i].notice != ts[j].notice)
  }

  const LICENSE_UTILIZATION_THRESHOLDS := [Threshold(1.0, 0), Threshold(0.75, 1)]

  predicate Reached(active: nat, total: nat, t: Threshold)
    requires total > 0
  {
    active as real / total as real >= t.level
  }

  /** `i` is the highest threshold reached. */
  ghost predicate Highest(active: nat, total: nat, ts: seq<Threshold>, i: nat) {
    && total > 0 && i < |ts| && Reached(active, total, ts[i])
    && forall j :: 0 <= j < |ts| && ts[j].level > ts[i].level ==> !Reached(active, total, ts[j])
  }

  /** `highest_utilization_threshold_reached` */
  method HighestReached(active: nat, total: nat, ts: seq<Threshold>) returns (r: Option<nat>)
    requires WellFormed(ts)
    ensures r == None <==> total == 0 || forall i :: 0 <= i < |ts| ==> !Reached(active, total, ts[i])
    ensures r.Some? ==> Highest(active, total, ts, r.value)
  {
    if total == 0 {
      return None;
    }
    for i := 0 to |ts|
      invariant forall j :: 0 <= j < i ==> !Reached(active, total, ts[j])
    {
      if Reached(active, total, ts[i]) {
        return Some(i);
      }
    }
    r := None;
  }

  /** A notification of this threshold, or of a higher one, is on record for the plan. */
  ghost predicate SentBefore(records: seq<Notification>, plan: PlanId, ts: seq<Threshold>, i: nat)
    requires i < |ts|
  {
    exists n, j :: n in records && 0 <= j < |ts| && ts[j].level >= ts[i].level
      && n.plan == plan && n.notice == ts[j].notice
  }

  function Records(plan: PlanId, notice: nat, admins: seq<AdminId>): seq<Notification> {
    seq(|admins|, i requires 0 <= i < |admins| => Notification(plan, admins[i], notice))
  }

  /** One run of the task: the utilization it finds, the administrators, and whether the mail goes out. */
  datatype Check = Check(plan: PlanId, active: nat, total: nat, admins: seq<AdminId>, delivered: bool)

  /** The task mails the administrators about threshold `i`. */
  ghost predicate Announces(records: seq<Notification>, ts: seq<Threshold>, c: Check, i: nat) {
    && Highest(c.active, c.total, ts, i)
    && !SentBefore(records, c.plan, ts, i)
    && c.admins != [] && c.delivered
  }

  /** What a run of the task leaves on record. */
  ghost predicate CheckStep(records: seq<Notification>, ts: seq<Threshold>, c: Check, after: seq<Notification>) {
    && (forall i: nat :: Announces(records, ts, c, i) ==> after == records + Records(c.plan, ts[i].notice, c.admins))
    && ((forall i: nat :: !Announces(records, ts, c, i)) ==> after == records)
  }

  class NotificationLog {
    var records: seq<Notification>

    constructor ()
      ensures records == []
    {
      records := [];
    }

    /** `send_utilization_threshold_reached_email_task`: returns the announced threshold, if any. */
    method CheckUtilization(ts: seq<Threshold>, c: Check) returns (announced: Option<nat>)
      requires WellFormed(ts)
      modifies this
      ensures announced == None ==> forall i: nat :: !Announces(old(records), ts, c, i)
      ensures announced.Some? ==> Announces(old(records), ts, c, announced.value)
      ensures CheckStep(old(records), ts, c, records)
    {
      HighestIsUnique(c.active, c.total, ts);
      var highest := HighestReached(c.active, c.total, ts);
      if highest == None {
        return None;
      }
      var i := highest.value;
      var sent := HasBeenSent(records, c.plan, ts, i);
      if sent {
        return None;
      }
      var saved := records;
      records := RecordAll(records, c.plan, ts[i].notice, c.admins);
      if c.admins == [] {
        assert records == saved;
        return None;
      }
      if !c.delivered {
        records := saved;
        return None;
      }
      announced := Some(i);
      assert Announces(saved, ts, c, i);
    }
  }

  /** The query for notifications of the current and higher thresholds. */
  method HasBeenSent(records: seq<Notification>, plan: PlanId, ts: seq<Threshold>, i: nat) returns (sent: bool)
    requires i < |ts|
    ensures sent <==> SentBefore(records, plan, ts, i)
  {
    var choices := set t | t in ts && t.level >= ts[i].level :: t.notice;
    var before := set n | n in records && n.plan == plan && n.notice in choices;
    sent := before != {};
    if sent {
      var n :| n in before;
      var t :| t in ts && t.level >= ts[i].level && t.notice == n.notice;
      var j :| 0 <= j < |ts| && ts[j] == t;
    }
    if SentBefore(records, plan, ts, i) {
      ghost var n, j :| n in records && 0 <= j < |ts| && ts[j].level >= ts[i].level
                        && n.plan == plan && n.notice == ts[j].notice;
      assert ts[j] in ts;
      assert n in before;
    }
  }

  /** One notification row for each administrator. */
  method RecordAll(records: seq<Notification>, plan: PlanId, notice: nat, admins: seq<AdminId>)
    returns (after: seq<Notification>)
    ensures after == records + Records(plan, notice, admins)
  {
    after := records;
    for k := 0 to |admins|
      invariant after == records + Records(plan, notice, admins[..k])
    {
      assert Records(plan, notice, admins[..k + 1])
          == Records(plan, notice, admins[..k]) + [Notification(plan, admins[k], notice)];
      after := after + [Notification(plan, admins[k], notice)];
    }
    assert admins[..|admins|] == admins;
  }

  lemma HighestIsUnique(active: nat, total: nat, ts: seq<Threshold>)
    requires WellFormed(ts)
    ensures forall i: nat, j: nat | Highest(active, total, ts, i) && Highest(active, total, ts, j) :: i == j
  {
  }

  // ---- Over any run ------------------------------------------------------------------

  /** Checks of any plans in any order; licenses may change freely in between. */
  ghost predicate Checks(run: seq<seq<Notification>>, ts: seq<Threshold>, checks: seq<Check>) {
    && |run| == |checks| + 1
    && forall k :: 0 <= k < |checks| ==> CheckStep(run[k], ts, checks[k], run[k + 1])
  }

  lemma {:induction false} RecordsStay(run: seq<seq<Notification>>, ts: seq<Threshold>, checks: seq<Check>, k: nat,
                                       m: nat)
    requires WellFormed(ts) && Checks(run, ts, checks) && k <= m < |run|
    ensures forall n :: n in run[k] ==> n in run[m]
    decreases m - k
  {
    if k == m {
    } else {
      RecordsStay(run, ts, checks, k, m - 1);
      assert CheckStep(run[m - 1], ts, checks[m - 1], run[m]);
    }
  }

  /** The thresholds announced for one plan strictly increase: none comes twice, or after a higher one. */
  lemma AnnouncementsIncrease(run: seq<seq<Notification>>, ts: seq<Threshold>, checks: seq<Check>, k: nat, m: nat,
                              i: nat, j: nat)
    requires WellFormed(ts) && Checks(run, ts, checks)
    requires k < m < |checks| && checks[k].plan == checks[m].plan
    requires Announces(run[k], ts, checks[k], i) && Announces(run[m], ts, checks[m], j)
    ensures ts[i].level < ts[j].level
  {
    var plan := checks[k].plan;
    var n := Notification(plan, checks[k].admins[0], ts[i].notice);
    assert CheckStep(run[k], ts, checks[k], run[k + 1]);
    assert n == Records(plan, ts[i].notice, checks[k].admins)[0];
    assert n in run[k + 1];
    RecordsStay(run, ts, checks, k + 1, m);
  }

  lemma SourceThresholdsAreWellFormed()
    ensures WellFormed(LICENSE_UTILIZATION_THRESHOLDS)
  {
  }

  /** With the configured thresholds: all licenses allocated, three quarters of them, or no mail. */
  lemma SourceThresholdsInWholeNumbers(active: nat, total: nat, i: nat)
    requires i < |LICENSE_UTILIZATION_THRESHOLDS|
    ensures Highest(active, total, LICENSE_UTILIZATION_THRESHOLDS, i) <==>
            && total > 0
            && if active >= total then i == 0 else 4 * active >= 3 * total && i == 1
  {
    var ts := LICENSE_UTILIZATION_THRESHOLDS;
    if total > 0 {
      ReachedIff(active, total, 1.0);
      ReachedIff(active, total, 0.75);
      assert Reached(active, total, ts[0]) <==> active >= total;
      assert Reached(active, total, ts[1]) <==> 4 * active >= 3 * total;
    }
  }

  lemma ReachedIff(active: nat, total: nat, level: real)
    requires total > 0
    ensures Reached(active, total, Threshold(level, 0)) <==> active as real >= level * total as real
  {
    var share, n := active as real / total as real, total as real;
    assert share * n == active as real;
    if share >= level {
      assert (share - level) * n >= 0.0;
    } else {
      assert (level - share) * n > 0.0;
    }
  }
}
