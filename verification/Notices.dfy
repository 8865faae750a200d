/**
 The two commands that mail learners about the end of a plan. Both page through the
 licenses still to be mailed and mark each batch as soon as it was delivered, so the
 set they page over shrinks between one page and the next.
 */
module Notices {
  import opened Collections
  import opened Licensing
  import opened Paging

  datatype Kind = ExpirationReminder | PlanExpired

  /** Which mails, for which customer, about plans that expire in `[from, to)`. */
  datatype Job = Job(kind: Kind, customer: AgreementId, from: Time, to: Time)

  predicate NotSent(kind: Kind, row: License) {
    match kind
    case ExpirationReminder => row.reminderSent == None
    case PlanExpired => row.planExpirationSent == None
  }

  function Mark(kind: Kind, row: License, now: Time): License {
    match kind
    case ExpirationReminder => row.(reminderSent := Some(now))
    case PlanExpired => row.(planExpirationSent := Some(now))
  }

  /** The base queryset of the command. */
  function ToMail(job: Job, plans: Plans, ls: Licenses): set<LicenseId> {
    set id | id in ls && ls[id].status == Status.Activated && ls[id].plan in plans
             && plans[ls[id].plan].agreement == job.customer
             && job.from <= plans[ls[id].plan].expirationDate < job.to && NotSent(job.kind, ls[id])
  }

  function Marked(job: Job, ls: Licenses, ids: set<LicenseId>, now: Time): Licenses {
    map id | id in ls :: if id in ids then Mark(job.kind, ls[id], now) else ls[id]
  }

  datatype Delivery = Delivered | Refused | Crashed
  datatype Batch = Batch(rows: seq<LicenseId>, delivery: Delivery)

  datatype Result =
    | NothingToDo
    | CustomerLookupFailed
    | Misconfigured
    | DryRun(pages: seq<seq<LicenseId>>)
    | Processed(batches: seq<Batch>, successCount: nat, failureCount: nat)

  /** No batch is empty or larger than asked for. */
  ghost predicate Sized(batches: seq<Batch>, size: nat) {
    forall i :: 0 <= i < |batches| ==> 1 <= |batches[i].rows| <= size
  }

  ghost function RowsOf(batches: seq<Batch>): seq<LicenseId> {
    if batches == [] then [] else RowsOf(batches[..|batches| - 1]) + batches[|batches| - 1].rows
  }

  /** The licenses whose batch was delivered. */
  ghost function DeliveredIn(batches: seq<Batch>): seq<LicenseId> {
    if batches == [] then []
    else DeliveredIn(batches[..|batches| - 1])
         + if batches[|batches| - 1].delivery == Delivered then batches[|batches| - 1].rows else []
  }

  lemma BatchAppend(batches: seq<Batch>, last: Batch)
    ensures RowsOf(batches + [last]) == RowsOf(batches) + last.rows
    ensures DeliveredIn(batches + [last])
            == DeliveredIn(batches) + if last.delivery == Delivered then last.rows else []
  {
    assert (batches + [last])[..|batches|] == batches;
  }

  lemma {:induction false} DeliveredAreRows(batches: seq<Batch>)
    ensures forall id :: id in DeliveredIn(batches) ==> id in RowsOf(batches)
    ensures |DeliveredIn(batches)| <= |RowsOf(batches)|
  {
    if batches == [] {
    } else {
      DeliveredAreRows(batches[..|batches| - 1]);
    }
  }

  /** What holds once the batches so far are through. */
  ghost predicate Progress(job: Job, plans: Plans, before: Licenses, after: Licenses, now: Time,
                           batches: seq<Batch>, successCount: nat, failureCount: nat) {
    var keys := InKeyOrder(ToMail(job, plans, before));
    var rows := RowsOf(batches);
    && |rows| <= |keys| && rows == keys[..|rows|]
    && after == Marked(job, before, Elems(DeliveredIn(batches)), now)
    && successCount == |DeliveredIn(batches)| && successCount + failureCount == |rows|
  }

  lemma MarkedDropOut(job: Job, plans: Plans, ls: Licenses, ids: set<LicenseId>, now: Time)
    ensures ToMail(job, plans, Marked(job, ls, ids, now)) == ToMail(job, plans, ls) - ids
  {
  }

  /** The next page, read after earlier batches were marked, is the next stretch of the original keys. */
  lemma NextPage(job: Job, plans: Plans, before: Licenses, after: Licenses, now: Time,
                 batches: seq<Batch>, successCount: nat, failureCount: nat, size: nat)
    requires Progress(job, plans, before, after, now, batches, successCount, failureCount)
    ensures var keys := InKeyOrder(ToMail(job, plans, before));
            var n := |RowsOf(batches)|;
            Page(ToMail(job, plans, after), OffsetAt(keys, n), size) == Take(keys[n..], size)
  {
    var matching := ToMail(job, plans, before);
    var keys := InKeyOrder(matching);
    var n := |RowsOf(batches)|;
    var done := Elems(DeliveredIn(batches));
    MarkedDropOut(job, plans, before, done, now);
    DeliveredAreRows(batches);
    ProcessedLieBefore(matching, n);
    assert done <= Elems(keys[..n]);
    assert After(matching - done, OffsetAt(keys, n)) == After(matching, OffsetAt(keys, n));
    PageIsNextStretch(matching, matching - done, n, size);
  }

  lemma BatchProgress(job: Job, plans: Plans, before: Licenses, after: Licenses, now: Time,
                      batches: seq<Batch>, successCount: nat, failureCount: nat, last: Batch)
    requires Progress(job, plans, before, after, now, batches, successCount, failureCount)
    requires var keys := InKeyOrder(ToMail(job, plans, before));
             var n := |RowsOf(batches)|;
             n + |last.rows| <= |keys| && last.rows == keys[n..n + |last.rows|]
    ensures if last.delivery == Delivered then
              Progress(job, plans, before, Marked(job, after, Elems(last.rows), now), now,
                       batches + [last], successCount + |last.rows|, failureCount)
            else
              Progress(job, plans, before, after, now, batches + [last], successCount, failureCount + |last.rows|)
  {
    var keys := InKeyOrder(ToMail(job, plans, before));
    var n := |RowsOf(batches)|;
    BatchAppend(batches, last);
    assert keys[..n] + last.rows == keys[..n + |last.rows|];
    if last.delivery == Delivered {
      var done := DeliveredIn(batches);
      assert Elems(done + last.rows) == Elems(done) + Elems(last.rows);
      MarkedTwice(job, before, Elems(done), Elems(last.rows), now);
    }
  }

  lemma MarkedTwice(job: Job, ls: Licenses, a: set<LicenseId>, b: set<LicenseId>, now: Time)
    ensures Marked(job, Marked(job, ls, a, now), b, now) == Marked(job, ls, a + b, now)
  {
    var twice, once := Marked(job, Marked(job, ls, a, now), b, now), Marked(job, ls, a + b, now);
    assert twice.Keys == once.Keys;
    assert forall id :: id in twice ==> twice[id] == once[id];
  }

  /** Marks a delivered batch and writes it in bulk. */
  method MarkBatch(ls: Licenses, job: Job, rows: seq<LicenseId>, now: Time) returns (after: Licenses)
    requires forall id :: id in rows ==> id in ls
    ensures after == Marked(job, ls, Elems(rows), now)
  {
    after := ls;
    for i := 0 to |rows|
      invariant after.Keys == ls.Keys
      invariant forall id :: id in ls ==> after[id] == if id in rows[..i] then Mark(job.kind, ls[id], now) else ls[id]
    {
      assert rows[..i + 1] == rows[..i] + [rows[i]];
      after := after[rows[i] := Mark(job.kind, after[rows[i]], now)];
    }
    assert rows[..|rows|] == rows;
  }

  /** The dry run reads the same pages without marking anything. */
  method ListPages(matching: set<LicenseId>, size: nat) returns (pages: seq<seq<LicenseId>>)
    requires size > 0
    ensures Flatten(pages) == InKeyOrder(matching)
    ensures forall i :: 0 <= i < |pages| ==> 1 <= |pages[i]| <= size
  {
    pages := [];
    ghost var keys := InKeyOrder(matching);
    ghost var n := 0;
    PageIsNextStretch(matching, matching, 0, size);
    assert keys[0..] == keys;
    var page := FetchPage(matching, None, size);
    while page != []
      invariant n <= |keys| && Flatten(pages) == keys[..n] && page == Take(keys[n..], size)
      invariant forall i :: 0 <= i < |pages| ==> 1 <= |pages[i]| <= size
      decreases |keys| - n
    {
      FlattenAppend(pages, page);
      TakeNext(keys, n, size);
      pages := pages + [page];
      n := n + |page|;
      PageIsNextStretch(matching, matching, n, size);
      page := FetchPage(matching, Some(page[|page| - 1]), size);
    }
    assert keys[..|keys|] == keys;
  }

  /** An activated license of the customer, in a plan that ends in the window, without this mail. */
  ghost predicate Waiting(job: Job, plans: Plans, ls: Licenses, id: LicenseId) {
    && id in ls && ls[id].status == Status.Activated && ls[id].plan in plans
    && plans[ls[id].plan].agreement == job.customer
    && !(plans[ls[id].plan].expirationDate < job.from) && !(job.to <= plans[ls[id].plan].expirationDate)
    && match job.kind
       case ExpirationReminder => ls[id].reminderSent == None
       case PlanExpired => ls[id].planExpirationSent == None
  }

  lemma MailedAreWaiting(job: Job, plans: Plans, ls: Licenses)
    ensures forall id :: id in ToMail(job, plans, ls) <==> Waiting(job, plans, ls, id)
    ensures forall id :: id in InKeyOrder(ToMail(job, plans, ls)) <==> Waiting(job, plans, ls, id)
    ensures ToMail(job, plans, ls) == {} <==> forall id :: !Waiting(job, plans, ls, id)
  {
    forall id
      ensures id in InKeyOrder(ToMail(job, plans, ls)) <==> id in ToMail(job, plans, ls)
    {
      assert id in InKeyOrder(ToMail(job, plans, ls)) <==> id in Elems(InKeyOrder(ToMail(job, plans, ls)));
    }
  }

  /** Run again, the command mails those whose batch was not delivered, and the other command is not affected. */
  lemma RerunMailsTheRest(job: Job, plans: Plans, ls: Licenses, delivered: set<LicenseId>, now: Time, id: LicenseId)
    ensures Waiting(job, plans, Marked(job, ls, delivered, now), id) <==>
            Waiting(job, plans, ls, id) && id !in delivered
    ensures forall other: Job :: other.kind != job.kind ==>
              (Waiting(other, plans, Marked(job, ls, delivered, now), id) <==> Waiting(other, plans, ls, id))
  {
  }

  /**
   `_process_enterprise_customer`: every license waiting at the start is in exactly one batch, in
   key order, whatever the batch size and whichever batches fail; exactly the delivered ones are marked.
   */
  method ProcessCustomer(db: Database, job: Job, size: nat, now: Time, dryRun: bool, lookupOk: bool, configured: bool)
    returns (r: Result)
    requires size > 0
    modifies db`licenses
    ensures r.NothingToDo? <==> ToMail(job, db.plans, old(db.licenses)) == {}
    ensures r.DryRun? ==> Flatten(r.pages) == InKeyOrder(ToMail(job, db.plans, old(db.licenses)))
                          && forall i :: 0 <= i < |r.pages| ==> 1 <= |r.pages[i]| <= size
    ensures !r.NothingToDo? ==>
              if dryRun then r.DryRun? else if !lookupOk then r.CustomerLookupFailed?
              else if !configured then r.Misconfigured? else r.Processed?
    ensures !r.Processed? ==> db.licenses == old(db.licenses)
    ensures r.NothingToDo? <==> forall id :: !Waiting(job, db.plans, old(db.licenses), id)
    ensures r.Processed? ==>
              && (forall id :: id in RowsOf(r.batches) <==> Waiting(job, db.plans, old(db.licenses), id))
              && db.licenses.Keys == old(db.licenses).Keys
              && forall id :: id in db.licenses ==>
                   db.licenses[id] ==
                   if id !in DeliveredIn(r.batches) then old(db.licenses)[id]
                   else if job.kind.ExpirationReminder? then old(db.licenses)[id].(reminderSent := Some(now))
                   else old(db.licenses)[id].(planExpirationSent := Some(now))
    ensures r.Processed? ==>
              && Sized(r.batches, size)
              && RowsOf(r.batches) == InKeyOrder(ToMail(job, db.plans, old(db.licenses)))
              && db.licenses == Marked(job, old(db.licenses), Elems(DeliveredIn(r.batches)), now)
              && r.successCount == |DeliveredIn(r.batches)|
              && r.successCount + r.failureCount == |ToMail(job, db.plans, old(db.licenses))|
  {
    ghost var before := db.licenses;
    ghost var keys := InKeyOrder(ToMail(job, db.plans, before));
    AscendingEnumerates(keys);
    MailedAreWaiting(job, db.plans, before);
    if |ToMail(job, db.plans, db.licenses)| == 0 {
      return NothingToDo;
    }
    if dryRun {
      var pages := ListPages(ToMail(job, db.plans, db.licenses), size);
      return DryRun(pages);
    }
    if !lookupOk {
      return CustomerLookupFailed;
    }
    if !configured {
      return Misconfigured;
    }
    r := SendAll(db, job, size, now);
    assert keys[..|keys|] == keys;
  }

  /** The batch loop. */
  method SendAll(db: Database, job: Job, size: nat, now: Time) returns (r: Result)
    requires size > 0
    modifies db`licenses
    ensures r.Processed? && Sized(r.batches, size)
    ensures Progress(job, db.plans, old(db.licenses), db.licenses, now, r.batches, r.successCount, r.failureCount)
    ensures |RowsOf(r.batches)| == |InKeyOrder(ToMail(job, db.plans, old(db.licenses)))|
  {
    ghost var before := db.licenses;
    ghost var keys := InKeyOrder(ToMail(job, db.plans, before));
    var batches: seq<Batch>, successCount: nat, failureCount: nat := [], 0, 0;
    assert Marked(job, before, {}, now) == before;
    assert Progress(job, db.plans, before, db.licenses, now, batches, 0, 0);
    NextPage(job, db.plans, before, db.licenses, now, batches, 0, 0, size);
    var page := FetchPage(ToMail(job, db.plans, db.licenses), None, size);
    while page != []
      invariant Progress(job, db.plans, before, db.licenses, now, batches, successCount, failureCount)
      invariant page == Take(keys[|RowsOf(batches)|..], size) && Sized(batches, size)
      decreases |keys| - |RowsOf(batches)|
    {
      ghost var n := |RowsOf(batches)|;
      TakeNext(keys, n, size);
      batches, successCount, failureCount :=
        SendBatch(db, job, page, now, batches, successCount, failureCount, before);
      NextPage(job, db.plans, before, db.licenses, now, batches, successCount, failureCount, size);
      page := FetchPage(ToMail(job, db.plans, db.licenses), Some(page[|page| - 1]), size);
    }
    r := Processed(batches, successCount, failureCount);
  }

  /** One turn of the loop: sends a page, and marks it if it was delivered. */
  method SendBatch(db: Database, job: Job, page: seq<LicenseId>, now: Time,
                   sent: seq<Batch>, successes: nat, failures: nat, ghost before: Licenses)
    returns (batches: seq<Batch>, successCount: nat, failureCount: nat)
    requires Progress(job, db.plans, before, db.licenses, now, sent, successes, failures)
    requires var keys := InKeyOrder(ToMail(job, db.plans, before));
             var n := |RowsOf(sent)|;
             n + |page| <= |keys| && page == keys[n..n + |page|]
    modifies db`licenses
    ensures Progress(job, db.plans, before, db.licenses, now, batches, successCount, failureCount)
    ensures |RowsOf(batches)| == |RowsOf(sent)| + |page|
    ensures exists delivery :: batches == sent + [Batch(page, delivery)]
  {
    var delivery: Delivery := *;
    var batch := Batch(page, delivery);
    BatchAppend(sent, batch);
    PageIsStored(job, db.plans, before, |RowsOf(sent)|, page);
    BatchProgress(job, db.plans, before, db.licenses, now, sent, successes, failures, batch);
    batches, successCount, failureCount := sent + [batch], successes, failures;
    if delivery == Delivered {
      db.licenses := MarkBatch(db.licenses, job, page, now);
      successCount := successCount + |page|;
    } else {
      failureCount := failureCount + |page|;
    }
  }

  lemma PageIsStored(job: Job, plans: Plans, ls: Licenses, n: nat, page: seq<LicenseId>)
    requires n + |page| <= |InKeyOrder(ToMail(job, plans, ls))|
    requires page == InKeyOrder(ToMail(job, plans, ls))[n..n + |page|]
    ensures forall id :: id in page ==> id in ls
  {
    forall id | id in page
      ensures id in ls
    {
      assert id in Elems(InKeyOrder(ToMail(job, plans, ls)));
    }
  }
}
