/**
 License transfer jobs: moving licenses from one plan to another, in chunks, or
 reporting in a dry run what would move.
 */
module Transfer {
  import opened Collections
  import opened Licensing

  const CHUNK_SIZE := 100

  datatype RunRecord = RunRecord(dryRun: bool, modified: seq<LicenseId>, at: Time)

  /** The licenses a job may move: all of the old plan, or the active ones among those listed. */
  function Eligible(ls: Licenses, oldPlan: PlanId, all: bool, listed: set<LicenseId>): set<LicenseId> {
    set id | id in ls && ls[id].plan == oldPlan && (all || (ls[id].Active() && id in listed))
  }

  function Moved(ls: Licenses, ids: set<LicenseId>, newPlan: PlanId): Licenses {
    map id | id in ls :: if id in ids then ls[id].(plan := newPlan) else ls[id]
  }

  /** The order in which the database returns the rows of a query. */
  type RowOrder = set<LicenseId> -> seq<LicenseId>

  ghost predicate IsOrder(order: RowOrder) {
    forall ids: set<LicenseId> :: Enumerates(order(ids), ids)
  }

  /** What the queries for some chunks return, one after the other, if nothing moves in between. */
  ghost function Listed(ls: Licenses, oldPlan: PlanId, order: RowOrder, chunks: seq<seq<LicenseId>>): seq<LicenseId> {
    if chunks == [] then []
    else Listed(ls, oldPlan, order, chunks[..|chunks| - 1])
         + order(Eligible(ls, oldPlan, false, Elems(chunks[|chunks| - 1])))
  }

  /** No eligible license is listed in two chunks. */
  ghost predicate ChunksApart(ls: Licenses, oldPlan: PlanId, chunks: seq<seq<LicenseId>>) {
    forall i, j :: 0 <= i < j < |chunks| ==>
      Eligible(ls, oldPlan, false, Elems(chunks[i])) !! Eligible(ls, oldPlan, false, Elems(chunks[j]))
  }

  /** What a job reports if it only looks. */
  ghost function Report(ls: Licenses, oldPlan: PlanId, all: bool, uuids: seq<LicenseId>,
                        order: RowOrder): seq<LicenseId> {
    if all then order(Eligible(ls, oldPlan, true, {})) else Listed(ls, oldPlan, order, Chunked(uuids, CHUNK_SIZE))
  }

  lemma {:induction false} ListedAre(ls: Licenses, oldPlan: PlanId, order: RowOrder,
                                      chunks: seq<seq<LicenseId>>, id: LicenseId)
    requires IsOrder(order)
    ensures id in Elems(Listed(ls, oldPlan, order, chunks)) <==>
            exists i :: 0 <= i < |chunks| && id in Eligible(ls, oldPlan, false, Elems(chunks[i]))
  {
    if chunks == [] {
    } else {
      var done, rows := chunks[..|chunks| - 1], Eligible(ls, oldPlan, false, Elems(chunks[|chunks| - 1]));
      ListedAre(ls, oldPlan, order, done, id);
      assert Enumerates(order(rows), rows);
      ElemsConcat(Listed(ls, oldPlan, order, done), order(rows));
      assert forall i :: 0 <= i < |done| ==> done[i] == chunks[i];
    }
  }

  /** A look lists no license twice exactly if the chunks are apart, whatever order the rows come in. */
  lemma {:induction false} ListsOnceIffApart(ls: Licenses, oldPlan: PlanId, order: RowOrder,
                                              chunks: seq<seq<LicenseId>>)
    requires IsOrder(order)
    ensures NoDup(Listed(ls, oldPlan, order, chunks)) <==> ChunksApart(ls, oldPlan, chunks)
  {
    if chunks == [] {
    } else {
      var done, rows := chunks[..|chunks| - 1], Eligible(ls, oldPlan, false, Elems(chunks[|chunks| - 1]));
      var listed := Listed(ls, oldPlan, order, done);
      ListsOnceIffApart(ls, oldPlan, order, done);
      assert Enumerates(order(rows), rows);
      LastChunkApart(ls, oldPlan, order, chunks);
      if NoDup(listed + order(rows)) {
        NoDupParts(listed, order(rows));
      }
      if NoDup(listed) && Elems(listed) !! rows {
        ApartConcat(listed, order(rows));
      }
    }
  }

  lemma LastChunkApart(ls: Licenses, oldPlan: PlanId, order: RowOrder, chunks: seq<seq<LicenseId>>)
    requires IsOrder(order) && chunks != []
    ensures var done, last := chunks[..|chunks| - 1], chunks[|chunks| - 1];
            ChunksApart(ls, oldPlan, chunks) <==>
            ChunksApart(ls, oldPlan, done)
            && Elems(Listed(ls, oldPlan, order, done)) !! Eligible(ls, oldPlan, false, Elems(last))
  {
    var done, rows := chunks[..|chunks| - 1], Eligible(ls, oldPlan, false, Elems(chunks[|chunks| - 1]));
    assert forall i :: 0 <= i < |done| ==> done[i] == chunks[i];
    if Elems(Listed(ls, oldPlan, order, done)) !! rows {
      forall i | 0 <= i < |done|
        ensures Eligible(ls, oldPlan, false, Elems(chunks[i])) !! rows
      {
        forall id | id in Eligible(ls, oldPlan, false, Elems(done[i]))
          ensures id in Elems(Listed(ls, oldPlan, order, done))
        {
          ListedAre(ls, oldPlan, order, done, id);
        }
      }
    } else {
      var id :| id in Elems(Listed(ls, oldPlan, order, done)) && id in rows;
      ListedAre(ls, oldPlan, order, done, id);
      var i :| 0 <= i < |done| && id in Eligible(ls, oldPlan, false, Elems(done[i]));
      assert id in Eligible(ls, oldPlan, false, Elems(chunks[i]));
    }
  }

  class LicenseTransferJob {
    const oldPlan: PlanId
    const newPlan: PlanId
    const dryRun: bool
    const transferAll: bool
    const uuids: seq<LicenseId>
    var completedAt: Option<Time>
    var processedResults: seq<RunRecord>

    constructor (oldPlan: PlanId, newPlan: PlanId, dryRun: bool, transferAll: bool, uuids: seq<LicenseId>)
      ensures this.oldPlan == oldPlan && this.newPlan == newPlan && this.dryRun == dryRun
      ensures this.transferAll == transferAll && this.uuids == uuids
      ensures completedAt == None && processedResults == []
    {
      this.oldPlan, this.newPlan, this.dryRun := oldPlan, newPlan, dryRun;
      this.transferAll, this.uuids := transferAll, uuids;
      completedAt, processedResults := None, [];
    }

    /** The job asks for this license: any of the old plan, or an assigned or activated one that is listed. */
    ghost predicate IsToMove(row: License, id: LicenseId) {
      row.plan == oldPlan && (!transferAll ==> row.status in {Status.Assigned, Status.Activated} && id in uuids)
    }

    function ToTransfer(ls: Licenses): set<LicenseId> {
      Eligible(ls, oldPlan, transferAll, set id | id in uuids)
    }

    /**
     `process`: a real run moves exactly the eligible licenses; a dry run reports the same ones, and
     the same list exactly if no eligible license is listed twice (or the job would move nothing).
     */
    method Process(db: Database, order: RowOrder, now: Time)
      requires IsOrder(order)
      modifies this, db`licenses
      ensures old(completedAt).Some? ==>
                db.licenses == old(db.licenses) && completedAt == old(completedAt)
                && processedResults == old(processedResults)
      ensures old(completedAt) == None ==>
                && completedAt == (if dryRun then None else Some(now))
                && db.licenses == (if dryRun then old(db.licenses)
                                   else Moved(old(db.licenses), ToTransfer(old(db.licenses)), newPlan))
                && db.licenses.Keys == old(db.licenses).Keys
                && (forall id :: id in db.licenses ==>
                      db.licenses[id] ==
                      if !dryRun && IsToMove(old(db.licenses)[id], id)
                      then old(db.licenses)[id].(plan := newPlan) else old(db.licenses)[id])
                && |processedResults| == |old(processedResults)| + 1 && old(processedResults) <= processedResults
                && var record := processedResults[|old(processedResults)|];
                   record.dryRun == dryRun && record.at == now
                   && Elems(record.modified) == ToTransfer(old(db.licenses))
                   && (transferAll || NoDup(uuids) || (!dryRun && oldPlan != newPlan) ==> NoDup(record.modified))
                   && var report := Report(old(db.licenses), oldPlan, transferAll, uuids, order);
                      record.modified == report <==>
                        || dryRun || oldPlan == newPlan || transferAll
                        || ChunksApart(old(db.licenses), oldPlan, Chunked(uuids, CHUNK_SIZE))
    {
      if completedAt.Some? {
        return;
      }
      var moved: seq<LicenseId>;
      if transferAll {
        moved := order(Eligible(db.licenses, oldPlan, true, {}));
        assert Eligible(db.licenses, oldPlan, true, {}) == ToTransfer(db.licenses);
        assert Enumerates(moved, ToTransfer(db.licenses));
        if !dryRun {
          var after := MoveRows(db.licenses, moved, newPlan);
          db.licenses := after;
        }
      } else {
        ListsOnceIffApart(db.licenses, oldPlan, order, Chunked(uuids, CHUNK_SIZE));
        moved := TransferChunks(db, oldPlan, newPlan, dryRun, uuids, order);
        assert Elems(uuids) == set id | id in uuids;
      }
      if !dryRun {
        completedAt := Some(now);
      }
      processedResults := processedResults + [RunRecord(dryRun, moved, now)];
    }
  }

  /** Sets the plan of each row, then writes them in bulk. */
  method MoveRows(ls: Licenses, rows: seq<LicenseId>, newPlan: PlanId) returns (after: Licenses)
    requires Elems(rows) <= ls.Keys
    ensures after == Moved(ls, Elems(rows), newPlan)
  {
    after := ls;
    for i := 0 to |rows|
      invariant after.Keys == ls.Keys
      invariant forall id :: id in ls ==> after[id] == if id in rows[..i] then ls[id].(plan := newPlan) else ls[id]
    {
      assert rows[..i + 1] == rows[..i] + [rows[i]];
      assert rows[i] in Elems(rows);
      after := after[rows[i] := after[rows[i]].(plan := newPlan)];
    }
    assert rows[..|rows|] == rows;
  }

  /** What has happened once the ids in `seen` were looked up and, in a real run, moved. */
  ghost predicate SeenSoFar(before: Licenses, after: Licenses, oldPlan: PlanId, newPlan: PlanId, dryRun: bool,
                            seen: seq<LicenseId>, moved: seq<LicenseId>) {
    && Elems(moved) == Eligible(before, oldPlan, false, Elems(seen))
    && after == (if dryRun then before else Moved(before, Elems(moved), newPlan))
    && (NoDup(seen) || (!dryRun && oldPlan != newPlan) ==> NoDup(moved))
  }

  lemma ElemsConcat<T>(a: seq<T>, b: seq<T>)
    ensures Elems(a + b) == Elems(a) + Elems(b)
  {
    assert forall x :: x in a + b <==> x in a || x in b;
  }

  lemma NoDupParts<T>(a: seq<T>, b: seq<T>)
    requires NoDup(a + b)
    ensures NoDup(a) && NoDup(b) && Elems(a) !! Elems(b)
  {
    forall i, j | 0 <= i < |a| && 0 <= j < |b|
      ensures a[i] != b[j]
    {
      assert (a + b)[i] == a[i] && (a + b)[|a| + j] == b[j];
    }
    forall i, j | 0 <= i < j < |b|
      ensures b[i] != b[j]
    {
      assert (a + b)[|a| + i] == b[i] && (a + b)[|a| + j] == b[j];
    }
    forall i, j | 0 <= i < j < |a|
      ensures a[i] != a[j]
    {
      assert (a + b)[i] == a[i] && (a + b)[j] == a[j];
    }
  }

  lemma MovedTwice(ls: Licenses, a: set<LicenseId>, b: set<LicenseId>, newPlan: PlanId)
    ensures Moved(Moved(ls, a, newPlan), b, newPlan) == Moved(ls, a + b, newPlan)
  {
    var twice, once := Moved(Moved(ls, a, newPlan), b, newPlan), Moved(ls, a + b, newPlan);
    assert twice.Keys == once.Keys;
    assert forall id :: id in twice ==> twice[id] == once[id];
  }

  /** Looking up one more chunk in the table as it is by then. */
  lemma NextChunk(before: Licenses, after: Licenses, oldPlan: PlanId, newPlan: PlanId, dryRun: bool,
                  seen: seq<LicenseId>, moved: seq<LicenseId>, chunk: seq<LicenseId>, rows: seq<LicenseId>)
    requires SeenSoFar(before, after, oldPlan, newPlan, dryRun, seen, moved)
    requires Enumerates(rows, Eligible(after, oldPlan, false, Elems(chunk)))
    ensures SeenSoFar(before, if dryRun then after else Moved(after, Elems(rows), newPlan),
                      oldPlan, newPlan, dryRun, seen + chunk, moved + rows)
  {
    ElemsConcat(seen, chunk);
    ElemsConcat(moved, rows);
    assert Elems(moved + rows) == Eligible(before, oldPlan, false, Elems(seen + chunk)) by {
      if !dryRun {
        forall id | id in Eligible(before, oldPlan, false, Elems(chunk))
          ensures id in Elems(moved) + Elems(rows)
        {
        }
      }
    }
    if !dryRun {
      MovedTwice(before, Elems(moved), Elems(rows), newPlan);
    }
    if NoDup(seen + chunk) {
      NoDupParts(seen, chunk);
      ApartConcat(moved, rows);
    } else if !dryRun && oldPlan != newPlan {
      assert forall id :: id in Elems(moved) ==> after[id].plan == newPlan;
      ApartConcat(moved, rows);
    }
  }

  lemma ApartConcat(a: seq<LicenseId>, b: seq<LicenseId>)
    requires NoDup(a) && NoDup(b) && Elems(a) !! Elems(b)
    ensures NoDup(a + b)
  {
    forall x | x in a
      ensures x !in b
    {
      assert x in Elems(a);
    }
    NoDupConcat(a, b);
  }

  /** What was moved or reported so far is what a mere look would have listed, unless some of it is listed again. */
  ghost predicate ReportedSoFar(before: Licenses, oldPlan: PlanId, newPlan: PlanId, dryRun: bool, order: RowOrder,
                                done: seq<seq<LicenseId>>, moved: seq<LicenseId>) {
    var listed := Listed(before, oldPlan, order, done);
    dryRun || oldPlan == newPlan || NoDup(listed) ==> moved == listed
  }

  lemma MoveToSamePlan(ls: Licenses, plan: PlanId, ids: set<LicenseId>)
    requires ids <= OfPlan(ls, plan)
    ensures Moved(ls, ids, plan) == ls
  {
    assert forall id :: id in ids ==> id in OfPlan(ls, plan);
  }

  lemma ReportChunk(before: Licenses, after: Licenses, oldPlan: PlanId, newPlan: PlanId, dryRun: bool, order: RowOrder,
                    done: seq<seq<LicenseId>>, moved: seq<LicenseId>, chunk: seq<LicenseId>)
    requires IsOrder(order) && SeenSoFar(before, after, oldPlan, newPlan, dryRun, Flatten(done), moved)
    requires ReportedSoFar(before, oldPlan, newPlan, dryRun, order, done, moved)
    ensures ReportedSoFar(before, oldPlan, newPlan, dryRun, order, done + [chunk],
                          moved + order(Eligible(after, oldPlan, false, Elems(chunk))))
  {
    var listed, rows := Listed(before, oldPlan, order, done), Eligible(before, oldPlan, false, Elems(chunk));
    assert (done + [chunk])[..|done|] == done;
    assert Listed(before, oldPlan, order, done + [chunk]) == listed + order(rows);
    if dryRun {
    } else if oldPlan == newPlan {
      MoveToSamePlan(before, oldPlan, Elems(moved));
    } else if NoDup(listed + order(rows)) {
      NoDupParts(listed, order(rows));
      assert Enumerates(order(rows), rows);
      SameEligible(before, oldPlan, newPlan, Elems(moved), Elems(chunk));
    }
  }

  lemma SameEligible(ls: Licenses, oldPlan: PlanId, newPlan: PlanId, moved: set<LicenseId>, chunk: set<LicenseId>)
    requires oldPlan != newPlan && moved !! Eligible(ls, oldPlan, false, chunk)
    ensures Eligible(Moved(ls, moved, newPlan), oldPlan, false, chunk) == Eligible(ls, oldPlan, false, chunk)
  {
  }

  /** The loop over the chunks of listed ids; each query runs after the previous chunk was moved. */
  method TransferChunks(db: Database, oldPlan: PlanId, newPlan: PlanId, dryRun: bool, uuids: seq<LicenseId>,
                        order: RowOrder)
    returns (moved: seq<LicenseId>)
    requires IsOrder(order)
    modifies db`licenses
    ensures SeenSoFar(old(db.licenses), db.licenses, oldPlan, newPlan, dryRun, uuids, moved)
    ensures ReportedSoFar(old(db.licenses), oldPlan, newPlan, dryRun, order, Chunked(uuids, CHUNK_SIZE), moved)
  {
    ghost var before := db.licenses;
    var chunks := Chunks(uuids, CHUNK_SIZE);
    ChunksTile(uuids, CHUNK_SIZE);
    moved := [];
    NothingSeen(before, oldPlan, newPlan, dryRun);
    for i := 0 to |chunks|
      invariant SeenSoFar(before, db.licenses, oldPlan, newPlan, dryRun, Flatten(chunks[..i]), moved)
      invariant ReportedSoFar(before, oldPlan, newPlan, dryRun, order, chunks[..i], moved)
    {
      assert chunks[..i + 1] == chunks[..i] + [chunks[i]];
      FlattenAppend(chunks[..i], chunks[i]);
      moved := TransferChunk(db, oldPlan, newPlan, dryRun, chunks[i], moved, order, before, chunks[..i]);
    }
    assert chunks[..|chunks|] == chunks;
  }

  method TransferChunk(db: Database, oldPlan: PlanId, newPlan: PlanId, dryRun: bool, chunk: seq<LicenseId>,
                       sofar: seq<LicenseId>, order: RowOrder, ghost before: Licenses, ghost done: seq<seq<LicenseId>>)
    returns (moved: seq<LicenseId>)
    requires IsOrder(order) && SeenSoFar(before, db.licenses, oldPlan, newPlan, dryRun, Flatten(done), sofar)
    requires ReportedSoFar(before, oldPlan, newPlan, dryRun, order, done, sofar)
    modifies db`licenses
    ensures SeenSoFar(before, db.licenses, oldPlan, newPlan, dryRun, Flatten(done) + chunk, moved)
    ensures ReportedSoFar(before, oldPlan, newPlan, dryRun, order, done + [chunk], moved)
  {
    var listed := set id | id in chunk;
    assert listed == Elems(chunk);
    var rows := order(Eligible(db.licenses, oldPlan, false, listed));
    assert Enumerates(rows, Eligible(db.licenses, oldPlan, false, listed));
    ReportChunk(before, db.licenses, oldPlan, newPlan, dryRun, order, done, sofar, chunk);
    NextChunk(before, db.licenses, oldPlan, newPlan, dryRun, Flatten(done), sofar, chunk, rows);
    if !dryRun {
      var after := MoveRows(db.licenses, rows, newPlan);
      db.licenses := after;
    }
    moved := sofar + rows;
  }

  /** If the ids are distinct, a look lists no license twice, so that a dry run foretells the real one. */
  lemma DistinctIdsReportOnce(ls: Licenses, oldPlan: PlanId, all: bool, uuids: seq<LicenseId>, order: RowOrder)
    requires IsOrder(order) && (all || NoDup(uuids))
    ensures NoDup(Report(ls, oldPlan, all, uuids, order))
    ensures !all ==> ChunksApart(ls, oldPlan, Chunked(uuids, CHUNK_SIZE))
  {
    if all {
      assert Enumerates(order(Eligible(ls, oldPlan, true, {})), Eligible(ls, oldPlan, true, {}));
    } else {
      ChunksTile(uuids, CHUNK_SIZE);
      ApartChunksListOnce(ls, oldPlan, order, Chunked(uuids, CHUNK_SIZE));
      ListsOnceIffApart(ls, oldPlan, order, Chunked(uuids, CHUNK_SIZE));
    }
  }

  lemma {:induction false} ApartChunksListOnce(ls: Licenses, oldPlan: PlanId, order: RowOrder,
                                               chunks: seq<seq<LicenseId>>)
    requires IsOrder(order) && NoDup(Flatten(chunks))
    ensures NoDup(Listed(ls, oldPlan, order, chunks))
    ensures Elems(Listed(ls, oldPlan, order, chunks)) <= Elems(Flatten(chunks))
  {
    if chunks == [] {
    } else {
      var done, chunk := chunks[..|chunks| - 1], chunks[|chunks| - 1];
      var rows := Eligible(ls, oldPlan, false, Elems(chunk));
      assert chunks == done + [chunk];
      FlattenAppend(done, chunk);
      NoDupParts(Flatten(done), chunk);
      ElemsConcat(Flatten(done), chunk);
      ApartChunksListOnce(ls, oldPlan, order, done);
      assert Enumerates(order(rows), rows);
      ElemsConcat(Listed(ls, oldPlan, order, done), order(rows));
      ApartConcat(Listed(ls, oldPlan, order, done), order(rows));
    }
  }

  /** An id that is repeated in a later chunk is reported twice by a dry run, and moved once by a real one. */
  lemma RepeatedIdIsReportedTwice(order: RowOrder) returns (ls: Licenses, uuids: seq<LicenseId>)
    requires IsOrder(order)
    ensures !NoDup(Report(ls, 0, false, uuids, order)) && !ChunksApart(ls, 0, Chunked(uuids, CHUNK_SIZE))
  {
    ls := map[0 := NewLicense(0).(status := Status.Assigned)];
    uuids := seq(CHUNK_SIZE + 1, _ => 0);
    var first, second := uuids[..CHUNK_SIZE], uuids[CHUNK_SIZE..];
    assert Chunked(uuids, CHUNK_SIZE) == [first, second];
    var none: seq<seq<LicenseId>> := [];
    assert [first, second][..1] == [first] && [first][..0] == none;
    assert first[0] in Elems(first) && second[0] in Elems(second);
    assert Eligible(ls, 0, false, Elems(first)) == {0} && Eligible(ls, 0, false, Elems(second)) == {0};
    var once := order({0});
    assert Enumerates(once, {0});
    NoDupSize(once);
    assert Listed(ls, 0, order, [first]) == [] + once;
    assert Report(ls, 0, false, uuids, order) == once + once;
    assert (once + once)[0] == (once + once)[1];
    ListsOnceIffApart(ls, 0, order, Chunked(uuids, CHUNK_SIZE));
  }

  lemma NothingSeen(ls: Licenses, oldPlan: PlanId, newPlan: PlanId, dryRun: bool)
    ensures SeenSoFar(ls, ls, oldPlan, newPlan, dryRun, [], [])
  {
    assert Moved(ls, {}, newPlan) == ls;
    assert Elems<LicenseId>([]) == {};
  }

  // ---- Conservation ------------------------------------------------------------------

  function WithStatus(ls: Licenses, plan: PlanId, status: Status): set<LicenseId> {
    set id | id in ls && ls[id].plan == plan && ls[id].status == status
  }

  /** A transfer changes the plan field only, and only of licenses in the old plan. */
  lemma TransferMovesOnly(ls: Licenses, oldPlan: PlanId, newPlan: PlanId, all: bool, listed: set<LicenseId>)
    ensures var after := Moved(ls, Eligible(ls, oldPlan, all, listed), newPlan);
            && after.Keys == ls.Keys
            && (forall id :: id in ls ==> after[id] == ls[id].(plan := after[id].plan))
            && (forall id :: id in ls && ls[id].plan != oldPlan ==> after[id] == ls[id])
            && (all && oldPlan != newPlan ==> OfPlan(after, oldPlan) == {})
  {
  }

  /** The two plans together keep their count of every status. */
  lemma TransferConserves(ls: Licenses, oldPlan: PlanId, newPlan: PlanId, moving: set<LicenseId>, status: Status)
    requires moving <= OfPlan(ls, oldPlan)
    ensures var after := Moved(ls, moving, newPlan);
            |WithStatus(after, oldPlan, status)| + |WithStatus(after, newPlan, status)|
            == |WithStatus(ls, oldPlan, status)| + |WithStatus(ls, newPlan, status)|
  {
    if oldPlan == newPlan {
      MoveToSamePlan(ls, oldPlan, moving);
      return;
    }
    var leaving := moving * WithStatus(ls, oldPlan, status);
    LeavingOld(ls, oldPlan, newPlan, moving, status);
    ArrivingNew(ls, oldPlan, newPlan, moving, status);
    assert WithStatus(ls, newPlan, status) !! leaving;
  }

  lemma LeavingOld(ls: Licenses, oldPlan: PlanId, newPlan: PlanId, moving: set<LicenseId>, status: Status)
    requires oldPlan != newPlan
    ensures WithStatus(Moved(ls, moving, newPlan), oldPlan, status)
            == WithStatus(ls, oldPlan, status) - moving * WithStatus(ls, oldPlan, status)
  {
  }

  lemma ArrivingNew(ls: Licenses, oldPlan: PlanId, newPlan: PlanId, moving: set<LicenseId>, status: Status)
    requires oldPlan != newPlan && moving <= OfPlan(ls, oldPlan)
    ensures WithStatus(Moved(ls, moving, newPlan), newPlan, status)
            == WithStatus(ls, newPlan, status) + moving * WithStatus(ls, oldPlan, status)
  {
    assert forall id :: id in moving ==> id in OfPlan(ls, oldPlan);
  }

  // ---- Uniqueness --------------------------------------------------------------------

  /** No learner who comes with a moved license already has one in the new plan. */
  ghost predicate NoHolderJoins(ls: Licenses, newPlan: PlanId, moving: set<LicenseId>) {
    forall a, b | a in moving && a in ls && b in OfPlan(ls, newPlan) ::
      ls[a].Active() && ls[b].Active() ==> ls[a].email != ls[b].email
  }

  /**
   A transfer never runs `clean()`. It keeps learners from holding two licenses of a plan exactly if
   nobody who is moved already holds one in the new plan.
   */
  lemma TransferKeepsUniqueIff(ls: Licenses, oldPlan: PlanId, newPlan: PlanId, moving: set<LicenseId>)
    requires Unique(ls) && moving <= OfPlan(ls, oldPlan)
    ensures Unique(Moved(ls, moving, newPlan)) <==> oldPlan == newPlan || NoHolderJoins(ls, newPlan, moving)
  {
    var after := Moved(ls, moving, newPlan);
    assert forall id :: id in moving ==> id in OfPlan(ls, oldPlan);
    if oldPlan == newPlan {
      MoveToSamePlan(ls, oldPlan, moving);
    } else if Unique(after) {
      forall a, b | a in moving && a in ls && b in OfPlan(ls, newPlan) && ls[a].Active() && ls[b].Active()
        ensures ls[a].email != ls[b].email
      {
        assert a in after && b in after && after[a].plan == newPlan == after[b].plan;
      }
    } else {
      var a, b :| a in after && b in after && after[a].Active() && after[b].Active()
                  && after[a].plan == after[b].plan && after[a].email == after[b].email && a != b;
      assert a in OfPlan(ls, newPlan) || b in OfPlan(ls, newPlan);
    }
  }

  /** One learner with a license in each plan: moving the one to the other plan gives two licenses there. */
  lemma TransferCanBreakUnique() returns (ls: Licenses)
    ensures Unique(ls) && Tidy(ls)
    ensures !Unique(Moved(ls, Eligible(ls, 0, false, {0}), 1))
  {
    var row := NewLicense(0).(status := Status.Assigned, email := Some("a"), assignedDate := Some(0));
    ls := map[0 := row, 1 := row.(plan := 1)];
    var moving := Eligible(ls, 0, false, {0});
    assert 0 in moving && 1 in OfPlan(ls, 1);
    TransferKeepsUniqueIff(ls, 0, 1, moving);
  }
}
