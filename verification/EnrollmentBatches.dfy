/**
 Batching enrollment rows by course: a growing bucket for each course, sent off when
 it reaches the chunk size, and whatever is left sent off at the end.
 */
module EnrollmentBatches {
  import opened Collections

  type Email = string
  type Course = string

  datatype Row = Row(email: Email, course: Course)
  datatype Bucket = Bucket(course: Course, emails: seq<Email>)
  datatype Chunk = Chunk(id: nat, course: Course, emails: seq<Email>)

  // ---- What went in and what came out ------------------------------------------

  /** The emails of one course, in the order of the rows. */
  ghost function EmailsOf(rows: seq<Row>, course: Course): seq<Email> {
    if rows == [] then []
    else EmailsOf(rows[..|rows| - 1], course)
         + if rows[|rows| - 1].course == course then [rows[|rows| - 1].email] else []
  }

  /** All that was sent for one course, chunk after chunk. */
  ghost function SentFor(chunks: seq<Chunk>, course: Course): seq<Email> {
    if chunks == [] then []
    else SentFor(chunks[..|chunks| - 1], course)
         + if chunks[|chunks| - 1].course == course then chunks[|chunks| - 1].emails else []
  }

  /** What waits in the bucket of a course. */
  ghost function WaitingFor(open: seq<Bucket>, course: Course): seq<Email> {
    if open == [] then []
    else if open[0].course == course then open[0].emails
    else WaitingFor(open[1..], course)
  }

  ghost predicate Numbered(chunks: seq<Chunk>) {
    forall i :: 0 <= i < |chunks| ==> chunks[i].id == i
  }

  /** No chunk is empty; none is over the size, and one that is under it is the last of its course. */
  ghost predicate WellSized(chunks: seq<Chunk>, size: int) {
    && (forall i :: 0 <= i < |chunks| ==> chunks[i].emails != [])
    && (size >= 1 ==> forall i :: 0 <= i < |chunks| ==> |chunks[i].emails| <= size)
    && forall i, j :: 0 <= i < j < |chunks| && chunks[i].course == chunks[j].course ==> |chunks[i].emails| == size
  }

  // ---- The dictionary of buckets ---------------------------------------------------

  ghost predicate Distinct(open: seq<Bucket>) {
    && (forall i :: 0 <= i < |open| ==> open[i].emails != [])
    && forall i, j :: 0 <= i < j < |open| ==> open[i].course != open[j].course
  }

  lemma {:induction false} NotWaiting(open: seq<Bucket>, course: Course)
    requires forall i :: 0 <= i < |open| ==> open[i].course != course
    ensures WaitingFor(open, course) == []
  {
    if open == [] {
    } else {
      NotWaiting(open[1..], course);
    }
  }

  lemma {:induction false} WaitingAt(open: seq<Bucket>, i: nat)
    requires Distinct(open) && i < |open|
    ensures WaitingFor(open, open[i].course) == open[i].emails
  {
    if i == 0 {
    } else {
      assert open[1..][i - 1] == open[i];
      WaitingAt(open[1..], i - 1);
    }
  }

  /** `buckets[course].append(email)` on a dictionary that keeps insertion order. */
  function AddTo(open: seq<Bucket>, course: Course, email: Email): seq<Bucket> {
    if open == [] then [Bucket(course, [email])]
    else if open[0].course == course then [Bucket(course, open[0].emails + [email])] + open[1..]
    else [open[0]] + AddTo(open[1..], course, email)
  }

  lemma {:induction false} AddToKnown(open: seq<Bucket>, i: nat, email: Email)
    requires Distinct(open) && i < |open|
    ensures AddTo(open, open[i].course, email) == open[i := Bucket(open[i].course, open[i].emails + [email])]
  {
    if i == 0 {
    } else {
      var rest, b := open[1..], Bucket(open[i].course, open[i].emails + [email]);
      assert rest[i - 1] == open[i];
      AddToKnown(rest, i - 1, email);
      assert [open[0]] + rest[i - 1 := b] == open[i := b];
    }
  }

  lemma {:induction false} AddToNew(open: seq<Bucket>, course: Course, email: Email)
    requires forall i :: 0 <= i < |open| ==> open[i].course != course
    ensures AddTo(open, course, email) == open + [Bucket(course, [email])]
  {
    if open == [] {
    } else {
      AddToNew(open[1..], course, email);
      assert [open[0]] + (open[1..] + [Bucket(course, [email])]) == open + [Bucket(course, [email])];
    }
  }

  lemma AddToDistinct(open: seq<Bucket>, course: Course, email: Email)
    requires Distinct(open)
    ensures Distinct(AddTo(open, course, email))
  {
    if i :| 0 <= i < |open| && open[i].course == course {
      AddToKnown(open, i, email);
    } else {
      AddToNew(open, course, email);
    }
  }

  lemma AddToWaits(open: seq<Bucket>, course: Course, email: Email, c: Course)
    requires Distinct(open)
    ensures WaitingFor(AddTo(open, course, email), c) == WaitingFor(open, c) + if c == course then [email] else []
  {
    var r := AddTo(open, course, email);
    AddToDistinct(open, course, email);
    if i :| 0 <= i < |open| && open[i].course == course {
      AddToKnown(open, i, email);
    } else {
      AddToNew(open, course, email);
      assert r[|open|] == Bucket(course, [email]);
    }
    if j :| 0 <= j < |open| && open[j].course == c {
      WaitingAt(open, j);
      WaitingAt(r, j);
    } else {
      NotWaiting(open, c);
      if c == course {
        WaitingAt(r, |open|);
      } else {
        NotWaiting(r, c);
      }
    }
  }

  /** `del buckets[course]` */
  function Without(open: seq<Bucket>, course: Course): seq<Bucket> {
    if open == [] then []
    else if open[0].course == course then open[1..]
    else [open[0]] + Without(open[1..], course)
  }

  lemma {:induction false} WithoutMiddle(kept: seq<Bucket>, b: Bucket, rest: seq<Bucket>)
    requires forall i :: 0 <= i < |kept| ==> kept[i].course != b.course
    ensures Without(kept + [b] + rest, b.course) == kept + rest
  {
    if kept == [] {
      assert [] + [b] + rest == [b] + rest;
    } else {
      assert (kept + [b] + rest)[1..] == kept[1..] + [b] + rest;
      WithoutMiddle(kept[1..], b, rest);
    }
  }

  lemma LessIsDistinct(kept: seq<Bucket>, b: Bucket, rest: seq<Bucket>)
    requires Distinct(kept + [b] + rest)
    ensures Distinct(kept + rest)
    ensures forall i :: 0 <= i < |kept + rest| ==>
              (kept + rest)[i] == (kept + [b] + rest)[if i < |kept| then i else i + 1]
              && (kept + rest)[i].course != b.course
  {
    var all, less := kept + [b] + rest, kept + rest;
    assert all[|kept|] == b;
    assert forall i :: 0 <= i < |less| ==> less[i] == all[if i < |kept| then i else i + 1];
  }

  lemma WaitingAround(kept: seq<Bucket>, b: Bucket, rest: seq<Bucket>, course: Course)
    requires Distinct(kept + [b] + rest)
    ensures WaitingFor(kept + [b] + rest, course) ==
              if course == b.course then b.emails else WaitingFor(kept + rest, course)
    ensures course == b.course ==> WaitingFor(kept + rest, course) == []
  {
    var all, less := kept + [b] + rest, kept + rest;
    LessIsDistinct(kept, b, rest);
    assert all[|kept|] == b;
    if course == b.course {
      WaitingAt(all, |kept|);
      NotWaiting(less, course);
    } else if i :| 0 <= i < |less| && less[i].course == course {
      WaitingAt(less, i);
      WaitingAt(all, if i < |kept| then i else i + 1);
    } else {
      NotWaiting(less, course);
      forall j | 0 <= j < |all|
        ensures all[j].course != course
      {
        assert j < |kept| ==> all[j] == less[j];
        assert j > |kept| ==> all[j] == less[j - 1];
      }
      NotWaiting(all, course);
    }
  }

  // ---- The loops -----------------------------------------------------------------------

  /** Sent and waiting together are the rows read so far. */
  ghost predicate Accounted(rows: seq<Row>, chunks: seq<Chunk>, open: seq<Bucket>) {
    forall course :: SentFor(chunks, course) + WaitingFor(open, course) == EmailsOf(rows, course)
  }

  /** Chunks already sent before the flush at the end are full. */
  ghost predicate AllFull(chunks: seq<Chunk>, size: int) {
    forall i :: 0 <= i < |chunks| ==> chunks[i].emails != [] && |chunks[i].emails| == size
  }

  lemma SentAppend(chunks: seq<Chunk>, c: Chunk, course: Course)
    ensures SentFor(chunks + [c], course) == SentFor(chunks, course) + if c.course == course then c.emails else []
  {
    assert (chunks + [c])[..|chunks|] == chunks;
  }

  lemma SendBucket(rows: seq<Row>, chunks: seq<Chunk>, kept: seq<Bucket>, b: Bucket, rest: seq<Bucket>, c: Chunk)
    requires Distinct(kept + [b] + rest) && Accounted(rows, chunks, kept + [b] + rest)
    requires c.course == b.course && c.emails == b.emails
    ensures Distinct(kept + rest) && Accounted(rows, chunks + [c], kept + rest)
    ensures Without(kept + [b] + rest, b.course) == kept + rest
  {
    var all := kept + [b] + rest;
    assert all[|kept|] == b && forall i :: 0 <= i < |kept| ==> all[i] == kept[i];
    WithoutMiddle(kept, b, rest);
    LessIsDistinct(kept, b, rest);
    WaitingAround(kept, b, rest, b.course);
    forall course
      ensures SentFor(chunks + [c], course) + WaitingFor(kept + rest, course) == EmailsOf(rows, course)
    {
      SentAppend(chunks, c, course);
      WaitingAround(kept, b, rest, course);
      assert SentFor(chunks, course) + WaitingFor(all, course) == EmailsOf(rows, course);
    }
  }

  /** What holds while full buckets are sent. */
  ghost predicate Sending(rows: seq<Row>, open: seq<Bucket>, chunks: seq<Chunk>, size: int) {
    Distinct(open) && Accounted(rows, chunks, open) && Numbered(chunks) && AllFull(chunks, size)
  }

  lemma SendOne(rows: seq<Row>, chunks: seq<Chunk>, size: int, kept: seq<Bucket>, b: Bucket, rest: seq<Bucket>)
    requires Sending(rows, kept + [b] + rest, chunks, size) && |b.emails| == size
    ensures Sending(rows, kept + rest, chunks + [Chunk(|chunks|, b.course, b.emails)], size)
    ensures Without(kept + [b] + rest, b.course) == kept + rest
  {
    assert (kept + [b] + rest)[|kept|] == b;
    SendBucket(rows, chunks, kept, b, rest, Chunk(|chunks|, b.course, b.emails));
  }

  /** The turn of one bucket. */
  method SendIfFull(ghost rows: seq<Row>, open0: seq<Bucket>, chunks0: seq<Chunk>, size: int,
                    ghost kept: seq<Bucket>, b: Bucket, ghost rest: seq<Bucket>)
    returns (open: seq<Bucket>, chunks: seq<Chunk>)
    requires open0 == kept + [b] + rest && Sending(rows, open0, chunks0, size)
    ensures Sending(rows, open, chunks, size)
    ensures open == if |b.emails| == size then kept + rest else kept + [b] + rest
  {
    open, chunks := open0, chunks0;
    if |b.emails| == size {
      SendOne(rows, chunks, size, kept, b, rest);
      chunks := chunks + [Chunk(|chunks|, b.course, b.emails)];
      open := Without(open, b.course);
    }
  }

  lemma NextBucket(kept: seq<Bucket>, items: seq<Bucket>, j: nat)
    requires j < |items|
    ensures kept + items[j..] == kept + [items[j]] + items[j + 1..]
  {
  }

  /** Sends off every bucket that has just become full. */
  method SendFull(ghost rows: seq<Row>, open0: seq<Bucket>, chunks0: seq<Chunk>, size: int)
    returns (open: seq<Bucket>, chunks: seq<Chunk>)
    requires Sending(rows, open0, chunks0, size)
    ensures Sending(rows, open, chunks, size)
    ensures forall b :: b in open ==> b in open0 && |b.emails| != size
  {
    open, chunks := open0, chunks0;
    var items := open0;
    ghost var kept: seq<Bucket> := [];
    for j := 0 to |items|
      invariant open == kept + items[j..]
      invariant Sending(rows, open, chunks, size)
      invariant forall b :: b in kept ==> b in items && |b.emails| != size
    {
      NextBucket(kept, items, j);
      open, chunks := SendIfFull(rows, open, chunks, size, kept, items[j], items[j + 1..]);
      if |items[j].emails| != size {
        kept := kept + [items[j]];
      }
    }
  }

  /** What holds between rows: besides, every open bucket is shorter than the chunk size. */
  ghost predicate BetweenRows(rows: seq<Row>, open: seq<Bucket>, chunks: seq<Chunk>, size: int) {
    Sending(rows, open, chunks, size) && (size >= 1 ==> forall b :: b in open ==> |b.emails| < size)
  }

  /** One row: it joins the bucket of its course, and a bucket that is full by now is sent off. */
  method TakeRow(rows: seq<Row>, i: nat, open0: seq<Bucket>, chunks0: seq<Chunk>, size: int)
    returns (open: seq<Bucket>, chunks: seq<Chunk>)
    requires i < |rows| && BetweenRows(rows[..i], open0, chunks0, size)
    ensures BetweenRows(rows[..i + 1], open, chunks, size)
  {
    AddToDistinct(open0, rows[i].course, rows[i].email);
    AccountRow(rows, i, chunks0, open0);
    BucketsWithin(open0, rows[i].course, rows[i].email, size);
    var grown := AddTo(open0, rows[i].course, rows[i].email);
    open, chunks := SendFull(rows[..i + 1], grown, chunks0, size);
  }

  /**
   `get_email_chunks` of the enrollment script: for each course the chunks spell out its emails in
   the order of the rows, every chunk has one course, and chunks are numbered from 0.
   */
  method EnrollmentChunks(rows: seq<Row>, size: int) returns (chunks: seq<Chunk>)
    ensures forall course :: SentFor(chunks, course) == EmailsOf(rows, course)
    ensures Numbered(chunks) && WellSized(chunks, size)
  {
    chunks := [];
    var open: seq<Bucket> := [];
    for i := 0 to |rows|
      invariant BetweenRows(rows[..i], open, chunks, size)
    {
      open, chunks := TakeRow(rows, i, open, chunks, size);
    }
    assert rows[..|rows|] == rows;
    chunks := SendRest(rows, open, chunks, size);
  }

  lemma AccountRow(rows: seq<Row>, i: nat, chunks: seq<Chunk>, open: seq<Bucket>)
    requires i < |rows| && Distinct(open) && Accounted(rows[..i], chunks, open)
    ensures Accounted(rows[..i + 1], chunks, AddTo(open, rows[i].course, rows[i].email))
  {
    var grown := AddTo(open, rows[i].course, rows[i].email);
    forall course
      ensures SentFor(chunks, course) + WaitingFor(grown, course) == EmailsOf(rows[..i + 1], course)
    {
      AddToWaits(open, rows[i].course, rows[i].email, course);
      assert rows[..i + 1][..i] == rows[..i];
      assert SentFor(chunks, course) + WaitingFor(open, course) == EmailsOf(rows[..i], course);
    }
  }

  lemma {:induction false} BucketsWithin(open: seq<Bucket>, course: Course, email: Email, size: int)
    requires size >= 1 ==> forall b :: b in open ==> |b.emails| < size
    ensures size >= 1 ==> forall b :: b in AddTo(open, course, email) ==> |b.emails| <= size
  {
    if open != [] {
      assert open[0] in open && forall b :: b in open[1..] ==> b in open;
      BucketsWithin(open[1..], course, email, size);
    }
  }

  /** Sends off the buckets that never became full. */
  method SendRest(ghost rows: seq<Row>, open: seq<Bucket>, full: seq<Chunk>, size: int) returns (chunks: seq<Chunk>)
    requires Distinct(open) && Accounted(rows, full, open) && Numbered(full) && AllFull(full, size)
    requires size >= 1 ==> forall b :: b in open ==> |b.emails| < size
    ensures forall course :: SentFor(chunks, course) == EmailsOf(rows, course)
    ensures Numbered(chunks) && WellSized(chunks, size)
  {
    chunks := full;
    for j := 0 to |open|
      invariant Distinct(open[j..]) && Accounted(rows, chunks, open[j..]) && Numbered(chunks)
      invariant |chunks| == |full| + j && full == chunks[..|full|]
      invariant forall i :: 0 <= i < j ==>
                chunks[|full| + i].course == open[i].course && chunks[|full| + i].emails == open[i].emails
    {
      assert open[j..] == [] + [open[j]] + open[j + 1..];
      var chunk := Chunk(|chunks|, open[j].course, open[j].emails);
      SendBucket(rows, chunks, [], open[j], open[j + 1..], chunk);
      assert [] + open[j + 1..] == open[j + 1..];
      chunks := chunks + [chunk];
    }
    forall course
      ensures SentFor(chunks, course) == EmailsOf(rows, course)
    {
      assert SentFor(chunks, course) + WaitingFor([], course) == EmailsOf(rows, course);
    }
    RestIsWellSized(full, open, chunks, size);
  }

  lemma RestIsWellSized(full: seq<Chunk>, open: seq<Bucket>, chunks: seq<Chunk>, size: int)
    requires AllFull(full, size) && Distinct(open) && |chunks| == |full| + |open| && full == chunks[..|full|]
    requires forall i :: 0 <= i < |open| ==>
              chunks[|full| + i].course == open[i].course && chunks[|full| + i].emails == open[i].emails
    requires size >= 1 ==> forall b :: b in open ==> |b.emails| < size
    ensures WellSized(chunks, size)
  {
    forall i | 0 <= i < |chunks|
      ensures chunks[i].emails != [] && (size >= 1 ==> |chunks[i].emails| <= size)
      ensures i < |full| ==> |chunks[i].emails| == size
      ensures i >= |full| ==> chunks[i].course == open[i - |full|].course
    {
      if i < |full| {
        assert chunks[i] == full[i];
      } else {
        assert chunks[|full| + (i - |full|)].emails == open[i - |full|].emails;
        assert open[i - |full|] in open;
      }
    }
  }
}
