/**
 Batching assignment rows in file order: a chunk ends when it is full or when the
 next row belongs to another plan.
 */
module AssignmentBatches {
  import opened Collections

  type Email = string
  type PlanUuid = nat

  /** A row of the input, with the verdict of the email check. */
  datatype Row = Row(email: Email, valid: bool, university: string)
  datatype Chunk = Chunk(id: nat, plan: PlanUuid, emails: seq<Email>)

  type PlansByName = map<string, PlanUuid>

  /** No valid row names an unknown university. */
  ghost predicate AllKnown(rows: seq<Row>, plans: PlansByName) {
    forall i :: 0 <= i < |rows| && rows[i].valid ==> rows[i].university in plans
  }

  /** The valid rows, tagged with their plans. */
  ghost function Tagged(rows: seq<Row>, plans: PlansByName): seq<(PlanUuid, Email)>
    requires AllKnown(rows, plans)
  {
    if rows == [] then []
    else Tagged(rows[..|rows| - 1], plans)
         + if rows[|rows| - 1].valid then [(plans[rows[|rows| - 1].university], rows[|rows| - 1].email)] else []
  }

  ghost function TagAll(plan: PlanUuid, emails: seq<Email>): seq<(PlanUuid, Email)> {
    seq(|emails|, i requires 0 <= i < |emails| => (plan, emails[i]))
  }

  ghost function Sent(chunks: seq<Chunk>): seq<(PlanUuid, Email)> {
    if chunks == [] then []
    else Sent(chunks[..|chunks| - 1]) + TagAll(chunks[|chunks| - 1].plan, chunks[|chunks| - 1].emails)
  }

  lemma SentAppend(chunks: seq<Chunk>, c: Chunk)
    ensures Sent(chunks + [c]) == Sent(chunks) + TagAll(c.plan, c.emails)
  {
    assert (chunks + [c])[..|chunks|] == chunks;
  }

  /** Ids count from 0; sizes stay within bounds; within a plan only full chunks are followed by another. */
  ghost predicate WellFormed(chunks: seq<Chunk>, size: int) {
    && (forall i :: 0 <= i < |chunks| ==> chunks[i].id == i)
    && (size >= 1 ==> forall i :: 0 <= i < |chunks| ==> |chunks[i].emails| <= size)
    && (forall i :: 0 <= i < |chunks| - 1 && chunks[i].plan == chunks[i + 1].plan ==> |chunks[i].emails| == size)
  }

  /** An empty chunk comes only right after a full one of the same plan. */
  ghost predicate EmptyOnlyAfterFull(chunks: seq<Chunk>, size: int) {
    forall i :: 0 <= i < |chunks| && chunks[i].emails == [] ==>
      i > 0 && chunks[i - 1].plan == chunks[i].plan && |chunks[i - 1].emails| == size
  }

  ghost predicate HasEmpty(chunks: seq<Chunk>) {
    exists i :: 0 <= i < |chunks| && chunks[i].emails == []
  }

  // ---- Runs of rows for one plan ---------------------------------------------------

  /** `tagged[a..b]` is a longest stretch of rows for one plan. */
  ghost predicate IsRun(tagged: seq<(PlanUuid, Email)>, a: nat, b: nat) {
    && a < b <= |tagged|
    && (forall i :: a <= i < b ==> tagged[i].0 == tagged[a].0)
    && (a > 0 ==> tagged[a - 1].0 != tagged[a].0)
    && (b < |tagged| ==> tagged[b].0 != tagged[a].0)
  }

  /** A run whose length is a multiple of the chunk size, with rows for another plan after it. */
  ghost predicate FullRunFollowed(tagged: seq<(PlanUuid, Email)>, size: nat)
    requires size > 0
  {
    exists a: nat, b: nat :: IsRun(tagged, a, b) && b < |tagged| && (b - a) % size == 0
  }

  /** One more row ends the run at the end, or joins it. */
  lemma RunsGrow(tagged: seq<(PlanUuid, Email)>, start: nat, last: (PlanUuid, Email))
    requires IsRun(tagged, start, |tagged|)
    ensures var longer := tagged + [last];
            && (last.0 == tagged[start].0 ==> IsRun(longer, start, |longer|))
            && (last.0 != tagged[start].0 ==> IsRun(longer, |tagged|, |longer|) && IsRun(longer, start, |tagged|))
  {
  }

  /** A run that has ended is the same run in the longer list. */
  lemma EndedRun(tagged: seq<(PlanUuid, Email)>, last: (PlanUuid, Email), a: nat, b: nat)
    requires b < |tagged|
    ensures IsRun(tagged + [last], a, b) <==> IsRun(tagged, a, b)
  {
    assert forall i :: 0 <= i <= b ==> (tagged + [last])[i] == tagged[i];
  }

  lemma OneMoreTagged(tagged: seq<(PlanUuid, Email)>, start: nat, last: (PlanUuid, Email), size: nat)
    requires IsRun(tagged, start, |tagged|) && size > 0
    ensures FullRunFollowed(tagged + [last], size) <==>
            FullRunFollowed(tagged, size) || (last.0 != tagged[start].0 && (|tagged| - start) % size == 0)
  {
    var longer := tagged + [last];
    RunsGrow(tagged, start, last);
    if FullRunFollowed(longer, size) {
      var a: nat, b: nat :| IsRun(longer, a, b) && b < |longer| && (b - a) % size == 0;
      if b < |tagged| {
        EndedRun(tagged, last, a, b);
      } else {
        NewlyEnded(tagged, start, last, a);
      }
    }
    if FullRunFollowed(tagged, size) {
      var a: nat, b: nat :| IsRun(tagged, a, b) && b < |tagged| && (b - a) % size == 0;
      EndedRun(tagged, last, a, b);
    }
  }

  /** The only run that the last row can have ended is the one at the end. */
  lemma NewlyEnded(tagged: seq<(PlanUuid, Email)>, start: nat, last: (PlanUuid, Email), a: nat)
    requires IsRun(tagged, start, |tagged|) && IsRun(tagged + [last], a, |tagged|)
    ensures a == start && last.0 != tagged[start].0
  {
    assert forall i :: 0 <= i < |tagged| ==> (tagged + [last])[i] == tagged[i];
    OneEnding(tagged, a, start);
  }

  /** Only one run reaches the end. */
  lemma OneEnding(tagged: seq<(PlanUuid, Email)>, a: nat, start: nat)
    requires IsRun(tagged, start, |tagged|)
    requires a < |tagged| && (a > 0 ==> tagged[a - 1].0 != tagged[a].0)
    requires forall i :: a <= i < |tagged| ==> tagged[i].0 == tagged[a].0
    ensures a == start
  {
  }

  lemma NextRemainder(n: nat, size: nat)
    requires size > 0
    ensures (n + 1) % size == if n % size + 1 == size then 0 else n % size + 1
  {
    var q, c := n / size, n % size;
    assert n == q * size + c;
    if c + 1 == size {
      assert n + 1 == (q + 1) * size;
      RemainderIs(n + 1, q + 1, 0, size);
    } else {
      RemainderIs(n + 1, q, c + 1, size);
    }
  }

  lemma RemainderIs(n: nat, q: nat, c: nat, size: nat)
    requires c < size && n == q * size + c
    ensures n % size == c
  {
    var k, m := n / size, n % size;
    Difference(n, q, c, k, m, size);
    NotAboveZero(q - k, size);
    Difference(n, k, m, q, c, size);
    NotAboveZero(k - q, size);
  }

  lemma Difference(n: int, q: int, c: int, k: int, m: int, size: int)
    requires n == q * size + c && n == k * size + m
    ensures (q - k) * size == m - c
  {
  }

  lemma NotAboveZero(d: int, size: int)
    requires size > 0 && d * size < size
    ensures d <= 0
  {
    if d >= 1 {
      AtLeastOnce(d, size);
    }
  }

  lemma AtLeastOnce(d: int, size: int)
    requires size > 0 && d >= 1
    ensures d * size >= size
  {
  }

  /**
   The current chunk holds what a run leaves after its full chunks; an empty chunk has been sent
   exactly if a run without such a rest has been followed by another. `start` is where the run began.
   */
  ghost predicate RunsMatch(tagged: seq<(PlanUuid, Email)>, size: int, chunks: seq<Chunk>,
                            plan: Option<PlanUuid>, current: seq<Email>, start: nat) {
    && (plan == None <==> tagged == [])
    && (plan.Some? ==> IsRun(tagged, start, |tagged|) && tagged[start].0 == plan.value)
    && (plan.Some? ==> if size >= 1 then |current| == (|tagged| - start) % size else current != [])
    && (HasEmpty(chunks) <==> size >= 1 && FullRunFollowed(tagged, size))
  }

  /** Whether a chunk is sent right after it grew to `current`, and what is left. */
  ghost function Sending(size: int, chunks: seq<Chunk>, plan: PlanUuid, current: seq<Email>): (seq<Chunk>, seq<Email>) {
    if |current| == size then (chunks + [Chunk(|chunks|, plan, current)], []) else (chunks, current)
  }

  lemma AppendEmptiness(chunks: seq<Chunk>, last: Chunk)
    ensures HasEmpty(chunks + [last]) <==> HasEmpty(chunks) || last.emails == []
  {
    var longer := chunks + [last];
    assert longer[|chunks|] == last;
    if HasEmpty(chunks) {
      var i :| 0 <= i < |chunks| && chunks[i].emails == [];
      assert longer[i] == chunks[i];
    }
  }

  lemma FirstRow(size: int, chunks: seq<Chunk>, first: (PlanUuid, Email))
    requires RunsMatch([], size, chunks, None, [], 0)
    ensures var (sent, rest) := Sending(size, chunks, first.0, [first.1]);
            RunsMatch([first], size, sent, Some(first.0), rest, 0)
  {
    AppendEmptiness(chunks, Chunk(|chunks|, first.0, [first.1]));
    assert IsRun([first], 0, 1);
    if size >= 1 {
      NextRemainder(0, size);
      assert !FullRunFollowed([], size);
      assert !FullRunFollowed([first], size);
    }
  }

  lemma SamePlanRow(tagged: seq<(PlanUuid, Email)>, size: int, chunks: seq<Chunk>, plan: PlanUuid,
                    current: seq<Email>, start: nat, email: Email)
    requires RunsMatch(tagged, size, chunks, Some(plan), current, start)
    ensures var (sent, rest) := Sending(size, chunks, plan, current + [email]);
            RunsMatch(tagged + [(plan, email)], size, sent, Some(plan), rest, start)
  {
    AppendEmptiness(chunks, Chunk(|chunks|, plan, current + [email]));
    RunsGrow(tagged, start, (plan, email));
    OneMoreTagged(tagged, start, (plan, email), if size >= 1 then size else 1);
    if size >= 1 {
      NextRemainder(|tagged| - start, size);
    }
  }

  lemma OtherPlanRow(tagged: seq<(PlanUuid, Email)>, size: int, chunks: seq<Chunk>, plan: PlanUuid,
                     current: seq<Email>, start: nat, next: (PlanUuid, Email))
    requires RunsMatch(tagged, size, chunks, Some(plan), current, start) && next.0 != plan
    ensures var (sent, rest) := Sending(size, chunks + [Chunk(|chunks|, plan, current)], next.0, [next.1]);
            RunsMatch(tagged + [next], size, sent, Some(next.0), rest, |tagged|)
  {
    var changed := chunks + [Chunk(|chunks|, plan, current)];
    AppendEmptiness(chunks, Chunk(|chunks|, plan, current));
    AppendEmptiness(changed, Chunk(|changed|, next.0, [next.1]));
    RunsGrow(tagged, start, next);
    OneMoreTagged(tagged, start, next, if size >= 1 then size else 1);
    if size >= 1 {
      NextRemainder(0, size);
    }
  }

  /** What holds of chunks and rows between rows. */
  ghost predicate Between(rows: seq<Row>, plans: PlansByName, size: int, chunks: seq<Chunk>,
                          plan: Option<PlanUuid>, current: seq<Email>) {
    && AllKnown(rows, plans)
    && (plan == None ==> chunks == [] && current == [])
    && Sent(chunks) + (if plan.Some? then TagAll(plan.value, current) else []) == Tagged(rows, plans)
    && (size >= 1 ==> |current| < size)
    && WellFormed(chunks, size) && EmptyOnlyAfterFull(chunks, size)
    && (plan.Some? && current == [] ==> chunks != [] && chunks[|chunks| - 1].plan == plan.value)
    && (chunks != [] && plan.Some? && chunks[|chunks| - 1].plan == plan.value ==> |chunks[|chunks| - 1].emails| == size)
  }

  lemma AppendWellFormed(size: int, chunks: seq<Chunk>, plan: PlanUuid, current: seq<Email>)
    requires WellFormed(chunks, size) && EmptyOnlyAfterFull(chunks, size)
    requires size >= 1 ==> |current| <= size
    requires chunks != [] && chunks[|chunks| - 1].plan == plan ==> |chunks[|chunks| - 1].emails| == size
    requires current == [] ==> chunks != [] && chunks[|chunks| - 1].plan == plan
    ensures var longer := chunks + [Chunk(|chunks|, plan, current)];
            WellFormed(longer, size) && EmptyOnlyAfterFull(longer, size)
  {
  }

  /** Before a row of another plan the chunk so far is sent, even if it is empty. */
  lemma ChangePlan(rows: seq<Row>, plans: PlansByName, size: int, chunks: seq<Chunk>, plan: PlanUuid,
                   current: seq<Email>)
    requires Between(rows, plans, size, chunks, Some(plan), current)
    ensures var longer := chunks + [Chunk(|chunks|, plan, current)];
            && Sent(longer) == Tagged(rows, plans)
            && WellFormed(longer, size) && EmptyOnlyAfterFull(longer, size)
  {
    SentAppend(chunks, Chunk(|chunks|, plan, current));
    AppendWellFormed(size, chunks, plan, current);
  }

  lemma ReadRow(rows: seq<Row>, i: nat, plans: PlansByName)
    requires i < |rows| && AllKnown(rows[..i], plans) && (rows[i].valid ==> rows[i].university in plans)
    ensures AllKnown(rows[..i + 1], plans)
    ensures Tagged(rows[..i + 1], plans)
            == Tagged(rows[..i], plans) + if rows[i].valid then [(plans[rows[i].university], rows[i].email)] else []
  {
    assert rows[..i + 1][..i] == rows[..i];
  }

  /** Sent chunks are in order, and a row of `plan` may join the current chunk. */
  ghost predicate Open(size: int, chunks: seq<Chunk>, plan: PlanUuid, current: seq<Email>) {
    && WellFormed(chunks, size) && EmptyOnlyAfterFull(chunks, size) && (size >= 1 ==> |current| < size)
    && (chunks != [] && chunks[|chunks| - 1].plan == plan ==> |chunks[|chunks| - 1].emails| == size)
  }

  lemma TagOneMore(chunks: seq<Chunk>, plan: PlanUuid, current: seq<Email>, email: Email)
    ensures Sent(chunks) + TagAll(plan, current + [email]) == Sent(chunks) + TagAll(plan, current) + [(plan, email)]
  {
    assert TagAll(plan, current + [email]) == TagAll(plan, current) + [(plan, email)];
  }

  lemma SendCurrent(rows: seq<Row>, plans: PlansByName, size: int, plan: PlanUuid, chunks: seq<Chunk>,
                    current: seq<Email>)
    requires AllKnown(rows, plans) && WellFormed(chunks, size) && EmptyOnlyAfterFull(chunks, size)
    requires chunks != [] && chunks[|chunks| - 1].plan == plan ==> |chunks[|chunks| - 1].emails| == size
    requires current != [] && |current| == size && Tagged(rows, plans) == Sent(chunks) + TagAll(plan, current)
    ensures Between(rows, plans, size, chunks + [Chunk(|chunks|, plan, current)], Some(plan), [])
  {
    SentAppend(chunks, Chunk(|chunks|, plan, current));
    AppendWellFormed(size, chunks, plan, current);
    assert TagAll(plan, []) == [];
  }

  /** A valid row joins the current chunk, which is sent once it is full. */
  method TakeRow(ghost rows: seq<Row>, ghost plans: PlansByName, size: int, plan: PlanUuid, email: Email,
                 chunks0: seq<Chunk>, current0: seq<Email>)
    returns (chunks: seq<Chunk>, current: seq<Email>)
    requires AllKnown(rows, plans) && Open(size, chunks0, plan, current0)
    requires Tagged(rows, plans) == Sent(chunks0) + TagAll(plan, current0) + [(plan, email)]
    ensures Between(rows, plans, size, chunks, Some(plan), current)
    ensures (chunks, current) == Sending(size, chunks0, plan, current0 + [email])
  {
    TagOneMore(chunks0, plan, current0, email);
    chunks, current := chunks0, current0 + [email];
    if |current| == size {
      SendCurrent(rows, plans, size, plan, chunks, current);
      chunks := chunks + [Chunk(|chunks|, plan, current)];
      current := [];
    }
  }

  /** What holds between rows, in the loop. */
  ghost predicate Reading(rows: seq<Row>, plans: PlansByName, size: int, chunks: seq<Chunk>,
                          plan: Option<PlanUuid>, current: seq<Email>, start: nat) {
    Between(rows, plans, size, chunks, plan, current)
    && RunsMatch(Tagged(rows, plans), size, chunks, plan, current, start)
  }

  lemma SkipInvalid(rows: seq<Row>, i: nat, plans: PlansByName, size: int, chunks: seq<Chunk>,
                    plan: Option<PlanUuid>, current: seq<Email>, start: nat)
    requires i < |rows| && !rows[i].valid && Reading(rows[..i], plans, size, chunks, plan, current, start)
    ensures Reading(rows[..i + 1], plans, size, chunks, plan, current, start)
  {
    ReadRow(rows, i, plans);
  }

  /** Chunks and current chunk once a change of plan has been dealt with. */
  ghost function BeforeTaking(chunks: seq<Chunk>, plan: Option<PlanUuid>, current: seq<Email>,
                              next: PlanUuid): (seq<Chunk>, seq<Email>) {
    if plan == None || plan == Some(next) then (chunks, current)
    else (chunks + [Chunk(|chunks|, plan.value, current)], [])
  }

  lemma ReadyForFirst(rows: seq<Row>, plans: PlansByName, size: int, chunks: seq<Chunk>,
                      current: seq<Email>, next: PlanUuid)
    requires Between(rows, plans, size, chunks, None, current)
    ensures Open(size, chunks, next, current) && Sent(chunks) + TagAll(next, current) == Tagged(rows, plans)
  {
    assert Sent([]) == [] && TagAll(next, []) == [];
  }

  lemma ReadyForSame(rows: seq<Row>, plans: PlansByName, size: int, chunks: seq<Chunk>,
                     current: seq<Email>, next: PlanUuid)
    requires Between(rows, plans, size, chunks, Some(next), current)
    ensures Open(size, chunks, next, current) && Sent(chunks) + TagAll(next, current) == Tagged(rows, plans)
  {
  }

  lemma ReadyForOther(rows: seq<Row>, plans: PlansByName, size: int, chunks: seq<Chunk>,
                      plan: PlanUuid, current: seq<Email>, next: PlanUuid)
    requires Between(rows, plans, size, chunks, Some(plan), current) && plan != next
    ensures var longer := chunks + [Chunk(|chunks|, plan, current)];
            Open(size, longer, next, []) && Sent(longer) + TagAll(next, []) == Tagged(rows, plans)
  {
    var longer := chunks + [Chunk(|chunks|, plan, current)];
    ChangePlan(rows, plans, size, chunks, plan, current);
    assert TagAll(next, []) == [] && Sent(longer) + [] == Sent(longer);
  }

  lemma ReadyToTake(rows: seq<Row>, plans: PlansByName, size: int, chunks: seq<Chunk>,
                    plan: Option<PlanUuid>, current: seq<Email>, next: PlanUuid)
    requires Between(rows, plans, size, chunks, plan, current)
    ensures var (sent, rest) := BeforeTaking(chunks, plan, current, next);
            Open(size, sent, next, rest) && Sent(sent) + TagAll(next, rest) == Tagged(rows, plans)
  {
    if plan == None {
      assert BeforeTaking(chunks, plan, current, next) == (chunks, current);
      ReadyForFirst(rows, plans, size, chunks, current, next);
    } else if plan.value == next {
      assert BeforeTaking(chunks, plan, current, next) == (chunks, current);
      ReadyForSame(rows, plans, size, chunks, current, next);
    } else {
      ReadyForOther(rows, plans, size, chunks, plan.value, current, next);
    }
  }

  /** One valid row of a known university. */
  method NextRow(rows: seq<Row>, i: nat, plans: PlansByName, size: int,
                 chunks0: seq<Chunk>, plan0: Option<PlanUuid>, current0: seq<Email>)
    returns (chunks: seq<Chunk>, currentPlan: Option<PlanUuid>, current: seq<Email>)
    requires i < |rows| && rows[i].valid && rows[i].university in plans
    requires Between(rows[..i], plans, size, chunks0, plan0, current0)
    ensures Between(rows[..i + 1], plans, size, chunks, currentPlan, current)
    ensures var plan := plans[rows[i].university];
            var (sent, rest) := BeforeTaking(chunks0, plan0, current0, plan);
            currentPlan == Some(plan) && (chunks, current) == Sending(size, sent, plan, rest + [rows[i].email])
  {
    ReadyToTake(rows[..i], plans, size, chunks0, plan0, current0, plans[rows[i].university]);
    ReadRow(rows, i, plans);
    chunks, currentPlan, current := chunks0, plan0, current0;
    var plan := plans[rows[i].university];
    if currentPlan == None {
      currentPlan := Some(plan);
    }
    if currentPlan != Some(plan) {
      chunks := chunks + [Chunk(|chunks|, currentPlan.value, current)];
      current, currentPlan := [], Some(plan);
    }
    chunks, current := TakeRow(rows[..i + 1], plans, size, plan, rows[i].email, chunks, current);
  }

  /** The same row, seen from the runs. */
  lemma RunsAfterRow(rows: seq<Row>, i: nat, plans: PlansByName, size: int, chunks: seq<Chunk>,
                     plan: Option<PlanUuid>, current: seq<Email>, start: nat) returns (next: nat)
    requires i < |rows| && rows[i].valid && rows[i].university in plans && AllKnown(rows[..i], plans)
    requires RunsMatch(Tagged(rows[..i], plans), size, chunks, plan, current, start)
    requires plan == None ==> current == []
    ensures AllKnown(rows[..i + 1], plans)
    ensures var taken := plans[rows[i].university];
            var (before, held) := BeforeTaking(chunks, plan, current, taken);
            var (sent, rest) := Sending(size, before, taken, held + [rows[i].email]);
            RunsMatch(Tagged(rows[..i + 1], plans), size, sent, Some(taken), rest, next)
  {
    var tagged, row := Tagged(rows[..i], plans), (plans[rows[i].university], rows[i].email);
    assert [] + [row.1] == [row.1];
    ReadRow(rows, i, plans);
    next := start;
    if plan == None {
      FirstRow(size, chunks, row);
      assert [] + [row] == [row];
      next := 0;
    } else if plan.value == row.0 {
      SamePlanRow(tagged, size, chunks, plan.value, current, start, row.1);
    } else {
      OtherPlanRow(tagged, size, chunks, plan.value, current, start, row);
      next := |tagged|;
    }
  }

  /** What is left at the end goes out, and is not empty. */
  lemma LastChunk(rows: seq<Row>, plans: PlansByName, size: int, chunks: seq<Chunk>, plan: PlanUuid,
                  current: seq<Email>, start: nat)
    requires Reading(rows, plans, size, chunks, Some(plan), current, start) && current != []
    ensures var longer := chunks + [Chunk(|chunks|, plan, current)];
            && Sent(longer) == Tagged(rows, plans)
            && WellFormed(longer, size) && EmptyOnlyAfterFull(longer, size)
            && (HasEmpty(longer) <==> HasEmpty(chunks))
  {
    ChangePlan(rows, plans, size, chunks, plan, current);
    AppendEmptiness(chunks, Chunk(|chunks|, plan, current));
  }

  /** The turn of one valid row of a known university. */
  method ReadValid(rows: seq<Row>, i: nat, plans: PlansByName, size: int,
                   chunks0: seq<Chunk>, plan0: Option<PlanUuid>, current0: seq<Email>, ghost start0: nat)
    returns (chunks: seq<Chunk>, plan: Option<PlanUuid>, current: seq<Email>, ghost start: nat)
    requires i < |rows| && rows[i].valid && rows[i].university in plans
    requires Reading(rows[..i], plans, size, chunks0, plan0, current0, start0)
    ensures Reading(rows[..i + 1], plans, size, chunks, plan, current, start)
  {
    start := RunsAfterRow(rows, i, plans, size, chunks0, plan0, current0, start0);
    chunks, plan, current := NextRow(rows, i, plans, size, chunks0, plan0, current0);
  }

  lemma NothingRead(rows: seq<Row>, plans: PlansByName, size: int)
    ensures Reading(rows[..0], plans, size, [], None, [], 0)
  {
    assert rows[..0] == [];
  }

  /** What the chunks sent so far say when the generator stops. */
  lemma StopsHere(rows: seq<Row>, plans: PlansByName, size: int, chunks: seq<Chunk>,
                  plan: Option<PlanUuid>, current: seq<Email>, start: nat)
    requires Reading(rows, plans, size, chunks, plan, current, start)
    ensures Sent(chunks) <= Tagged(rows, plans)
    ensures size >= 1 ==> |Tagged(rows, plans)| - |Sent(chunks)| < size
    ensures current == [] ==>
              Sent(chunks) == Tagged(rows, plans) && (chunks != [] ==> chunks[|chunks| - 1].emails != [])
  {
  }

  /** The loop over the rows, up to the first valid one that names an unknown university. */
  method ReadRows(rows: seq<Row>, plans: PlansByName, size: int)
    returns (chunks: seq<Chunk>, plan: Option<PlanUuid>, current: seq<Email>, consumed: nat, ghost start: nat)
    ensures consumed <= |rows| && Reading(rows[..consumed], plans, size, chunks, plan, current, start)
    ensures consumed < |rows| ==> rows[consumed].valid && rows[consumed].university !in plans
  {
    chunks, plan, current, start := [], None, [], 0;
    NothingRead(rows, plans, size);
    for i := 0 to |rows|
      invariant Reading(rows[..i], plans, size, chunks, plan, current, start)
    {
      if !rows[i].valid {
        SkipInvalid(rows, i, plans, size, chunks, plan, current, start);
        continue;
      }
      if rows[i].university !in plans {
        consumed := i;
        return;
      }
      chunks, plan, current, start := ReadValid(rows, i, plans, size, chunks, plan, current, start);
    }
    consumed := |rows|;
  }

  /**
   `get_email_chunks` of the assignment script. `consumed` is the number of rows read; fewer than all
   means that the next one names an unknown university and the generator raised.
   */
  method AssignmentChunks(rows: seq<Row>, plans: PlansByName, size: int) returns (chunks: seq<Chunk>, consumed: nat)
    ensures consumed <= |rows| && AllKnown(rows[..consumed], plans)
    ensures consumed < |rows| ==> rows[consumed].valid && rows[consumed].university !in plans
    ensures consumed == |rows| ==> Sent(chunks) == Tagged(rows[..consumed], plans)
    ensures consumed < |rows| ==> Sent(chunks) <= Tagged(rows[..consumed], plans)
    ensures consumed < |rows| && size >= 1 ==> |Tagged(rows[..consumed], plans)| - |Sent(chunks)| < size
    ensures WellFormed(chunks, size) && EmptyOnlyAfterFull(chunks, size)
    ensures HasEmpty(chunks) <==> size >= 1 && FullRunFollowed(Tagged(rows[..consumed], plans), size)
    ensures consumed == |rows| && chunks != [] ==> chunks[|chunks| - 1].emails != []
  {
    var plan, current;
    ghost var start;
    chunks, plan, current, consumed, start := ReadRows(rows, plans, size);
    ghost var read := rows[..consumed];
    StopsHere(read, plans, size, chunks, plan, current, start);
    if consumed == |rows| && current != [] {
      LastChunk(read, plans, size, chunks, plan.value, current, start);
      chunks := chunks + [Chunk(|chunks|, plan.value, current)];
    }
  }

  /** One row for each of two plans and chunks of one row: an empty chunk goes out in between. */
  method EmptyChunkIsSent() returns (chunks: seq<Chunk>)
    ensures HasEmpty(chunks)
  {
    var rows := [Row("a", true, "x"), Row("b", true, "y")];
    var plans := map["x" := 0, "y" := 1];
    var consumed;
    chunks, consumed := AssignmentChunks(rows, plans, 1);
    FullRunBeforeAnother();
    assert rows[..2] == rows;
  }

  lemma FullRunBeforeAnother()
    ensures var rows := [Row("a", true, "x"), Row("b", true, "y")];
            var plans := map["x" := 0, "y" := 1];
            Tagged(rows, plans) == [(0, "a"), (1, "b")] && FullRunFollowed(Tagged(rows, plans), 1)
  {
    var rows := [Row("a", true, "x"), Row("b", true, "y")];
    var plans := map["x" := 0, "y" := 1];
    assert rows[..1] == [rows[0]] && rows[..1][..0] == [];
    assert Tagged(rows[..1], plans) == [(0, "a")];
    assert IsRun(Tagged(rows, plans), 0, 1);
  }
}
