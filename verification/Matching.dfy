/**
 Checking which learners have a license for which courses, asking the catalog about
 each plan and course at most once.
 */
module Matching {
  import opened Collections
  import opened Licensing

  type Course = string

  /** The catalog service: does a plan contain a course? */
  type Catalog = (PlanId, Course) -> bool

  /** One enrollment; a license still to be activated brings the key for its activation link. */
  datatype Entry = Entry(email: Email, course: Course, id: LicenseId, pendingKey: Option<Option<int>>)

  function EntryFor(ls: Licenses, id: LicenseId, email: Email, course: Course): Entry
    requires id in ls
  {
    Entry(email, course, id, if ls[id].status == Status.Assigned then Some(ls[id].activationKey) else None)
  }

  // ---- Without a memo: the simple form ---------------------------------------------

  /** The entries for one learner and course, given the learner's licenses in order. */
  ghost function PlainEntries(ls: Licenses, catalog: Catalog, rows: seq<LicenseId>, email: Email,
                              course: Course): seq<Entry>
    requires forall id :: id in rows ==> id in ls
  {
    if rows == [] then []
    else
      var last := rows[|rows| - 1];
      PlainEntries(ls, catalog, rows[..|rows| - 1], email, course)
      + if catalog(ls[last].plan, course) then [EntryFor(ls, last, email, course)] else []
  }

  type Orders = map<Email, seq<LicenseId>>

  ghost predicate Stored(ls: Licenses, orders: Orders) {
    forall email :: email in orders ==> forall id :: id in orders[email] ==> id in ls
  }

  ghost function PlainReport(ls: Licenses, catalog: Catalog, orders: Orders, pairs: seq<(Email, Course)>): seq<Entry>
    requires Stored(ls, orders) && forall p :: p in pairs ==> p.0 in orders
  {
    if pairs == [] then []
    else
      var last := pairs[|pairs| - 1];
      PlainReport(ls, catalog, orders, pairs[..|pairs| - 1]) + PlainEntries(ls, catalog, orders[last.0], last.0, last.1)
  }

  ghost predicate MissingExactly(ls: Licenses, catalog: Catalog, orders: Orders, pairs: seq<(Email, Course)>,
                                 missing: map<Email, seq<Course>>)
    requires Stored(ls, orders) && forall p :: p in pairs ==> p.0 in orders
  {
    && (forall email, course ::
          email in missing && course in missing[email] <==>
          (email, course) in pairs && PlainEntries(ls, catalog, orders[email], email, course) == [])
    && (forall email :: email in missing ==> missing[email] != [] && NoDup(missing[email]))
  }

  // ---- With the memo ------------------------------------------------------------------

  /** The memo holds what the catalog said, and the catalog was asked once for each of its keys. */
  ghost predicate Faithful(catalog: Catalog, memo: map<(PlanId, Course), bool>, asked: seq<(PlanId, Course)>) {
    && (forall k :: k in memo ==> memo[k] == catalog(k.0, k.1))
    && Enumerates(asked, memo.Keys)
  }

  /** The plans of some licenses, each with the course. */
  ghost function PlanKeys(ls: Licenses, rows: seq<LicenseId>, course: Course): set<(PlanId, Course)>
    requires forall id :: id in rows ==> id in ls
  {
    set id | id in rows :: (ls[id].plan, course)
  }

  /** The questions that some pairs of learner and course raise. */
  ghost function Questions(ls: Licenses, orders: Orders, pairs: seq<(Email, Course)>): set<(PlanId, Course)>
    requires Stored(ls, orders) && forall p :: p in pairs ==> p.0 in orders
  {
    if pairs == [] then {}
    else
      var last := pairs[|pairs| - 1];
      Questions(ls, orders, pairs[..|pairs| - 1]) + PlanKeys(ls, orders[last.0], last.1)
  }

  /** Looks in the memo first. */
  method Contains(catalog: Catalog, memo0: map<(PlanId, Course), bool>, asked0: seq<(PlanId, Course)>,
                  key: (PlanId, Course))
    returns (contains: bool, memo: map<(PlanId, Course), bool>, asked: seq<(PlanId, Course)>)
    requires Faithful(catalog, memo0, asked0)
    ensures contains == catalog(key.0, key.1) && Faithful(catalog, memo, asked)
    ensures memo.Keys == memo0.Keys + {key}
  {
    memo, asked := memo0, asked0;
    if key in memo {
      contains := memo[key];
    } else {
      contains := catalog(key.0, key.1);
      AskOnce(catalog, memo, asked, key);
      memo, asked := memo[key := contains], asked + [key];
    }
  }

  /** The innermost loop: one learner, one course. */
  method MatchCourse(ls: Licenses, catalog: Catalog, rows: seq<LicenseId>, email: Email, course: Course,
                     memo0: map<(PlanId, Course), bool>, asked0: seq<(PlanId, Course)>)
    returns (entries: seq<Entry>, found: bool, memo: map<(PlanId, Course), bool>, asked: seq<(PlanId, Course)>)
    requires forall id :: id in rows ==> id in ls
    requires Faithful(catalog, memo0, asked0)
    ensures entries == PlainEntries(ls, catalog, rows, email, course)
    ensures found <==> entries != []
    ensures Faithful(catalog, memo, asked)
    ensures memo.Keys == memo0.Keys + PlanKeys(ls, rows, course)
  {
    entries, found, memo, asked := [], false, memo0, asked0;
    for i := 0 to |rows|
      invariant MatchedUpTo(ls, catalog, rows, i, email, course, entries, memo0.Keys, memo.Keys)
      invariant found <==> entries != []
      invariant Faithful(catalog, memo, asked)
    {
      MatchedOneMore(ls, catalog, rows, i, email, course, entries, memo0.Keys, memo.Keys);
      var matched;
      matched, memo, asked := MatchLicense(ls, catalog, rows[i], email, course, memo, asked);
      entries, found := entries + matched, found || matched != [];
    }
    assert rows[..|rows|] == rows;
  }

  /** The entries for the first `i` licenses, and the keys of the memo once their plans were looked up. */
  ghost predicate MatchedUpTo(ls: Licenses, catalog: Catalog, rows: seq<LicenseId>, i: nat, email: Email,
                              course: Course, entries: seq<Entry>, before: set<(PlanId, Course)>,
                              keys: set<(PlanId, Course)>)
    requires i <= |rows| && forall id :: id in rows ==> id in ls
  {
    entries == PlainEntries(ls, catalog, rows[..i], email, course) && keys == before + PlanKeys(ls, rows[..i], course)
  }

  lemma MatchedOneMore(ls: Licenses, catalog: Catalog, rows: seq<LicenseId>, i: nat, email: Email, course: Course,
                       entries: seq<Entry>, before: set<(PlanId, Course)>, keys: set<(PlanId, Course)>)
    requires i < |rows| && forall id :: id in rows ==> id in ls
    requires MatchedUpTo(ls, catalog, rows, i, email, course, entries, before, keys)
    ensures var matched := if catalog(ls[rows[i]].plan, course) then [EntryFor(ls, rows[i], email, course)] else [];
            MatchedUpTo(ls, catalog, rows, i + 1, email, course, entries + matched, before,
                        keys + {(ls[rows[i]].plan, course)})
  {
    MoreEntries(ls, catalog, rows, i, email, course);
    MorePlanKeys(ls, rows, i, course);
  }

  /** The turn of one license. */
  method MatchLicense(ls: Licenses, catalog: Catalog, id: LicenseId, email: Email, course: Course,
                      memo0: map<(PlanId, Course), bool>, asked0: seq<(PlanId, Course)>)
    returns (matched: seq<Entry>, memo: map<(PlanId, Course), bool>, asked: seq<(PlanId, Course)>)
    requires id in ls && Faithful(catalog, memo0, asked0)
    ensures matched == if catalog(ls[id].plan, course) then [EntryFor(ls, id, email, course)] else []
    ensures Faithful(catalog, memo, asked) && memo.Keys == memo0.Keys + {(ls[id].plan, course)}
  {
    var contains;
    contains, memo, asked := Contains(catalog, memo0, asked0, (ls[id].plan, course));
    matched := if contains then [EntryFor(ls, id, email, course)] else [];
  }

  lemma MoreEntries(ls: Licenses, catalog: Catalog, rows: seq<LicenseId>, i: nat, email: Email, course: Course)
    requires i < |rows| && forall id :: id in rows ==> id in ls
    ensures PlainEntries(ls, catalog, rows[..i + 1], email, course)
            == PlainEntries(ls, catalog, rows[..i], email, course)
               + if catalog(ls[rows[i]].plan, course) then [EntryFor(ls, rows[i], email, course)] else []
  {
    assert rows[..i + 1][..i] == rows[..i];
  }

  lemma MorePlanKeys(ls: Licenses, rows: seq<LicenseId>, i: nat, course: Course)
    requires i < |rows| && forall id :: id in rows ==> id in ls
    ensures PlanKeys(ls, rows[..i + 1], course) == PlanKeys(ls, rows[..i], course) + {(ls[rows[i]].plan, course)}
  {
    assert forall id :: id in rows[..i + 1] <==> id in rows[..i] || id == rows[i];
  }

  lemma AskOnce(catalog: Catalog, memo: map<(PlanId, Course), bool>, asked: seq<(PlanId, Course)>,
                key: (PlanId, Course))
    requires Faithful(catalog, memo, asked) && key !in memo
    ensures Faithful(catalog, memo[key := catalog(key.0, key.1)], asked + [key])
  {
    ElemsAppend(asked, key);
    forall i | 0 <= i < |asked|
      ensures asked[i] != key
    {
      assert asked[i] in Elems(asked);
    }
  }

  /** The licenses of a learner in the plans looked at, whatever their status. */
  function LicensesFor(ls: Licenses, plans: set<PlanId>, email: Email): set<LicenseId> {
    set id | id in ls && ls[id].plan in plans && ls[id].email == Some(email)
  }

  function Expiration(ls: Licenses, expires: map<PlanId, Time>, id: LicenseId): int {
    if id in ls && ls[id].plan in expires then expires[ls[id].plan] else 0
  }

  /** A learner's licenses, latest expiration first. */
  ghost predicate LatestFirst(ls: Licenses, plans: set<PlanId>, expires: map<PlanId, Time>, email: Email,
                              rows: seq<LicenseId>) {
    && Enumerates(rows, LicensesFor(ls, plans, email))
    && forall i, j :: 0 <= i < j < |rows| ==> Expiration(ls, expires, rows[i]) >= Expiration(ls, expires, rows[j])
  }

  method SortByExpiration(ls: Licenses, plans: set<PlanId>, expires: map<PlanId, Time>,
                          email: Email) returns (rows: seq<LicenseId>)
    ensures LatestFirst(ls, plans, expires, email, rows)
    ensures forall id :: id in rows ==> id in ls
  {
    var found := Query(LicensesFor(ls, plans, email));
    var key: LicenseId -> int := (id: LicenseId) => Expiration(ls, expires, id);
    rows := SortDescending<LicenseId>(found, key);
    SortIsDescending<LicenseId>(found, key);
    SortEnumerates(found, rows, LicensesFor(ls, plans, email));
    assert forall i, j :: 0 <= i < j < |rows| ==> key(rows[i]) >= key(rows[j]);
    assert forall id :: id in rows ==> id in Elems(rows);
  }

  /** Everything known after the pairs so far. */
  ghost predicate Progress(ls: Licenses, catalog: Catalog, orders: Orders, pairs: seq<(Email, Course)>,
                           missing: map<Email, seq<Course>>, info: seq<Entry>,
                           memo: map<(PlanId, Course), bool>, asked: seq<(PlanId, Course)>)
  {
    && Stored(ls, orders) && (forall p :: p in pairs ==> p.0 in orders) && NoDup(pairs)
    && info == PlainReport(ls, catalog, orders, pairs)
    && MissingExactly(ls, catalog, orders, pairs, missing)
    && Faithful(catalog, memo, asked) && memo.Keys == Questions(ls, orders, pairs)
  }

  lemma QuestionsAppend(ls: Licenses, orders: Orders, pairs: seq<(Email, Course)>, last: (Email, Course))
    requires Stored(ls, orders) && last.0 in orders && forall p :: p in pairs ==> p.0 in orders
    ensures Questions(ls, orders, pairs + [last]) == Questions(ls, orders, pairs) + PlanKeys(ls, orders[last.0], last.1)
  {
    assert (pairs + [last])[..|pairs|] == pairs;
  }

  lemma ReportAppend(ls: Licenses, catalog: Catalog, orders: Orders, pairs: seq<(Email, Course)>, last: (Email, Course))
    requires Stored(ls, orders) && last.0 in orders && forall p :: p in pairs ==> p.0 in orders
    ensures PlainReport(ls, catalog, orders, pairs + [last])
            == PlainReport(ls, catalog, orders, pairs) + PlainEntries(ls, catalog, orders[last.0], last.0, last.1)
  {
    assert (pairs + [last])[..|pairs|] == pairs;
  }

  /** `missing[email]` with one more course. */
  function AddMissing(missing: map<Email, seq<Course>>, email: Email, course: Course): map<Email, seq<Course>> {
    missing[email := (if email in missing then missing[email] else []) + [course]]
  }

  lemma MissingAppend(ls: Licenses, catalog: Catalog, orders: Orders, pairs: seq<(Email, Course)>,
                      missing: map<Email, seq<Course>>, email: Email, course: Course)
    requires Stored(ls, orders) && email in orders && forall p :: p in pairs ==> p.0 in orders
    requires MissingExactly(ls, catalog, orders, pairs, missing) && (email, course) !in pairs
    ensures MissingExactly(ls, catalog, orders, pairs + [(email, course)],
              if PlainEntries(ls, catalog, orders[email], email, course) == [] then AddMissing(missing, email, course)
              else missing)
  {
    var longer := pairs + [(email, course)];
    assert forall p :: p in longer <==> p in pairs || p == (email, course);
    assert email in missing ==> course !in missing[email];
    AddMissingAdds(missing, email, course);
  }

  lemma AddMissingAdds(missing: map<Email, seq<Course>>, email: Email, course: Course)
    requires forall e :: e in missing ==> missing[e] != [] && NoDup(missing[e])
    requires email in missing ==> course !in missing[email]
    ensures var after := AddMissing(missing, email, course);
            && (forall e :: e in after ==> after[e] != [] && NoDup(after[e]))
            && forall e, c :: e in after && c in after[e] <==>
                 (e in missing && c in missing[e]) || (e == email && c == course)
  {
    var courses := AddMissing(missing, email, course)[email];
    assert forall c :: c in courses <==> (email in missing && c in missing[email]) || c == course;
  }

  lemma ProgressStep(ls: Licenses, catalog: Catalog, orders: Orders, pairs: seq<(Email, Course)>,
                     missing: map<Email, seq<Course>>, info: seq<Entry>,
                     memo: map<(PlanId, Course), bool>, asked: seq<(PlanId, Course)>, email: Email, course: Course,
                     newMemo: map<(PlanId, Course), bool>, newAsked: seq<(PlanId, Course)>)
    requires Progress(ls, catalog, orders, pairs, missing, info, memo, asked)
    requires email in orders && (email, course) !in pairs && Faithful(catalog, newMemo, newAsked)
    requires newMemo.Keys == memo.Keys + PlanKeys(ls, orders[email], course)
    ensures var entries := PlainEntries(ls, catalog, orders[email], email, course);
            Progress(ls, catalog, orders, pairs + [(email, course)],
                     if entries == [] then AddMissing(missing, email, course) else missing,
                     info + entries, newMemo, newAsked)
  {
    ReportAppend(ls, catalog, orders, pairs, (email, course));
    QuestionsAppend(ls, orders, pairs, (email, course));
    MissingAppend(ls, catalog, orders, pairs, missing, email, course);
    PairAppend(pairs, (email, course));
  }

  /** The loop over the courses for one learner. */
  method MatchLearner(ls: Licenses, catalog: Catalog, email: Email, rows: seq<LicenseId>, courses: set<Course>,
                      missing0: map<Email, seq<Course>>, info0: seq<Entry>,
                      memo0: map<(PlanId, Course), bool>, asked0: seq<(PlanId, Course)>,
                      ghost orders: Orders, ghost pairs0: seq<(Email, Course)>)
    returns (missing: map<Email, seq<Course>>, info: seq<Entry>, memo: map<(PlanId, Course), bool>,
             asked: seq<(PlanId, Course)>, ghost pairs: seq<(Email, Course)>)
    requires Progress(ls, catalog, orders, pairs0, missing0, info0, memo0, asked0)
    requires email in orders && orders[email] == rows && forall p :: p in pairs0 ==> p.0 != email
    ensures Progress(ls, catalog, orders, pairs, missing, info, memo, asked)
    ensures forall p :: p in pairs <==> p in pairs0 || (p.0 == email && p.1 in courses)
  {
    missing, info, memo, asked, pairs := missing0, info0, memo0, asked0, pairs0;
    var order := Query(courses);
    for i := 0 to |order|
      invariant Progress(ls, catalog, orders, pairs, missing, info, memo, asked)
      invariant forall p :: p in pairs <==> p in pairs0 || (p.0 == email && p.1 in Elems(order[..i]))
    {
      NextRow(order, i);
      var entries, found, newMemo, newAsked := MatchCourse(ls, catalog, rows, email, order[i], memo, asked);
      ProgressStep(ls, catalog, orders, pairs, missing, info, memo, asked, email, order[i], newMemo, newAsked);
      PairAppend(pairs, (email, order[i]));
      info, memo, asked := info + entries, newMemo, newAsked;
      if !found {
        missing := AddMissing(missing, email, order[i]);
      }
      pairs := pairs + [(email, order[i])];
    }
    assert order[..|order|] == order;
  }

  lemma PairAppend(pairs: seq<(Email, Course)>, last: (Email, Course))
    requires NoDup(pairs) && last !in pairs
    ensures NoDup(pairs + [last]) && forall p :: p in pairs + [last] <==> p in pairs || p == last
  {
  }

  /** The turn of one learner. */
  method MatchNext(ls: Licenses, catalog: Catalog, plans: set<PlanId>, expires: map<PlanId, Time>, email: Email,
                   courses: set<Course>,
                   missing0: map<Email, seq<Course>>, info0: seq<Entry>,
                   memo0: map<(PlanId, Course), bool>, asked0: seq<(PlanId, Course)>,
                   ghost orders0: Orders, ghost pairs0: seq<(Email, Course)>)
    returns (missing: map<Email, seq<Course>>, info: seq<Entry>, memo: map<(PlanId, Course), bool>,
             asked: seq<(PlanId, Course)>, ghost orders: Orders, ghost pairs: seq<(Email, Course)>)
    requires Progress(ls, catalog, orders0, pairs0, missing0, info0, memo0, asked0) && email !in orders0
    ensures Progress(ls, catalog, orders, pairs, missing, info, memo, asked)
    ensures forall p :: p in pairs <==> p in pairs0 || (p.0 == email && p.1 in courses)
    ensures email in orders && orders == orders0[email := orders[email]]
            && LatestFirst(ls, plans, expires, email, orders[email])
  {
    var rows := SortByExpiration(ls, plans, expires, email);
    OrdersGrow(ls, catalog, orders0, pairs0, missing0, email, rows);
    orders := orders0[email := rows];
    missing, info, memo, asked, pairs :=
      MatchLearner(ls, catalog, email, rows, courses, missing0, info0, memo0, asked0, orders, pairs0);
  }

  /**
   `check_missing_licenses`: the memoised loops report what the plain form reports, for every
   distinct learner and course, and consult the catalog at most once for a plan and course.
   */
  method CheckMissingLicenses(ls: Licenses, catalog: Catalog, plans: set<PlanId>, expires: map<PlanId, Time>,
                              emails: seq<Email>, courses: seq<Course>)
    returns (missing: map<Email, seq<Course>>, info: seq<Entry>, asked: seq<(PlanId, Course)>,
             ghost orders: Orders, ghost pairs: seq<(Email, Course)>)
    ensures Stored(ls, orders) && (forall p :: p in pairs ==> p.0 in orders) && NoDup(pairs)
    ensures forall email, course :: (email, course) in pairs <==> email in emails && course in courses
    ensures forall email :: email in emails ==> email in orders && LatestFirst(ls, plans, expires, email, orders[email])
    ensures info == PlainReport(ls, catalog, orders, pairs)
    ensures MissingExactly(ls, catalog, orders, pairs, missing)
    ensures Enumerates(asked, QuestionsOf(ls, plans, emails, courses))
  {
    missing, info, asked := map[], [], [];
    var memo: map<(PlanId, Course), bool> := map[];
    orders, pairs := map[], [];
    var learners := Query(set email | email in emails);
    var wanted := set course | course in courses;
    for i := 0 to |learners|
      invariant Progress(ls, catalog, orders, pairs, missing, info, memo, asked)
      invariant forall email :: email in orders <==> email in learners[..i]
      invariant forall email :: email in orders ==> LatestFirst(ls, plans, expires, email, orders[email])
      invariant forall p :: p in pairs <==> p.0 in learners[..i] && p.1 in wanted
    {
      var email := learners[i];
      NextRow(learners, i);
      assert learners[..i + 1] == learners[..i] + [email];
      assert email !in learners[..i];
      missing, info, memo, asked, orders, pairs :=
        MatchNext(ls, catalog, plans, expires, email, wanted, missing, info, memo, asked, orders, pairs);
    }
    assert learners[..|learners|] == learners;
    assert forall email :: email in learners <==> email in Elems(learners);
    AskedExactly(ls, plans, expires, orders, pairs, emails, courses);
  }

  /** The plan of each license of one of the learners, in one of the plans looked at, with each course. */
  ghost function QuestionsOf(ls: Licenses, plans: set<PlanId>, emails: seq<Email>,
                             courses: seq<Course>): set<(PlanId, Course)> {
    set id, course | id in ls && ls[id].plan in plans && ls[id].email.Some? && ls[id].email.value in emails
                     && course in courses :: (ls[id].plan, course)
  }

  lemma {:induction false} QuestionsAre(ls: Licenses, orders: Orders, pairs: seq<(Email, Course)>, k: (PlanId, Course))
    requires Stored(ls, orders) && forall p :: p in pairs ==> p.0 in orders
    ensures k in Questions(ls, orders, pairs) <==>
            exists p, id :: p in pairs && id in orders[p.0] && k == (ls[id].plan, p.1)
  {
    if pairs == [] {
    } else {
      var init, last := pairs[..|pairs| - 1], pairs[|pairs| - 1];
      QuestionsAre(ls, orders, init, k);
      assert pairs == init + [last];
      assert forall p :: p in pairs <==> p in init || p == last;
    }
  }

  lemma AskedExactly(ls: Licenses, plans: set<PlanId>, expires: map<PlanId, Time>, orders: Orders,
                     pairs: seq<(Email, Course)>, emails: seq<Email>, courses: seq<Course>)
    requires Stored(ls, orders) && forall p :: p in pairs ==> p.0 in orders
    requires forall email, course :: (email, course) in pairs <==> email in emails && course in courses
    requires forall email :: email in emails ==>
               email in orders && LatestFirst(ls, plans, expires, email, orders[email])
    ensures Questions(ls, orders, pairs) == QuestionsOf(ls, plans, emails, courses)
  {
    forall email, id | email in emails
      ensures id in orders[email] <==> id in LicensesFor(ls, plans, email)
    {
      assert id in orders[email] <==> id in Elems(orders[email]);
    }
    forall k
      ensures k in Questions(ls, orders, pairs) <==> k in QuestionsOf(ls, plans, emails, courses)
    {
      QuestionsAre(ls, orders, pairs, k);
      if k in Questions(ls, orders, pairs) {
        var p, id :| p in pairs && id in orders[p.0] && k == (ls[id].plan, p.1);
        assert (p.0, p.1) in pairs;
        assert id in LicensesFor(ls, plans, p.0);
      }
      if k in QuestionsOf(ls, plans, emails, courses) {
        var id, course :| id in ls && ls[id].plan in plans && ls[id].email.Some? && ls[id].email.value in emails
                          && course in courses && k == (ls[id].plan, course);
        assert id in LicensesFor(ls, plans, ls[id].email.value);
        assert (ls[id].email.value, course) in pairs;
      }
    }
  }

  lemma {:induction false} OrdersGrow(ls: Licenses, catalog: Catalog, orders: Orders, pairs: seq<(Email, Course)>,
                                      missing: map<Email, seq<Course>>, email: Email, rows: seq<LicenseId>)
    requires Stored(ls, orders) && (forall p :: p in pairs ==> p.0 in orders)
    requires email !in orders && forall id :: id in rows ==> id in ls
    ensures Stored(ls, orders[email := rows])
    ensures PlainReport(ls, catalog, orders[email := rows], pairs) == PlainReport(ls, catalog, orders, pairs)
    ensures Questions(ls, orders[email := rows], pairs) == Questions(ls, orders, pairs)
    ensures MissingExactly(ls, catalog, orders, pairs, missing) ==>
              MissingExactly(ls, catalog, orders[email := rows], pairs, missing)
    decreases |pairs|
  {
    if pairs == [] {
    } else {
      OrdersGrow(ls, catalog, orders, pairs[..|pairs| - 1], missing, email, rows);
      assert pairs[|pairs| - 1] in pairs;
    }
  }

  // ---- What the report says -----------------------------------------------------------

  ghost function Select(info: seq<Entry>, email: Email, course: Course): seq<Entry> {
    if info == [] then []
    else Select(info[..|info| - 1], email, course)
         + if info[|info| - 1].email == email && info[|info| - 1].course == course then [info[|info| - 1]] else []
  }

  lemma {:induction false} SelectConcat(a: seq<Entry>, b: seq<Entry>, email: Email, course: Course)
    ensures Select(a + b, email, course) == Select(a, email, course) + Select(b, email, course)
  {
    if b == [] {
      assert a + b == a;
    } else {
      assert (a + b)[..|a + b| - 1] == a + b[..|b| - 1];
      SelectConcat(a, b[..|b| - 1], email, course);
    }
  }

  lemma {:induction false} SelectPlain(ls: Licenses, catalog: Catalog, rows: seq<LicenseId>, email: Email,
                                       course: Course,
                                       e: Email, c: Course)
    requires forall id :: id in rows ==> id in ls
    ensures var entries := PlainEntries(ls, catalog, rows, email, course);
            Select(entries, e, c) == if e == email && c == course then entries else []
  {
    if rows == [] {
    } else {
      var init := rows[..|rows| - 1];
      SelectPlain(ls, catalog, init, email, course, e, c);
      var last := EntryFor(ls, rows[|rows| - 1], email, course);
      var tail := if catalog(ls[rows[|rows| - 1]].plan, course) then [last] else [];
      SelectConcat(PlainEntries(ls, catalog, init, email, course), tail, e, c);
      assert [last][..0] == [];
      assert Select(tail, e, c) == if e == email && c == course then tail else [];
    }
  }

  lemma InInit(pairs: seq<(Email, Course)>, p: (Email, Course))
    requires pairs != [] && NoDup(pairs)
    ensures p in pairs <==> p in pairs[..|pairs| - 1] || p == pairs[|pairs| - 1]
    ensures p == pairs[|pairs| - 1] ==> p !in pairs[..|pairs| - 1]
  {
    assert pairs == pairs[..|pairs| - 1] + [pairs[|pairs| - 1]];
  }

  /** The entries reported for one learner and course are the plain ones for it, no more and no fewer. */
  lemma {:induction false} ReportPerPair(ls: Licenses, catalog: Catalog, orders: Orders, pairs: seq<(Email, Course)>,
                                         email: Email, course: Course)
    requires Stored(ls, orders) && (forall p :: p in pairs ==> p.0 in orders) && NoDup(pairs)
    ensures Select(PlainReport(ls, catalog, orders, pairs), email, course)
            == if (email, course) in pairs then PlainEntries(ls, catalog, orders[email], email, course) else []
    decreases |pairs|
  {
    if pairs == [] {
    } else {
      var init, last := pairs[..|pairs| - 1], pairs[|pairs| - 1];
      assert pairs == init + [last];
      InInit(pairs, (email, course));
      ReportPerPair(ls, catalog, orders, init, email, course);
      var entries := PlainEntries(ls, catalog, orders[last.0], last.0, last.1);
      SelectConcat(PlainReport(ls, catalog, orders, init), entries, email, course);
      SelectPlain(ls, catalog, orders[last.0], last.0, last.1, email, course);
    }
  }

  /** The entries are the licenses whose plan has the course. */
  lemma {:induction false} PlainEntriesAreMatches(ls: Licenses, catalog: Catalog, rows: seq<LicenseId>, email: Email,
                                                  course: Course)
    requires forall id :: id in rows ==> id in ls
    ensures forall e :: e in PlainEntries(ls, catalog, rows, email, course) <==>
                        e.id in rows && catalog(ls[e.id].plan, course) && e == EntryFor(ls, e.id, email, course)
  {
    if rows == [] {
    } else {
      var init, last := rows[..|rows| - 1], rows[|rows| - 1];
      PlainEntriesAreMatches(ls, catalog, init, email, course);
      assert rows == init + [last];
      assert forall id :: id in rows <==> id in init || id == last;
    }
  }

  ghost predicate InOrder(ls: Licenses, expires: map<PlanId, Time>, entries: seq<Entry>) {
    forall i, j :: 0 <= i < j < |entries| ==>
      && entries[i].id != entries[j].id
      && Expiration(ls, expires, entries[i].id) >= Expiration(ls, expires, entries[j].id)
  }

  /** One entry for each such license, latest expiration first. */
  lemma {:induction false} PlainEntriesInOrder(ls: Licenses, catalog: Catalog, expires: map<PlanId, Time>,
                                               rows: seq<LicenseId>, email: Email, course: Course)
    requires NoDup(rows) && forall id :: id in rows ==> id in ls
    requires forall i, j :: 0 <= i < j < |rows| ==> Expiration(ls, expires, rows[i]) >= Expiration(ls, expires, rows[j])
    ensures InOrder(ls, expires, PlainEntries(ls, catalog, rows, email, course))
    ensures var entries := PlainEntries(ls, catalog, rows, email, course);
            forall i, j :: 0 <= i < j < |entries| ==>
              entries[i].id in ls && entries[j].id in ls
              && (ls[entries[i].id].plan in expires && ls[entries[j].id].plan in expires ==>
                    expires[ls[entries[i].id].plan] >= expires[ls[entries[j].id].plan])
  {
    if rows == [] {
    } else {
      var init, last := rows[..|rows| - 1], rows[|rows| - 1];
      PlainEntriesInOrder(ls, catalog, expires, init, email, course);
      PlainEntriesAreMatches(ls, catalog, init, email, course);
      var before := PlainEntries(ls, catalog, init, email, course);
      forall i | 0 <= i < |before|
        ensures before[i].id != last && Expiration(ls, expires, before[i].id) >= Expiration(ls, expires, last)
      {
        assert before[i] in before;
        var k :| 0 <= k < |init| && init[k] == before[i].id;
        assert rows[k] == init[k];
      }
    }
  }

  // ---- In terms of the rows -----------------------------------------------------------------

  /** This license, of this learner and in one of the plans looked at, gives access to the course. */
  ghost predicate Covers(ls: Licenses, catalog: Catalog, plans: set<PlanId>, id: LicenseId, email: Email,
                         course: Course) {
    id in ls && ls[id].email == Some(email) && ls[id].plan in plans && catalog(ls[id].plan, course)
  }

  /** What `CheckMissingLicenses` guarantees. */
  ghost predicate Checked(ls: Licenses, catalog: Catalog, plans: set<PlanId>, expires: map<PlanId, Time>,
                          emails: seq<Email>, courses: seq<Course>, missing: map<Email, seq<Course>>, info: seq<Entry>,
                          orders: Orders, pairs: seq<(Email, Course)>) {
    && Stored(ls, orders) && (forall p :: p in pairs ==> p.0 in orders) && NoDup(pairs)
    && (forall email, course :: (email, course) in pairs <==> email in emails && course in courses)
    && (forall email :: email in emails ==> email in orders && LatestFirst(ls, plans, expires, email, orders[email]))
    && info == PlainReport(ls, catalog, orders, pairs)
    && MissingExactly(ls, catalog, orders, pairs, missing)
  }

  ghost predicate Yields(ls: Licenses, catalog: Catalog, orders: Orders, p: (Email, Course), e: Entry)
    requires Stored(ls, orders) && p.0 in orders
  {
    e in PlainEntries(ls, catalog, orders[p.0], p.0, p.1)
  }

  lemma {:induction false} ReportHas(ls: Licenses, catalog: Catalog, orders: Orders, pairs: seq<(Email, Course)>,
                                     e: Entry)
    requires Stored(ls, orders) && forall p :: p in pairs ==> p.0 in orders
    ensures e in PlainReport(ls, catalog, orders, pairs) <==>
            exists p :: p in pairs && Yields(ls, catalog, orders, p, e)
  {
    if pairs == [] {
    } else {
      var init, last := pairs[..|pairs| - 1], pairs[|pairs| - 1];
      ReportHas(ls, catalog, orders, init, e);
      assert forall p :: p in pairs <==> p in init || p == last;
      assert e in PlainReport(ls, catalog, orders, pairs) <==>
             e in PlainReport(ls, catalog, orders, init) || Yields(ls, catalog, orders, last, e);
    }
  }

  /** An entry is reported exactly for a license that covers a course asked about, with its key if it is assigned. */
  lemma ReportSays(ls: Licenses, catalog: Catalog, plans: set<PlanId>, expires: map<PlanId, Time>,
                   emails: seq<Email>, courses: seq<Course>, missing: map<Email, seq<Course>>, info: seq<Entry>,
                   orders: Orders, pairs: seq<(Email, Course)>, e: Entry)
    requires Checked(ls, catalog, plans, expires, emails, courses, missing, info, orders, pairs)
    ensures e in info <==>
            && e.email in emails && e.course in courses && Covers(ls, catalog, plans, e.id, e.email, e.course)
            && e.pendingKey == if ls[e.id].status == Status.Assigned then Some(ls[e.id].activationKey) else None
  {
    ReportHas(ls, catalog, orders, pairs, e);
    forall p | p in pairs
      ensures Yields(ls, catalog, orders, p, e) <==>
              && Covers(ls, catalog, plans, e.id, p.0, p.1) && e.email == p.0 && e.course == p.1
              && e.pendingKey == if ls[e.id].status == Status.Assigned then Some(ls[e.id].activationKey) else None
    {
      assert (p.0, p.1) in pairs;
      PlainEntriesAreMatches(ls, catalog, orders[p.0], p.0, p.1);
      assert e.id in orders[p.0] <==> e.id in Elems(orders[p.0]);
    }
    if e.email in emails && e.course in courses {
      assert (e.email, e.course) in pairs;
    }
  }

  /** A course is missing for a learner exactly if it was asked about and no license of the learner covers it. */
  lemma MissingSays(ls: Licenses, catalog: Catalog, plans: set<PlanId>, expires: map<PlanId, Time>,
                    emails: seq<Email>, courses: seq<Course>, missing: map<Email, seq<Course>>, info: seq<Entry>,
                    orders: Orders, pairs: seq<(Email, Course)>, email: Email, course: Course)
    requires Checked(ls, catalog, plans, expires, emails, courses, missing, info, orders, pairs)
    ensures email in missing && course in missing[email] <==>
            email in emails && course in courses && forall id :: !Covers(ls, catalog, plans, id, email, course)
  {
    if email in emails && course in courses {
      var rows := orders[email];
      var entries := PlainEntries(ls, catalog, rows, email, course);
      assert (email, course) in pairs;
      PlainEntriesAreMatches(ls, catalog, rows, email, course);
      forall id
        ensures Covers(ls, catalog, plans, id, email, course) <==>
                id in ls && EntryFor(ls, id, email, course) in entries
      {
        assert id in rows <==> id in Elems(rows);
      }
      if entries != [] {
        assert entries[0] in entries && Covers(ls, catalog, plans, entries[0].id, email, course);
      }
    }
  }
}
