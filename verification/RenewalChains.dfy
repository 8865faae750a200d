/**
 Renewal records as links between plans: creating them, walking them in both
 directions, and when those walks end.
 */
module RenewalChains {
  import opened Collections
  import opened Licensing

  type Path = seq<RenewalId>

  /** `prior_subscription_plan` and `renewed_subscription_plan` are one-to-one fields. */
  ghost predicate OneToOne(rs: Renewals) {
    && (forall a, b | a in rs && b in rs :: rs[a].prior == rs[b].prior ==> a == b)
    && (forall a, b | a in rs && b in rs && rs[a].renewed.Some? :: rs[a].renewed == rs[b].renewed ==> a == b)
  }

  /** Each renewal of the path starts from the plan the one before it renewed into. */
  ghost predicate Chain(rs: Renewals, path: Path) {
    && (forall i :: 0 <= i < |path| ==> path[i] in rs)
    && (forall i :: 0 <= i < |path| - 1 ==> rs[path[i]].renewed == Some(rs[path[i + 1]].prior))
  }

  /** A chain that leads from plan `p` to plan `q`. */
  ghost predicate Leads(rs: Renewals, p: PlanId, path: Path, q: PlanId) {
    && Chain(rs, path)
    && if path == [] then p == q
       else rs[path[0]].prior == p && rs[path[|path| - 1]].renewed == Some(q)
  }

  ghost predicate Reaches(rs: Renewals, p: PlanId, q: PlanId) {
    exists path :: Leads(rs, p, path, q)
  }

  ghost predicate OnCycle(rs: Renewals, p: PlanId) {
    exists path :: path != [] && Leads(rs, p, path, p)
  }

  /** No plan is, through any number of renewals, a renewal of itself. */
  ghost predicate Acyclic(rs: Renewals) {
    forall p :: !OnCycle(rs, p)
  }

  // ---- Lookups ------------------------------------------------------------------

  predicate IsRenewalOf(rs: Renewals, p: PlanId, r: RenewalId) {
    r in rs && rs[r].prior == p
  }

  predicate IsOriginOf(rs: Renewals, p: PlanId, r: RenewalId) {
    r in rs && rs[r].renewed == Some(p)
  }

  /** `get_renewal` */
  method GetRenewal(rs: Renewals, p: PlanId) returns (r: Option<RenewalId>)
    ensures r == None ==> forall x :: !IsRenewalOf(rs, p, x)
    ensures r.Some? ==> IsRenewalOf(rs, p, r.value)
  {
    var found := set x | x in rs && IsRenewalOf(rs, p, x);
    assert forall x :: IsRenewalOf(rs, p, x) <==> x in found;
    if found == {} {
      return None;
    }
    var x :| x in found;
    r := Some(x);
  }

  /** `get_origin_renewal` */
  method GetOriginRenewal(rs: Renewals, p: PlanId) returns (r: Option<RenewalId>)
    ensures r == None ==> forall x :: !IsOriginOf(rs, p, x)
    ensures r.Some? ==> IsOriginOf(rs, p, r.value)
  {
    var found := set x | x in rs && IsOriginOf(rs, p, x);
    assert forall x :: IsOriginOf(rs, p, x) <==> x in found;
    if found == {} {
      return None;
    }
    var x :| x in found;
    r := Some(x);
  }

  // ---- Chains do not repeat -------------------------------------------------------

  /** By the one-to-one prior side, a repeat can be shifted back to the start of the path. */
  lemma {:induction false} CycleAtStart(rs: Renewals, path: Path, i: nat, j: nat)
    requires OneToOne(rs) && Chain(rs, path)
    requires i < j < |path| && path[i] == path[j]
    ensures OnCycle(rs, rs[path[0]].prior)
    decreases i
  {
    if i == 0 {
      var loop := path[..j];
      assert rs[loop[j - 1]].renewed == Some(rs[path[j]].prior);
      assert Leads(rs, rs[path[0]].prior, loop, rs[path[0]].prior);
    } else {
      assert rs[path[i - 1]].renewed == Some(rs[path[i]].prior);
      assert rs[path[j - 1]].renewed == Some(rs[path[j]].prior);
      CycleAtStart(rs, path, i - 1, j - 1);
    }
  }

  /** By the one-to-one renewed side, a repeat can be shifted forward to the end. */
  lemma {:induction false} CycleAtEnd(rs: Renewals, path: Path, i: nat, j: nat)
    requires OneToOne(rs) && Chain(rs, path)
    requires i < j < |path| && path[i] == path[j] && rs[path[|path| - 1]].renewed.Some?
    ensures OnCycle(rs, rs[path[|path| - 1]].renewed.value)
    decreases |path| - j
  {
    var last := |path| - 1;
    if j == last {
      var loop := path[i + 1..];
      var q := rs[path[last]].renewed.value;
      assert rs[path[i]].renewed == Some(rs[path[i + 1]].prior);
      assert Leads(rs, q, loop, q);
    } else {
      assert rs[path[i]].renewed == Some(rs[path[i + 1]].prior);
      assert rs[path[j]].renewed == Some(rs[path[j + 1]].prior);
      CycleAtEnd(rs, path, i + 1, j + 1);
    }
  }

  lemma ChainSize(rs: Renewals, path: Path)
    requires Chain(rs, path) && NoDup(path)
    ensures |path| <= |rs|
  {
    NoDupSize(path);
    SubsetSize(Elems(path), rs.Keys);
  }

  // ---- The walks --------------------------------------------------------------------

  /** The renewals after `p`, in order, up to one that has no follower. */
  ghost predicate FutureOf(rs: Renewals, p: PlanId, path: Path) {
    && Chain(rs, path)
    && (path != [] ==> rs[path[0]].prior == p)
    && forall r :: !Follows(rs, p, path, r)
  }

  /** `r` would extend the forward walk. */
  ghost predicate Follows(rs: Renewals, p: PlanId, path: Path, r: RenewalId)
    requires Chain(rs, path)
  {
    if path == [] then IsRenewalOf(rs, p, r)
    else rs[path[|path| - 1]].renewed.Some? && IsRenewalOf(rs, rs[path[|path| - 1]].renewed.value, r)
  }

  /** The renewals that led to `p`, oldest first, from one that has no predecessor. */
  ghost predicate PriorOf(rs: Renewals, p: PlanId, path: Path) {
    && Chain(rs, path)
    && (path != [] ==> rs[path[|path| - 1]].renewed == Some(p))
    && forall r :: !IsOriginOf(rs, Oldest(rs, p, path), r)
  }

  /** The plan that a path to `p` starts from. */
  function Oldest(rs: Renewals, p: PlanId, path: Path): PlanId
    requires path != [] ==> path[0] in rs
  {
    if path == [] then p else rs[path[0]].prior
  }

  /** `future_renewals` */
  method FutureRenewals(rs: Renewals, p: PlanId) returns (path: Path)
    requires OneToOne(rs) && !OnCycle(rs, p)
    ensures FutureOf(rs, p, path) && NoDup(path)
  {
    path := [];
    var current := GetRenewal(rs, p);
    while current.Some?
      invariant Chain(rs, path) && (path != [] ==> rs[path[0]].prior == p)
      invariant current.Some? ==> Follows(rs, p, path, current.value)
      invariant current == None ==> forall r :: !Follows(rs, p, path, r)
      invariant NoDup(path)
      decreases |rs| - |path|
    {
      ExtendsWithoutRepeat(rs, p, path, current.value);
      path := path + [current.value];
      ChainSize(rs, path);
      var next := rs[current.value].renewed;
      if next.Some? {
        current := GetRenewal(rs, next.value);
      } else {
        current := None;
      }
    }
  }

  lemma ExtendsWithoutRepeat(rs: Renewals, p: PlanId, path: Path, r: RenewalId)
    requires OneToOne(rs) && !OnCycle(rs, p)
    requires Chain(rs, path) && NoDup(path) && (path != [] ==> rs[path[0]].prior == p)
    requires Follows(rs, p, path, r)
    ensures Chain(rs, path + [r]) && NoDup(path + [r]) && rs[(path + [r])[0]].prior == p
  {
    var longer := path + [r];
    assert Chain(rs, longer);
    forall i | 0 <= i < |path|
      ensures path[i] != r
    {
      if path[i] == r {
        CycleAtStart(rs, longer, i, |path|);
      }
    }
  }

  /** `prior_renewals`: collects backwards, then reverses. */
  method PriorRenewals(rs: Renewals, p: PlanId) returns (path: Path)
    requires OneToOne(rs) && !OnCycle(rs, p)
    ensures PriorOf(rs, p, path) && NoDup(path)
  {
    var collected: Path := [];
    var origin := GetOriginRenewal(rs, p);
    while origin.Some?
      invariant Chain(rs, Reversed(collected)) && NoDup(Reversed(collected))
      invariant var path := Reversed(collected);
                path != [] ==> rs[path[|path| - 1]].renewed == Some(p)
      invariant var oldest := Oldest(rs, p, Reversed(collected));
                if origin.Some? then IsOriginOf(rs, oldest, origin.value) else forall r :: !IsOriginOf(rs, oldest, r)
      decreases |rs| - |collected|
    {
      PrecedesWithoutRepeat(rs, p, Reversed(collected), origin.value);
      assert Reversed(collected + [origin.value]) == [origin.value] + Reversed(collected);
      collected := collected + [origin.value];
      ChainSize(rs, Reversed(collected));
      origin := GetOriginRenewal(rs, rs[origin.value].prior);
    }
    path := Reversed(collected);
  }

  /** `xs[::-1]` */
  function Reversed(xs: Path): (ys: Path)
    ensures |ys| == |xs| && forall i :: 0 <= i < |xs| ==> ys[i] == xs[|xs| - 1 - i]
  {
    seq(|xs|, i requires 0 <= i < |xs| => xs[|xs| - 1 - i])
  }

  lemma PrecedesWithoutRepeat(rs: Renewals, p: PlanId, path: Path, r: RenewalId)
    requires OneToOne(rs) && !OnCycle(rs, p)
    requires Chain(rs, path) && NoDup(path) && (path != [] ==> rs[path[|path| - 1]].renewed == Some(p))
    requires IsOriginOf(rs, Oldest(rs, p, path), r)
    ensures Chain(rs, [r] + path) && NoDup([r] + path)
  {
    var longer := [r] + path;
    assert Chain(rs, longer);
    assert rs[longer[|longer| - 1]].renewed == Some(p);
    forall i | 0 <= i < |path|
      ensures path[i] != r
    {
      if path[i] == r {
        CycleAtEnd(rs, longer, 0, i + 1);
      }
    }
  }

  // ---- What the walks find --------------------------------------------------------------

  lemma {:induction false} FutureUnique(rs: Renewals, p: PlanId, a: Path, b: Path)
    requires OneToOne(rs) && FutureOf(rs, p, a) && FutureOf(rs, p, b)
    ensures a == b
  {
    FuturesAgree(rs, p, a, b, if |a| <= |b| then |a| else |b|);
    if |a| < |b| {
      assert Follows(rs, p, a, b[|a|]);
    } else if |b| < |a| {
      assert Follows(rs, p, b, a[|b|]);
    }
  }

  lemma {:induction false} FuturesAgree(rs: Renewals, p: PlanId, a: Path, b: Path, n: nat)
    requires OneToOne(rs) && FutureOf(rs, p, a) && FutureOf(rs, p, b)
    requires n <= |a| && n <= |b|
    ensures a[..n] == b[..n]
  {
    if n == 0 {
    } else {
      FuturesAgree(rs, p, a, b, n - 1);
      if n > 1 {
        assert a[n - 2] == a[..n - 1][n - 2] == b[..n - 1][n - 2] == b[n - 2];
        assert rs[a[n - 2]].renewed == Some(rs[a[n - 1]].prior);
        assert rs[b[n - 2]].renewed == Some(rs[b[n - 1]].prior);
      }
      assert a[n - 1] == b[n - 1];
      assert a[..n] == a[..n - 1] + [a[n - 1]];
      assert b[..n] == b[..n - 1] + [b[n - 1]];
    }
  }

  /** The forward walk from a plan ends exactly if the plan is not on a cycle. */
  lemma FutureWalkEndsIff(rs: Renewals, p: PlanId)
    requires OneToOne(rs)
    ensures (exists path :: FutureOf(rs, p, path)) <==> !OnCycle(rs, p)
  {
    if OnCycle(rs, p) {
      var loop :| loop != [] && Leads(rs, p, loop, p);
      forall path
        ensures !FutureOf(rs, p, path)
      {
        if FutureOf(rs, p, path) {
          NoEndBeyondLoop(rs, p, loop, path);
        }
      }
    } else {
      var path := LongestForward(rs, p, []);
    }
  }

  /** A finished walk could be prefixed by the loop and still be finished: two walks, one start. */
  lemma NoEndBeyondLoop(rs: Renewals, p: PlanId, loop: Path, path: Path)
    requires OneToOne(rs) && loop != [] && Leads(rs, p, loop, p)
    ensures !FutureOf(rs, p, path)
  {
    if FutureOf(rs, p, path) {
      var longer := loop + path;
      assert Chain(rs, longer);
      assert path == [] ==> Follows(rs, p, path, loop[0]);
      assert path != [] ==> longer[|longer| - 1] == path[|path| - 1];
      assert forall r :: Follows(rs, p, longer, r) <==> Follows(rs, p, path, r);
      FutureUnique(rs, p, longer, path);
    }
  }

  lemma LongestForward(rs: Renewals, p: PlanId, path: Path) returns (longest: Path)
    requires OneToOne(rs) && !OnCycle(rs, p)
    requires Chain(rs, path) && NoDup(path) && (path != [] ==> rs[path[0]].prior == p)
    ensures FutureOf(rs, p, longest)
    decreases |rs| - |path|
  {
    ChainSize(rs, path);
    if r :| Follows(rs, p, path, r) {
      ExtendsWithoutRepeat(rs, p, path, r);
      ChainSize(rs, path + [r]);
      longest := LongestForward(rs, p, path + [r]);
    } else {
      longest := path;
    }
  }

  /** Every way back from `p` is a tail of its prior renewals. */
  lemma {:induction false} WaysBackAreTails(rs: Renewals, p: PlanId, prior: Path, q: PlanId, path: Path)
    requires OneToOne(rs) && PriorOf(rs, p, prior) && Leads(rs, q, path, p)
    ensures |path| <= |prior| && path == prior[|prior| - |path|..]
    decreases |path|
  {
    if path == [] {
    } else {
      var rest := path[1..];
      assert rest != [] ==> rs[path[0]].renewed == Some(rs[path[1]].prior);
      assert Leads(rs, Oldest(rs, p, rest), rest, p);
      WaysBackAreTails(rs, p, prior, Oldest(rs, p, rest), rest);
      var k := |prior| - |rest|;
      assert IsOriginOf(rs, Oldest(rs, p, rest), path[0]);
      if k == 0 {
        assert false;
      } else {
        assert rest != [] ==> rs[prior[k - 1]].renewed == Some(rs[prior[k]].prior) && prior[k] == rest[0];
        assert path[0] == prior[k - 1];
        assert prior[k - 1..] == [prior[k - 1]] + prior[k..];
      }
    }
  }

  /** The backward walk from a plan has an end exactly if the plan is not on a cycle. */
  lemma PriorWalkEndsIff(rs: Renewals, p: PlanId)
    requires OneToOne(rs)
    ensures (exists path :: PriorOf(rs, p, path)) <==> !OnCycle(rs, p)
  {
    if OnCycle(rs, p) {
      var loop :| loop != [] && Leads(rs, p, loop, p);
      forall path
        ensures !PriorOf(rs, p, path)
      {
        if PriorOf(rs, p, path) {
          LeadsConcat(rs, Oldest(rs, p, path), path, p, loop, p);
          WaysBackAreTails(rs, p, path, Oldest(rs, p, path), path + loop);
        }
      }
    } else {
      var path := LongestBackward(rs, p, []);
    }
  }

  lemma LongestBackward(rs: Renewals, p: PlanId, path: Path) returns (longest: Path)
    requires OneToOne(rs) && !OnCycle(rs, p)
    requires Chain(rs, path) && NoDup(path) && (path != [] ==> rs[path[|path| - 1]].renewed == Some(p))
    ensures PriorOf(rs, p, longest)
    decreases |rs| - |path|
  {
    ChainSize(rs, path);
    if r :| IsOriginOf(rs, Oldest(rs, p, path), r) {
      PrecedesWithoutRepeat(rs, p, path, r);
      ChainSize(rs, [r] + path);
      longest := LongestBackward(rs, p, [r] + path);
    } else {
      longest := path;
    }
  }

  /** Walking forward from the oldest ancestor of a plan gives its prior renewals, then its future ones. */
  lemma WholeChain(rs: Renewals, p: PlanId, prior: Path, future: Path)
    requires OneToOne(rs) && PriorOf(rs, p, prior) && FutureOf(rs, p, future)
    ensures FutureOf(rs, Oldest(rs, p, prior), prior + future)
    ensures forall path :: FutureOf(rs, Oldest(rs, p, prior), path) ==> path == prior + future
  {
    var oldest := Oldest(rs, p, prior);
    var whole := prior + future;
    assert prior != [] ==> whole[|prior| - 1] == prior[|prior| - 1];
    assert future != [] ==> whole[|prior|] == future[0];
    assert Chain(rs, whole);
    assert future != [] ==> whole[|whole| - 1] == future[|future| - 1];
    forall r
      ensures Follows(rs, oldest, whole, r) <==> Follows(rs, p, future, r)
    {
      if future == [] { assert whole == prior; }
    }
    forall path | FutureOf(rs, oldest, path)
      ensures path == whole
    {
      FutureUnique(rs, oldest, path, whole);
    }
  }

  // ---- Creating renewals --------------------------------------------------------------------

  datatype CreateResult = Found(id: RenewalId) | Conflicted(id: RenewalId) | Created(id: RenewalId)

  /** Records for the same two plans; an absent future plan matches an absent one. */
  function ExactMatches(rs: Renewals, wanted: Renewal): set<RenewalId> {
    set r | r in rs && rs[r].prior == wanted.prior && rs[r].renewed == wanted.renewed
  }

  /** Records that share the prior plan, or a future plan that is not null. */
  function Sharing(rs: Renewals, wanted: Renewal): set<RenewalId> {
    set r | r in rs && (rs[r].prior == wanted.prior || (wanted.renewed.Some? && rs[r].renewed == wanted.renewed))
  }

  function Stored(wanted: Renewal): Renewal {
    wanted.(processed := false, processedDate := None)
  }

  ghost predicate CreateStep(rs: Renewals, wanted: Renewal, r: CreateResult, after: Renewals) {
    match r
    case Found(id) =>
      ExactMatches(rs, wanted) != {} && id == Min(ExactMatches(rs, wanted)) && after == rs
    case Conflicted(id) =>
      ExactMatches(rs, wanted) == {} && Sharing(rs, wanted) != {} && id == Min(Sharing(rs, wanted)) && after == rs
    case Created(id) => Sharing(rs, wanted) == {} && id !in rs && after == rs[id := Stored(wanted)]
  }

  ghost predicate SamePlans(a: Renewal, b: Renewal) {
    a.prior == b.prior && a.renewed == b.renewed
  }

  /** One plan in common, where two absent future plans are not in common. */
  ghost predicate SharesPlan(a: Renewal, b: Renewal) {
    a.prior == b.prior || (a.renewed.Some? && b.renewed.Some? && a.renewed.value == b.renewed.value)
  }

  lemma MatchesByPlans(rs: Renewals, wanted: Renewal)
    ensures forall x :: x in ExactMatches(rs, wanted) <==> x in rs && SamePlans(rs[x], wanted)
    ensures forall x :: x in Sharing(rs, wanted) <==> x in rs && SharesPlan(rs[x], wanted)
  {
  }

  /** `create` of the renewal serializer. */
  method CreateRenewal(db: Database, wanted: Renewal) returns (r: CreateResult)
    modifies db`renewals
    ensures CreateStep(old(db.renewals), wanted, r, db.renewals)
    ensures r.Found? <==> exists x :: x in old(db.renewals) && SamePlans(old(db.renewals)[x], wanted)
    ensures r.Created? <==> forall x :: x in old(db.renewals) ==> !SharesPlan(old(db.renewals)[x], wanted)
    ensures r.Created? ==> db.renewals[r.id] == wanted.(processed := false, processedDate := None)
  {
    MatchesByPlans(db.renewals, wanted);
    var exact := ExactMatches(db.renewals, wanted);
    if exact != {} {
      return Found(Min(exact));
    }
    var partial := Sharing(db.renewals, wanted) - exact;
    if partial != {} {
      assert partial == Sharing(db.renewals, wanted);
      return Conflicted(Min(partial));
    }
    var keys := NewKeys(db.renewals.Keys, 1);
    assert keys != {};
    var id :| id in keys;
    db.renewals := db.renewals[id := Stored(wanted)];
    r := Created(id);
  }

  /** A new record keeps the one-to-one constraints exactly if no record shares a plan with it. */
  lemma AddKeepsOneToOneIff(rs: Renewals, id: RenewalId, wanted: Renewal)
    requires OneToOne(rs) && id !in rs
    ensures OneToOne(rs[id := Stored(wanted)]) <==> Sharing(rs, wanted) == {}
  {
    var after := rs[id := Stored(wanted)];
    if Sharing(rs, wanted) == {} {
      forall r | r in rs
        ensures rs[r].prior != wanted.prior && (wanted.renewed.Some? ==> rs[r].renewed != wanted.renewed)
      {
        assert r !in Sharing(rs, wanted);
      }
    } else {
      var r :| r in Sharing(rs, wanted);
      assert r in after && id in after;
    }
  }

  /** Any series of creates keeps the constraints; no create ever runs into them. */
  lemma {:induction false} CreatesKeepOneToOne(run: seq<Renewals>, wanted: seq<Renewal>, results: seq<CreateResult>)
    requires |run| == |wanted| + 1 && |results| == |wanted| && OneToOne(run[0])
    requires forall i :: 0 <= i < |wanted| ==> CreateStep(run[i], wanted[i], results[i], run[i + 1])
    ensures forall i :: 0 <= i < |run| ==> OneToOne(run[i])
    ensures forall i :: 0 <= i < |run| ==>
              run[0].Keys <= run[i].Keys && forall r :: r in run[0] ==> run[i][r] == run[0][r]
    decreases |wanted|
  {
    if wanted == [] {
    } else {
      assert CreateStep(run[0], wanted[0], results[0], run[1]);
      if results[0].Created? {
        AddKeepsOneToOneIff(run[0], results[0].id, wanted[0]);
      }
      CreatesKeepOneToOne(run[1..], wanted[1..], results[1..]);
      forall i | 0 <= i < |run|
        ensures OneToOne(run[i]) && run[0].Keys <= run[i].Keys && forall r :: r in run[0] ==> run[i][r] == run[0][r]
      {
        if i > 0 { assert run[i] == run[1..][i - 1]; }
      }
    }
  }

  lemma OneExactMatch(rs: Renewals, wanted: Renewal, id: RenewalId)
    requires OneToOne(rs) && id in ExactMatches(rs, wanted)
    ensures ExactMatches(rs, wanted) == {id}
  {
    forall r | r in ExactMatches(rs, wanted)
      ensures r == id
    {
      assert rs[r].prior == rs[id].prior;
    }
  }

  /** Asking again for the same plans returns the record on file and stores nothing. */
  lemma RepeatCreateFinds(rs: Renewals, wanted: Renewal, first: CreateResult, after: Renewals, again: CreateResult,
                          last: Renewals)
    requires OneToOne(rs) && CreateStep(rs, wanted, first, after) && CreateStep(after, wanted, again, last)
    ensures last == after
    ensures !first.Conflicted? ==> again == Found(first.id)
  {
    if first.Conflicted? {
      assert first.id in Sharing(after, wanted);
    } else {
      if first.Created? {
        AddKeepsOneToOneIff(rs, first.id, wanted);
      }
      OneExactMatch(after, wanted, first.id);
      assert first.id in Sharing(after, wanted);
      assert again.Found?;
    }
  }

  // ---- Keeping the graph acyclic ----------------------------------------------------------------

  lemma LeadsConcat(rs: Renewals, p: PlanId, a: Path, q: PlanId, b: Path, r: PlanId)
    requires Leads(rs, p, a, q) && Leads(rs, q, b, r)
    ensures Leads(rs, p, a + b, r)
  {
    assert a != [] ==> (a + b)[|a| - 1] == a[|a| - 1];
    assert b != [] ==> (a + b)[|a|] == b[0];
  }

  lemma SameChain(rs: Renewals, other: Renewals, path: Path, p: PlanId, q: PlanId)
    requires Leads(rs, p, path, q)
    requires forall i :: 0 <= i < |path| ==>
               path[i] in other && other[path[i]].prior == rs[path[i]].prior
               && other[path[i]].renewed == rs[path[i]].renewed
    ensures Leads(other, p, path, q)
  {
  }

  /** One-to-one and acyclic are about the links alone. */
  lemma SameLinksSameGraph(rs: Renewals, other: Renewals)
    requires rs.Keys == other.Keys
    requires forall r :: r in rs ==> other[r].prior == rs[r].prior && other[r].renewed == rs[r].renewed
    requires OneToOne(rs) && Acyclic(rs)
    ensures OneToOne(other) && Acyclic(other)
  {
    forall p
      ensures !OnCycle(other, p)
    {
      if OnCycle(other, p) {
        var loop :| loop != [] && Leads(other, p, loop, p);
        SameChain(other, rs, loop, p, p);
        assert OnCycle(rs, p);
      }
    }
  }

  lemma {:induction false} FirstIndex(path: Path, n: RenewalId) returns (first: nat)
    requires n in path
    ensures first < |path| && path[first] == n && n !in path[..first]
  {
    if path[0] == n {
      first := 0;
    } else {
      var rest := FirstIndex(path[1..], n);
      first := rest + 1;
      assert path[..first] == [path[0]] + path[1..][..rest];
    }
  }

  lemma {:induction false} LastIndex(path: Path, n: RenewalId) returns (last: nat)
    requires n in path
    ensures last < |path| && path[last] == n && n !in path[last + 1..]
  {
    var end := |path| - 1;
    if path[end] == n {
      last := end;
    } else {
      last := LastIndex(path[..end], n);
      assert path[last + 1..] == path[..end][last + 1..] + [path[end]];
    }
  }

  lemma NextInLoop(rs: Renewals, x: PlanId, loop: Path, i: nat) returns (next: nat)
    requires Leads(rs, x, loop, x) && i < |loop|
    ensures next < |loop| && rs[loop[i]].renewed == Some(rs[loop[next]].prior)
  {
    next := if i < |loop| - 1 then i + 1 else 0;
  }

  /** A new link from `p` to `q` keeps the graph acyclic exactly if `q` does not already lead to `p`. */
  lemma LinkKeepsAcyclicIff(rs: Renewals, id: RenewalId, link: Renewal)
    requires id !in rs && link.renewed.Some?
    ensures Acyclic(rs[id := link]) <==> Acyclic(rs) && !Reaches(rs, link.renewed.value, link.prior)
  {
    var after := rs[id := link];
    var p, q := link.prior, link.renewed.value;
    if Acyclic(after) {
      forall x
        ensures !OnCycle(rs, x)
      {
        if OnCycle(rs, x) {
          var loop :| loop != [] && Leads(rs, x, loop, x);
          SameChain(rs, after, loop, x, x);
          assert OnCycle(after, x);
        }
      }
      if Reaches(rs, q, p) {
        var back :| Leads(rs, q, back, p);
        SameChain(rs, after, back, q, p);
        LeadsConcat(after, p, [id], q, back, p);
        assert OnCycle(after, p);
      }
    }
    if Acyclic(rs) && !Reaches(rs, q, p) {
      forall x
        ensures !OnCycle(after, x)
      {
        if OnCycle(after, x) {
          var loop :| loop != [] && Leads(after, x, loop, x);
          LoopUsesLink(rs, id, link, x, loop);
        }
      }
    }
  }

  lemma LoopUsesLink(rs: Renewals, id: RenewalId, link: Renewal, x: PlanId, loop: Path)
    requires id !in rs && link.renewed.Some?
    requires loop != [] && Leads(rs[id := link], x, loop, x)
    ensures OnCycle(rs, x) || Reaches(rs, link.renewed.value, link.prior)
  {
    var after := rs[id := link];
    if id !in loop {
      SameChain(after, rs, loop, x, x);
    } else {
      var first := FirstIndex(loop, id);
      var last := LastIndex(loop, id);
      var head, tail := loop[..first], loop[last + 1..];
      assert head != [] ==> after[loop[first - 1]].renewed == Some(after[loop[first]].prior);
      assert tail != [] ==> after[loop[last]].renewed == Some(after[loop[last + 1]].prior);
      assert Leads(after, x, head, link.prior);
      assert Leads(after, link.renewed.value, tail, x);
      assert forall i :: 0 <= i < |head| ==> head[i] in head;
      assert forall i :: 0 <= i < |tail| ==> tail[i] in tail;
      SameChain(after, rs, head, x, link.prior);
      SameChain(after, rs, tail, link.renewed.value, x);
      LeadsConcat(rs, link.renewed.value, tail, x, head, link.prior);
    }
  }

  /** Processing a renewal links it to a plan nobody refers to yet: the graph stays acyclic and one-to-one. */
  lemma FreshPlanKeepsGraph(rs: Renewals, id: RenewalId, future: PlanId, processedDate: Option<Time>)
    requires OneToOne(rs) && Acyclic(rs) && id in rs && rs[id].renewed == None
    requires forall r :: r in rs ==> rs[r].prior != future && rs[r].renewed != Some(future)
    ensures var after := rs[id := rs[id].(renewed := Some(future), processed := true, processedDate := processedDate)];
            OneToOne(after) && Acyclic(after)
  {
    var link := rs[id].(renewed := Some(future), processed := true, processedDate := processedDate);
    var after := rs[id := link];
    forall x
      ensures !OnCycle(after, x)
    {
      if OnCycle(after, x) {
        var loop :| loop != [] && Leads(after, x, loop, x);
        if id in loop {
          var i :| 0 <= i < |loop| && loop[i] == id;
          var next := NextInLoop(after, x, loop, i);
        } else {
          assert forall i :: 0 <= i < |loop| ==> loop[i] in loop;
          SameChain(after, rs, loop, x, x);
          assert OnCycle(rs, x);
        }
      }
    }
  }

  /** Two accepted creates can make a cycle, on which `future_renewals` would never end. */
  lemma CreatesCanMakeACycle(there: Renewal, back: Renewal)
    requires there.renewed == Some(back.prior) && back.renewed == Some(there.prior) && there.prior != back.prior
    ensures CreateStep(map[], there, Created(0), map[0 := Stored(there)])
    ensures CreateStep(map[0 := Stored(there)], back, Created(1), map[0 := Stored(there), 1 := Stored(back)])
    ensures OnCycle(map[0 := Stored(there), 1 := Stored(back)], there.prior)
    ensures !exists path :: FutureOf(map[0 := Stored(there), 1 := Stored(back)], there.prior, path)
  {
    var rs: Renewals := map[0 := Stored(there), 1 := Stored(back)];
    var loop: Path := [0, 1];
    assert Leads(rs, there.prior, loop, there.prior);
    FutureWalkEndsIff(rs, there.prior);
  }
}
