/**
 * The grant ordering policy of the credit ledger: the order in which an
 * owner's grants are drawn down, the total they hold, and the greedy
 * allocation plan for one spend.  Everything here is pure except `PlanSpend`,
 * which is the source's loop.
 */
module CreditsHelpers {
  import opened Common

  /** The four kinds of credit grant. */
  datatype CreditType = DailyFree | Purchased | Subscription | Promotional

  /**
   * The errors that the ledger throws.  `PlainError` is a bare `Error` with a
   * message; the other two are the ledger's own error classes
   * (`InvalidOwnerError` is declared beside the store, in credits.ts).
   */
  datatype CreditError =
    | PlainError(message: string)
    | InsufficientCreditsError
    | InvalidOwnerError
  {
    /** The `code` property of the error object, if it has one. */
    function Code(): Option<string> {
      match this
      case PlainError(_) => None
      case InsufficientCreditsError => Some("INSUFFICIENT_CREDITS")
      case InvalidOwnerError => Some("INVALID_OWNER")
    }

    /** The `message` property of the error object. */
    function Message(): string {
      match this
      case PlainError(m) => m
      case InsufficientCreditsError => "Insufficient credits"
      case InvalidOwnerError => "Exactly one of userId or organizationId is required"
    }
  }

  const CostErrorMessage: string := "Cost must be a positive integer"

  /** Grant identifiers.  The store hands them out in creation order. */
  type GrantId = nat

  /** The fields of a grant that the ordering policy looks at; a null expiry is `None`. */
  datatype GrantLike = GrantLike(
    id: GrantId,
    remainingAmount: int,
    expiresAt: Option<int>,
    creditType: CreditType,
    createdAt: int)

  /** The fixed tie-break table: a higher priority is spent first. */
  function TypePriority(t: CreditType): (p: int)
    ensures 1 <= p <= 4
  {
    match t
    case DailyFree => 4
    case Subscription => 3
    case Promotional => 2
    case Purchased => 1
  }

  /**
   * The comparator handed to `Array.prototype.sort`: negative when `a` is
   * spent before `b`.  A null expiry is +Infinity, so against a finite expiry
   * the difference is +/-Infinity, whose sign is all that the sort uses.
   */
  function CompareForSpend(a: GrantLike, b: GrantLike): int {
    if a.expiresAt != b.expiresAt then
      match (a.expiresAt, b.expiresAt)
      case (Some(x), Some(y)) => x - y
      case (None, _) => 1
      case (_, None) => -1
    else
      var typeDiff := TypePriority(b.creditType) - TypePriority(a.creditType);
      if typeDiff != 0 then typeDiff else a.createdAt - b.createdAt
  }

  /** The three sort keys of a grant: two grants tie exactly when these agree. */
  function Rank(g: GrantLike): (Option<int>, CreditType, int) {
    (g.expiresAt, g.creditType, g.createdAt)
  }

  /** `a` expires no later than `b`, a null expiry counting as never. */
  predicate ExpiresNoLater(a: Option<int>, b: Option<int>) {
    b.None? || (a.Some? && a.value <= b.value)
  }

  lemma CompareAntisymmetric(a: GrantLike, b: GrantLike)
    ensures CompareForSpend(b, a) == -CompareForSpend(a, b)
  {
  }

  lemma CompareZeroIffSameRank(a: GrantLike, b: GrantLike)
    ensures CompareForSpend(a, b) == 0 <==> Rank(a) == Rank(b)
  {
    if a.expiresAt == b.expiresAt && TypePriority(a.creditType) == TypePriority(b.creditType) {
      assert a.creditType == b.creditType by {
        match a.creditType
        case DailyFree =>
        case Subscription =>
        case Promotional =>
        case Purchased =>
      }
    }
  }

  lemma CompareTransitive(a: GrantLike, b: GrantLike, c: GrantLike)
    requires CompareForSpend(a, b) <= 0 && CompareForSpend(b, c) <= 0
    ensures CompareForSpend(a, c) <= 0
  {
    CompareZeroIffSameRank(a, b);
    CompareZeroIffSameRank(b, c);
  }

  /** Every earlier grant may be spent before every later one. */
  ghost predicate SortedForSpend(s: seq<GrantLike>) {
    forall i, j :: 0 <= i < j < |s| ==> CompareForSpend(s[i], s[j]) <= 0
  }

  /** Neighbours are in spending order; with transitivity this gives `SortedForSpend`. */
  ghost predicate ChainSorted(s: seq<GrantLike>) {
    forall i :: 0 < i < |s| ==> CompareForSpend(s[i - 1], s[i]) <= 0
  }

  lemma {:induction false} ChainStep(s: seq<GrantLike>, i: int, j: int)
    requires ChainSorted(s) && 0 <= i < j < |s|
    ensures CompareForSpend(s[i], s[j]) <= 0
    decreases j - i
  {
    if j > i + 1 {
      ChainStep(s, i, j - 1);
      CompareTransitive(s[i], s[j - 1], s[j]);
    }
  }

  lemma ChainSortedIsSorted(s: seq<GrantLike>)
    requires ChainSorted(s)
    ensures SortedForSpend(s)
  {
    forall i, j | 0 <= i < j < |s| ensures CompareForSpend(s[i], s[j]) <= 0 {
      ChainStep(s, i, j);
    }
  }

  /** Inserts `g` in front of the first grant that it may be spent before. */
  function InsertForSpend(g: GrantLike, s: seq<GrantLike>): (r: seq<GrantLike>)
    ensures |r| == |s| + 1
    ensures r[0] == g || (s != [] && r[0] == s[0])
  {
    if s == [] then [g]
    else if CompareForSpend(g, s[0]) <= 0 then [g] + s
    else [s[0]] + InsertForSpend(g, s[1..])
  }

  lemma {:induction false} InsertForSpendMultiset(g: GrantLike, s: seq<GrantLike>)
    ensures multiset(InsertForSpend(g, s)) == multiset(s) + multiset{g}
  {
    if s != [] && CompareForSpend(g, s[0]) > 0 {
      InsertForSpendMultiset(g, s[1..]);
      assert s == [s[0]] + s[1..];
    }
  }

  lemma {:induction false} InsertForSpendChain(g: GrantLike, s: seq<GrantLike>)
    requires ChainSorted(s)
    ensures ChainSorted(InsertForSpend(g, s))
  {
    if s != [] {
      if CompareForSpend(g, s[0]) <= 0 {
        var r := [g] + s;
        forall i | 0 < i < |r| ensures CompareForSpend(r[i - 1], r[i]) <= 0 {
          if i > 1 {
            assert r[i - 1] == s[i - 2] && r[i] == s[i - 1];
          }
        }
      } else {
        var t := s[1..];
        assert ChainSorted(t) by {
          forall i | 0 < i < |t| ensures CompareForSpend(t[i - 1], t[i]) <= 0 {
            assert t[i - 1] == s[i] && t[i] == s[i + 1];
          }
        }
        InsertForSpendChain(g, t);
        var tail := InsertForSpend(g, t);
        var r := [s[0]] + tail;
        if tail[0] == g {
          CompareAntisymmetric(g, s[0]);
        } else {
          assert tail[0] == s[1];
        }
        forall i | 0 < i < |r| ensures CompareForSpend(r[i - 1], r[i]) <= 0 {
          if i > 1 {
            assert r[i - 1] == tail[i - 2] && r[i] == tail[i - 1];
          }
        }
      }
    }
  }

  /**
   * `sortGrantsForSpend`: a stable sort (as `Array.prototype.sort` is) of a
   * copy of the list by soonest expiry, then type priority, then creation
   * time.  Sequences are values, so the argument is never mutated.
   */
  function SortGrantsForSpend(grants: seq<GrantLike>): (r: seq<GrantLike>)
    ensures |r| == |grants|
    decreases |grants|
  {
    if grants == [] then [] else InsertForSpend(grants[0], SortGrantsForSpend(grants[1..]))
  }

  /** The sort returns a permutation of its input, in spending order. */
  lemma {:induction false} SortGrantsForSpendCorrect(grants: seq<GrantLike>)
    ensures multiset(SortGrantsForSpend(grants)) == multiset(grants)
    ensures ChainSorted(SortGrantsForSpend(grants)) && SortedForSpend(SortGrantsForSpend(grants))
    decreases |grants|
  {
    if grants != [] {
      var rest := SortGrantsForSpend(grants[1..]);
      SortGrantsForSpendCorrect(grants[1..]);
      InsertForSpendMultiset(grants[0], rest);
      InsertForSpendChain(grants[0], rest);
      ChainSortedIsSorted(InsertForSpend(grants[0], rest));
      assert grants == [grants[0]] + grants[1..];
    }
  }

  lemma SortCons(x: GrantLike, rest: seq<GrantLike>)
    ensures SortGrantsForSpend([x] + rest) == InsertForSpend(x, SortGrantsForSpend(rest))
  {
    assert ([x] + rest)[1..] == rest;
  }

  /**
   * What the sorted order means key by key: expiry never decreases (null last),
   * equal expiries are in descending type priority, and equal expiry and type
   * are in ascending creation time.
   */
  lemma SortedOrderKeys(s: seq<GrantLike>, i: int, j: int)
    requires SortedForSpend(s) && 0 <= i < j < |s|
    ensures ExpiresNoLater(s[i].expiresAt, s[j].expiresAt)
    ensures s[i].expiresAt == s[j].expiresAt ==>
              TypePriority(s[i].creditType) >= TypePriority(s[j].creditType)
    ensures s[i].expiresAt == s[j].expiresAt && s[i].creditType == s[j].creditType ==>
              s[i].createdAt <= s[j].createdAt
  {
    assert CompareForSpend(s[i], s[j]) <= 0;
  }

  /** The grants of `s` that tie with `g` on all three keys, in their order in `s`. */
  function TiesWith(s: seq<GrantLike>, g: GrantLike): seq<GrantLike> {
    if s == [] then []
    else (if Rank(s[0]) == Rank(g) then [s[0]] else []) + TiesWith(s[1..], g)
  }

  lemma {:induction false} TiesWithInsert(x: GrantLike, s: seq<GrantLike>, g: GrantLike)
    ensures TiesWith(InsertForSpend(x, s), g) ==
            (if Rank(x) == Rank(g) then [x] else []) + TiesWith(s, g)
  {
    if s == [] {
    } else if CompareForSpend(x, s[0]) <= 0 {
      assert ([x] + s)[1..] == s;
    } else {
      var r := [s[0]] + InsertForSpend(x, s[1..]);
      assert r[1..] == InsertForSpend(x, s[1..]);
      TiesWithInsert(x, s[1..], g);
      CompareZeroIffSameRank(x, s[0]);
      assert !(Rank(x) == Rank(g) && Rank(s[0]) == Rank(g));
    }
  }

  /** The sort is stable: grants that tie on every key keep their input order. */
  lemma {:induction false} SortIsStable(s: seq<GrantLike>, g: GrantLike)
    ensures TiesWith(SortGrantsForSpend(s), g) == TiesWith(s, g)
    decreases |s|
  {
    if s != [] {
      SortIsStable(s[1..], g);
      TiesWithInsert(s[0], SortGrantsForSpend(s[1..]), g);
    }
  }

  /** The ids of a list of grants, in order. */
  function Ids(s: seq<GrantLike>): (r: seq<GrantId>)
    ensures |r| == |s| && forall k :: 0 <= k < |s| ==> r[k] == s[k].id
  {
    seq(|s|, k requires 0 <= k < |s| => s[k].id)
  }

  ghost predicate DistinctIds(s: seq<GrantLike>) {
    forall i, j :: 0 <= i < j < |s| ==> s[i].id != s[j].id
  }

  /** A grant in front of a list with distinct ids, none of them its own, keeps the ids distinct. */
  lemma ConsKeepsDistinctIds(a: GrantLike, t: seq<GrantLike>)
    requires DistinctIds(t)
    requires forall y :: y in t ==> y.id != a.id
    ensures DistinctIds([a] + t)
  {
    var r := [a] + t;
    forall i, j | 0 <= i < j < |r| ensures r[i].id != r[j].id {
      assert r[j] == t[j - 1];
      if i > 0 {
        assert r[i] == t[i - 1];
      }
    }
  }

  /** The grants of an insertion are the inserted one and those of the list. */
  lemma {:induction false} InsertForSpendMembers(x: GrantLike, s: seq<GrantLike>)
    ensures forall y :: y in InsertForSpend(x, s) <==> y == x || y in s
  {
    InsertForSpendMultiset(x, s);
    forall y ensures y in InsertForSpend(x, s) <==> y == x || y in s {
      assert y in InsertForSpend(x, s) <==> y in multiset(InsertForSpend(x, s));
      assert y in s <==> y in multiset(s);
    }
  }

  lemma {:induction false} InsertKeepsDistinctIds(x: GrantLike, s: seq<GrantLike>)
    requires DistinctIds(s)
    requires forall y :: y in s ==> y.id != x.id
    ensures DistinctIds(InsertForSpend(x, s))
  {
    if s == [] {
    } else if CompareForSpend(x, s[0]) <= 0 {
      ConsKeepsDistinctIds(x, s);
    } else {
      var t := s[1..];
      assert DistinctIds(t);
      assert forall y :: y in t ==> y in s;
      InsertKeepsDistinctIds(x, t);
      var tail := InsertForSpend(x, t);
      InsertForSpendMembers(x, t);
      forall y | y in tail ensures y.id != s[0].id {
        if y != x {
          var k :| 0 <= k < |t| && t[k] == y;
          assert s[k + 1] == y;
        } else {
          assert s[0] in s;
        }
      }
      ConsKeepsDistinctIds(s[0], tail);
    }
  }

  /** Sorting never makes two entries share an id. */
  lemma {:induction false} SortKeepsDistinctIds(s: seq<GrantLike>)
    requires DistinctIds(s)
    ensures DistinctIds(SortGrantsForSpend(s))
    decreases |s|
  {
    if s != [] {
      var t := s[1..];
      assert DistinctIds(t);
      SortKeepsDistinctIds(t);
      var sorted := SortGrantsForSpend(t);
      SortGrantsForSpendCorrect(t);
      forall y | y in sorted ensures y.id != s[0].id {
        assert y in multiset(sorted);
        assert y in multiset(t);
        var k :| 0 <= k < |t| && t[k] == y;
        assert s[k + 1] == y;
      }
      InsertKeepsDistinctIds(s[0], sorted);
    }
  }

  /** `totalAvailable`: the sum of `remainingAmount` over the list. */
  function TotalAvailable(s: seq<GrantLike>): int {
    if s == [] then 0 else s[0].remainingAmount + TotalAvailable(s[1..])
  }

  lemma {:induction false} TotalAvailableAppend(a: seq<GrantLike>, b: seq<GrantLike>)
    ensures TotalAvailable(a + b) == TotalAvailable(a) + TotalAvailable(b)
  {
    if a == [] {
      assert a + b == b;
    } else {
      assert (a + b)[1..] == a[1..] + b;
      TotalAvailableAppend(a[1..], b);
    }
  }

  lemma {:induction false} TotalAvailableInsert(x: GrantLike, s: seq<GrantLike>)
    ensures TotalAvailable(InsertForSpend(x, s)) == x.remainingAmount + TotalAvailable(s)
  {
    if s != [] && CompareForSpend(x, s[0]) > 0 {
      var r := [s[0]] + InsertForSpend(x, s[1..]);
      assert r[1..] == InsertForSpend(x, s[1..]);
      TotalAvailableInsert(x, s[1..]);
    }
  }

  /** Sorting does not change the total, so `planSpend` may sum either list. */
  lemma {:induction false} SortKeepsTotal(s: seq<GrantLike>)
    ensures TotalAvailable(SortGrantsForSpend(s)) == TotalAvailable(s)
    decreases |s|
  {
    if s != [] {
      SortKeepsTotal(s[1..]);
      TotalAvailableInsert(s[0], SortGrantsForSpend(s[1..]));
    }
  }

  /** One line of an allocation plan: take `amount` from grant `grantId`. */
  datatype PlanItem = PlanItem(grantId: GrantId, amount: int)

  /** The value `planSpend` returns. */
  datatype SpendPlan = SpendPlan(plan: seq<PlanItem>, available: int)

  function PlanTotal(plan: seq<PlanItem>): int {
    if plan == [] then 0 else plan[0].amount + PlanTotal(plan[1..])
  }

  function PlanIds(plan: seq<PlanItem>): (r: seq<GrantId>)
    ensures |r| == |plan| && forall k :: 0 <= k < |plan| ==> r[k] == plan[k].grantId
  {
    seq(|plan|, k requires 0 <= k < |plan| => plan[k].grantId)
  }

  /**
   * The greedy walk of `planSpend` as a function: take
   * `min(remainingAmount, stillNeeded)` from each grant in turn and stop as
   * soon as nothing more is needed.
   */
  function Allocate(sorted: seq<GrantLike>, need: int): (a: seq<PlanItem>)
    ensures |a| <= |sorted|
    decreases |sorted|
  {
    if |sorted| == 0 || need <= 0 then []
    else
      var d := Min(sorted[0].remainingAmount, need);
      [PlanItem(sorted[0].id, d)] + Allocate(sorted[1..], need - d)
  }

  /** When the grants hold enough, the plan takes exactly what is needed. */
  lemma {:induction false} AllocateCoversNeed(s: seq<GrantLike>, need: int)
    requires 0 < need <= TotalAvailable(s)
    ensures PlanTotal(Allocate(s, need)) == need
    decreases |s|
  {
    var d := Min(s[0].remainingAmount, need);
    var a := Allocate(s, need);
    assert a[1..] == Allocate(s[1..], need - d);
    if need - d > 0 {
      AllocateCoversNeed(s[1..], need - d);
    }
  }

  /**
   * The plan walks a prefix of the list: line k draws on the k-th grant, never
   * more than it holds, every line but the last empties its grant, and a line
   * drawing on a grant with a positive balance takes a positive amount.
   */
  lemma {:induction false} AllocateShape(s: seq<GrantLike>, need: int)
    ensures var a := Allocate(s, need);
      && |a| <= |s|
      && (forall k :: 0 <= k < |a| ==> a[k].grantId == s[k].id && a[k].amount <= s[k].remainingAmount)
      && (forall k :: 0 <= k < |a| - 1 ==> a[k].amount == s[k].remainingAmount)
      && (forall k :: 0 <= k < |a| && s[k].remainingAmount > 0 ==> a[k].amount > 0)
    decreases |s|
  {
    if |s| > 0 && need > 0 {
      var d := Min(s[0].remainingAmount, need);
      var a := Allocate(s, need);
      var tail := Allocate(s[1..], need - d);
      assert a == [PlanItem(s[0].id, d)] + tail;
      AllocateShape(s[1..], need - d);
      forall k | 1 <= k < |a| ensures a[k] == tail[k - 1] && s[k] == s[1..][k - 1] { }
      if |a| > 1 {
        assert need - d > 0;
      }
    }
  }

  /** The plan uses as few grants as the order allows: all but its last line fall short. */
  lemma {:induction false} AllocateIsShortest(s: seq<GrantLike>, need: int)
    requires |Allocate(s, need)| > 0
    ensures TotalAvailable(s[..|Allocate(s, need)| - 1]) < need
    decreases |s|
  {
    var a := Allocate(s, need);
    var d := Min(s[0].remainingAmount, need);
    var tail := Allocate(s[1..], need - d);
    assert a == [PlanItem(s[0].id, d)] + tail;
    if |tail| > 0 {
      AllocateIsShortest(s[1..], need - d);
      var p := s[..|a| - 1];
      assert p == [s[0]] + s[1..][..|tail| - 1];
      assert p[1..] == s[1..][..|tail| - 1];
    }
  }

  /** Allocation lines name distinct grants when the list does. */
  lemma AllocateDistinct(s: seq<GrantLike>, need: int)
    requires DistinctIds(s)
    ensures forall i, j :: 0 <= i < j < |Allocate(s, need)| ==>
              Allocate(s, need)[i].grantId != Allocate(s, need)[j].grantId
  {
    AllocateShape(s, need);
  }

  /**
   * `planSpend`: reject a cost that is not a positive integer, then reject the
   * request as a whole when the grants hold less than the cost, else walk the
   * sorted grants greedily.
   */
  method PlanSpend(grants: seq<GrantLike>, cost: real) returns (r: Result<SpendPlan, CreditError>)
    ensures !IsPositiveInteger(cost) ==> r == Failure(PlainError(CostErrorMessage))
    ensures IsPositiveInteger(cost) && TotalAvailable(grants) < cost.Floor ==>
              r == Failure(InsufficientCreditsError)
    ensures IsPositiveInteger(cost) && TotalAvailable(grants) >= cost.Floor ==>
              r == Success(SpendPlan(Allocate(SortGrantsForSpend(grants), cost.Floor), TotalAvailable(grants)))
  {
    if !IsPositiveInteger(cost) {
      return Failure(PlainError(CostErrorMessage));
    }
    var need := cost.Floor;
    var sorted := SortGrantsForSpend(grants);
    var available := TotalAvailable(sorted);
    SortKeepsTotal(grants);
    if available < need {
      return Failure(InsufficientCreditsError);
    }

    var plan: seq<PlanItem> := [];
    var remaining := need;
    var i := 0;
    while i < |sorted|
      invariant 0 <= i <= |sorted|
      invariant plan + Allocate(sorted[i..], remaining) == Allocate(sorted, need)
    {
      if remaining <= 0 {
        break;
      }
      var deduction := Min(sorted[i].remainingAmount, remaining);
      assert sorted[i..][1..] == sorted[i + 1..];
      plan := plan + [PlanItem(sorted[i].id, deduction)];
      remaining := remaining - deduction;
      i := i + 1;
    }
    assert Allocate(sorted[i..], remaining) == [];
    assert plan == Allocate(sorted, need);
    return Success(SpendPlan(plan, available));
  }

  // The repository's own test cases, restated as facts about the model.

  /** Sort fixture, ids in input order: 0 purchased, 1 subscription-late,
      2 subscription-early, 3 daily, 4 promo-same-expiry. */
  function SortFixture(): seq<GrantLike> {
    [ GrantLike(0, 10, None, Purchased, 1733702400000),
      GrantLike(1, 10, Some(1736035200000), Subscription, 1733702400000),
      GrantLike(2, 10, Some(1735689600000), Subscription, 1733702400000),
      GrantLike(3, 5, Some(1733788799000), DailyFree, 1733702400000),
      GrantLike(4, 5, Some(1735689600000), Promotional, 1733616000000) ]
  }

  lemma SortFixtureOrder()
    ensures Ids(SortGrantsForSpend(SortFixture())) == [3, 2, 4, 1, 0]
  {
    var f := SortFixture();
    var purchased, late, early, daily, promo := f[0], f[1], f[2], f[3], f[4];
    SortCons(promo, []);
    assert SortGrantsForSpend([promo]) == [promo];
    SortCons(daily, [promo]);
    assert SortGrantsForSpend([daily, promo]) == [daily, promo];
    SortCons(early, [daily, promo]);
    assert InsertForSpend(early, [promo]) == [early, promo];
    assert SortGrantsForSpend([early, daily, promo]) == [daily, early, promo];
    SortCons(late, [early, daily, promo]);
    assert InsertForSpend(late, []) == [late];
    assert InsertForSpend(late, [promo]) == [promo, late];
    assert InsertForSpend(late, [early, promo]) == [early, promo, late];
    assert SortGrantsForSpend([late, early, daily, promo]) == [daily, early, promo, late];
    SortCons(purchased, [late, early, daily, promo]);
    assert InsertForSpend(purchased, []) == [purchased];
    assert InsertForSpend(purchased, [late]) == [late, purchased];
    assert InsertForSpend(purchased, [promo, late]) == [promo, late, purchased];
    assert InsertForSpend(purchased, [early, promo, late]) == [early, promo, late, purchased];
    assert f == [purchased, late, early, daily, promo];
    assert SortGrantsForSpend(f) == [daily, early, promo, late, purchased];
  }

  /** Split fixture: 0 daily (5), 1 promo (3), 2 subscription (10), 3 purchased (20). */
  function SplitFixture(): seq<GrantLike> {
    [ GrantLike(0, 5, Some(1733788799000), DailyFree, 1733702400000),
      GrantLike(1, 3, Some(1733788800000), Promotional, 1733702400000),
      GrantLike(2, 10, Some(1734220800000), Subscription, 1733702400000),
      GrantLike(3, 20, None, Purchased, 1733702400000) ]
  }

  lemma SplitFixturePlan()
    ensures TotalAvailable(SplitFixture()) == 38
    ensures Allocate(SortGrantsForSpend(SplitFixture()), 12) ==
            [PlanItem(0, 5), PlanItem(1, 3), PlanItem(2, 4)]
  {
    var f := SplitFixture();
    var daily, promo, sub, purchased := f[0], f[1], f[2], f[3];
    assert f == [daily, promo, sub, purchased];
    assert f[1..] == [promo, sub, purchased] && f[2..] == [sub, purchased] && f[3..] == [purchased];
    SortCons(purchased, []);
    SortCons(sub, [purchased]);
    assert SortGrantsForSpend([sub, purchased]) == [sub, purchased];
    SortCons(promo, [sub, purchased]);
    assert SortGrantsForSpend([promo, sub, purchased]) == [promo, sub, purchased];
    SortCons(daily, [promo, sub, purchased]);
    assert SortGrantsForSpend(f) == f;
    assert Allocate([purchased], 0) == [];
    assert Allocate([sub, purchased], 4) == [PlanItem(2, 4)];
    assert Allocate([promo, sub, purchased], 7) == [PlanItem(1, 3), PlanItem(2, 4)];
  }

  /** Insufficient fixture: planning a cost of 2 over one purchased grant holding 1 fails with INSUFFICIENT_CREDITS. */
  method InsufficientFixture() returns (r: Result<SpendPlan, CreditError>)
    ensures r == Failure(InsufficientCreditsError)
  {
    r := PlanSpend([GrantLike(0, 1, None, Purchased, 1733702400000)], 2.0);
  }
}
