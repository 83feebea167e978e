/**
 * The ledger store: an owner's grants and spends, balance queries, grant
 * creation, the all-or-nothing spend, and the three idempotent issuers.  The
 * database is one `Ledger` object whose `grants` and `spends` tables the
 * methods update; each transaction of the source is one method call.
 */
module Credits {
  import opened Common
  import opened CreditsHelpers

  // ---------------------------------------------------------------------
  // Dates.  Timestamps are integer milliseconds since the epoch.

  const DayMs: int := 86400000

  /** `startOfDayUTC`: midnight UTC of the day that contains `t`. */
  function StartOfDayUTC(t: int): (s: int)
    ensures s <= t < s + DayMs && s % DayMs == 0
  {
    t - t % DayMs
  }

  /** `endOfDayUTC`: the last millisecond of the UTC day that contains `t`. */
  function EndOfDayUTC(t: int): (e: int)
    ensures e == StartOfDayUTC(t) + DayMs - 1
    ensures t <= e && StartOfDayUTC(e) == StartOfDayUTC(t) && StartOfDayUTC(e + 1) == e + 1
  {
    StartOfDayUTC(t) + DayMs - 1
  }

  lemma DayStartUnique(s: int, u: int)
    requires s % DayMs == 0 && s <= u < s + DayMs
    ensures StartOfDayUTC(u) == s
  {
    var q := s / DayMs;
    assert s == q * DayMs;
    assert u == q * DayMs + (u - s);
    assert u % DayMs == u - s;
  }

  /** A timestamp lies in the window [startOfDayUTC(t), endOfDayUTC(t)] exactly when it is on the same UTC day. */
  lemma SameUtcDay(t: int, u: int)
    ensures StartOfDayUTC(t) <= u <= EndOfDayUTC(t) <==> StartOfDayUTC(u) == StartOfDayUTC(t)
  {
    if StartOfDayUTC(t) <= u <= EndOfDayUTC(t) {
      DayStartUnique(StartOfDayUTC(t), u);
    }
  }

  /**
   * The calendar arithmetic that the ledger takes from JavaScript's `Date`:
   * `addMonths(date, months)` and `formatDateKey(date)` ("YYYY-MM-DD").
   */
  datatype Calendar = Calendar(addMonths: (int, int) -> int, dateKey: int -> string)

  /**
   * What the ledger relies on: adding one month moves strictly forward,
   * `addMonths` lands on a UTC midnight, and distinct midnights get distinct keys.
   */
  ghost predicate ValidCalendar(cal: Calendar) {
    && (forall t :: cal.addMonths(t, 1) > t)
    && (forall t, n :: StartOfDayUTC(cal.addMonths(t, n)) == cal.addMonths(t, n))
    && (forall a, b :: a != b && StartOfDayUTC(a) == a && StartOfDayUTC(b) == b ==>
          cal.dateKey(a) != cal.dateKey(b))
  }

  // ---------------------------------------------------------------------
  // Owners.

  /** The two optional owner fields every ledger call takes; `None` is undefined or null. */
  datatype OwnerInput = OwnerInput(userId: Option<string>, organizationId: Option<string>)

  /** A resolved owner: exactly one of a user or an organization. */
  datatype Owner = UserOwner(userId: string) | OrganizationOwner(organizationId: string)

  /**
   * `resolveOwner`: exactly one of the two fields must be truthy (an empty
   * string counts as absent); the organization wins when it is the one set.
   */
  function ResolveOwner(input: OwnerInput): (r: Result<Owner, CreditError>)
    ensures r.Failure? <==> Truthy(input.userId) == Truthy(input.organizationId)
    ensures r.Failure? ==> r.error == InvalidOwnerError
    ensures r.Success? ==> (r.value.OrganizationOwner? <==> Truthy(input.organizationId))
    ensures r.Success? && r.value.OrganizationOwner? ==>
              input.organizationId == Some(r.value.organizationId) && r.value.organizationId != ""
    ensures r.Success? && r.value.UserOwner? ==>
              input.userId == Some(r.value.userId) && r.value.userId != ""
  {
    var hasUserId := Truthy(input.userId);
    var hasOrganizationId := Truthy(input.organizationId);
    if hasUserId == hasOrganizationId then Failure(InvalidOwnerError)
    else if hasOrganizationId then Success(OrganizationOwner(input.organizationId.value))
    else Success(UserOwner(input.userId.value))
  }

  /** The owner columns a stored row carries for a resolved owner. */
  function OwnerColumns(o: Owner): OwnerInput {
    match o
    case UserOwner(u) => OwnerInput(Some(u), None)
    case OrganizationOwner(org) => OwnerInput(None, Some(org))
  }

  /** Resolving the columns of a row gives back its owner, so a resolved owner is a fixed point. */
  lemma ResolveOwnerColumns(o: Owner)
    requires match o case UserOwner(u) => u != "" case OrganizationOwner(org) => org != ""
    ensures ResolveOwner(OwnerColumns(o)) == Success(o)
  {
  }

  // ---------------------------------------------------------------------
  // Rows.

  /** A row of the grant table. */
  datatype Grant = Grant(
    id: GrantId,
    owner: Owner,
    amount: int,
    remainingAmount: int,
    creditType: CreditType,
    expiresAt: Option<int>,
    sourceRef: Option<string>,
    reason: Option<string>,
    metadata: Option<Metadata>,
    createdAt: int)

  /** A row of the spend table. */
  datatype Spend = Spend(
    grantId: GrantId,
    owner: Owner,
    amount: int,
    reason: Option<string>,
    spendRef: Option<string>,
    metadata: Option<Metadata>,
    createdAt: int)

  /** One line of a committed spend, as returned to the caller for refunds. */
  datatype SpendAllocation = SpendAllocation(
    grantId: GrantId, amount: int, creditType: CreditType, expiresAt: Option<int>)

  datatype SpendOutcome = SpendOutcome(cost: int, allocations: seq<SpendAllocation>)

  /** The record `getCreditDetailsBalance` returns. */
  datatype CreditDetails = CreditDetails(
    total: int, dailyFree: int, purchased: int, subscription: int, promotional: int,
    nextExpiry: Option<int>)

  /** A freshly created grant: nothing of it is spent yet. */
  function NewGrant(
    id: GrantId, owner: Owner, amount: int, creditType: CreditType, expiresAt: Option<int>,
    sourceRef: Option<string>, reason: Option<string>, metadata: Option<Metadata>, now: int): Grant
  {
    Grant(id, owner, amount, amount, creditType, expiresAt, sourceRef, reason, metadata, now)
  }

  function AsGrantLike(g: Grant): GrantLike {
    GrantLike(g.id, g.remainingAmount, g.expiresAt, g.creditType, g.createdAt)
  }

  /** The filter every balance query and the spend use: something left, and not expired at `now`. */
  predicate Usable(g: Grant, now: int) {
    g.remainingAmount > 0 && (g.expiresAt.None? || g.expiresAt.value > now)
  }

  function Contribution(g: Grant, o: Owner, now: int): int {
    if g.owner == o && Usable(g, now) then g.remainingAmount else 0
  }

  /** The balance of `o` at `now`: the sum of the remaining amounts of its usable grants. */
  function BalanceOf(gs: seq<Grant>, o: Owner, now: int): int
    decreases |gs|
  {
    if gs == [] then 0 else BalanceOf(gs[..|gs| - 1], o, now) + Contribution(gs[|gs| - 1], o, now)
  }

  /** The same sum restricted to one grant type. */
  function TypeBalance(gs: seq<Grant>, o: Owner, now: int, t: CreditType): int
    decreases |gs|
  {
    if gs == [] then 0
    else
      var last := gs[|gs| - 1];
      TypeBalance(gs[..|gs| - 1], o, now, t) + (if last.creditType == t then Contribution(last, o, now) else 0)
  }

  /** The grants the spend transaction loads: the owner's usable grants, in store order. */
  function UsableGrants(gs: seq<Grant>, o: Owner, now: int): seq<GrantLike>
    decreases |gs|
  {
    if gs == [] then []
    else
      var last := gs[|gs| - 1];
      UsableGrants(gs[..|gs| - 1], o, now) + (if last.owner == o && Usable(last, now) then [AsGrantLike(last)] else [])
  }

  /** The `findFirst` behind `nextExpiry`: a positive-remaining grant with a non-null future expiry. */
  predicate ExpiryCandidate(g: Grant, o: Owner, now: int) {
    g.owner == o && g.remainingAmount > 0 && g.expiresAt.Some? && g.expiresAt.value > now
  }

  function NextExpiry(gs: seq<Grant>, o: Owner, now: int): Option<int>
    decreases |gs|
  {
    if gs == [] then None
    else
      var rest := NextExpiry(gs[..|gs| - 1], o, now);
      var last := gs[|gs| - 1];
      if ExpiryCandidate(last, o, now) && (rest.None? || last.expiresAt.value < rest.value) then last.expiresAt
      else rest
  }

  lemma {:induction false} BalanceNonNegative(gs: seq<Grant>, o: Owner, now: int)
    ensures BalanceOf(gs, o, now) >= 0
    decreases |gs|
  {
    if gs != [] {
      BalanceNonNegative(gs[..|gs| - 1], o, now);
    }
  }

  /** The spend's `totalAvailable` over the loaded grants is the owner's balance. */
  lemma {:induction false} UsableTotalIsBalance(gs: seq<Grant>, o: Owner, now: int)
    ensures TotalAvailable(UsableGrants(gs, o, now)) == BalanceOf(gs, o, now)
    decreases |gs|
  {
    if gs != [] {
      var last := gs[|gs| - 1];
      UsableTotalIsBalance(gs[..|gs| - 1], o, now);
      var tail := if last.owner == o && Usable(last, now) then [AsGrantLike(last)] else [];
      TotalAvailableAppend(UsableGrants(gs[..|gs| - 1], o, now), tail);
      assert TotalAvailable(tail) == Contribution(last, o, now);
    }
  }

  /** The four per-type sums add up to the balance. */
  lemma {:induction false} TypeBalancesSumToBalance(gs: seq<Grant>, o: Owner, now: int)
    ensures TypeBalance(gs, o, now, DailyFree) + TypeBalance(gs, o, now, Purchased)
          + TypeBalance(gs, o, now, Subscription) + TypeBalance(gs, o, now, Promotional)
         == BalanceOf(gs, o, now)
    decreases |gs|
  {
    if gs != [] {
      TypeBalancesSumToBalance(gs[..|gs| - 1], o, now);
    }
  }

  /** `nextExpiry` is the earliest expiry among the candidates, and null when there are none. */
  lemma {:induction false} NextExpiryIsEarliest(gs: seq<Grant>, o: Owner, now: int)
    ensures NextExpiry(gs, o, now).Some? ==>
              exists i :: 0 <= i < |gs| && ExpiryCandidate(gs[i], o, now) && gs[i].expiresAt == NextExpiry(gs, o, now)
    ensures NextExpiry(gs, o, now).Some? ==>
              forall i :: 0 <= i < |gs| && ExpiryCandidate(gs[i], o, now) ==>
                NextExpiry(gs, o, now).value <= gs[i].expiresAt.value
    ensures NextExpiry(gs, o, now).None? ==> forall i :: 0 <= i < |gs| ==> !ExpiryCandidate(gs[i], o, now)
    decreases |gs|
  {
    if gs != [] {
      var front := gs[..|gs| - 1];
      NextExpiryIsEarliest(front, o, now);
      forall i | 0 <= i < |front| ensures gs[i] == front[i] { }
      if NextExpiry(front, o, now).Some? && NextExpiry(gs, o, now) == NextExpiry(front, o, now) {
        var i :| 0 <= i < |front| && ExpiryCandidate(front[i], o, now) && front[i].expiresAt == NextExpiry(front, o, now);
        assert gs[i] == front[i];
      }
    }
  }

  // ---------------------------------------------------------------------
  // What a spend does to the tables.

  /** How much of grant `id` a plan takes. */
  function AllocatedTo(plan: seq<PlanItem>, id: GrantId): int {
    if plan == [] then 0 else (if plan[0].grantId == id then plan[0].amount else 0) + AllocatedTo(plan[1..], id)
  }

  lemma {:induction false} AllocatedToAppend(plan: seq<PlanItem>, x: PlanItem, id: GrantId)
    ensures AllocatedTo(plan + [x], id) == AllocatedTo(plan, id) + (if x.grantId == id then x.amount else 0)
  {
    if plan == [] {
      assert plan + [x] == [x];
    } else {
      assert (plan + [x])[1..] == plan[1..] + [x];
      AllocatedToAppend(plan[1..], x, id);
    }
  }

  lemma {:induction false} AllocatedToAbsent(plan: seq<PlanItem>, id: GrantId)
    requires forall k :: 0 <= k < |plan| ==> plan[k].grantId != id
    ensures AllocatedTo(plan, id) == 0
  {
    if plan != [] {
      AllocatedToAbsent(plan[1..], id);
    }
  }

  /** With distinct ids a grant named in the plan loses exactly its line's amount. */
  lemma {:induction false} AllocatedToLine(plan: seq<PlanItem>, k: int)
    requires 0 <= k < |plan|
    requires forall i, j :: 0 <= i < j < |plan| ==> plan[i].grantId != plan[j].grantId
    ensures AllocatedTo(plan, plan[k].grantId) == plan[k].amount
  {
    if k == 0 {
      AllocatedToAbsent(plan[1..], plan[0].grantId);
    } else {
      assert plan[1..][k - 1] == plan[k];
      AllocatedToLine(plan[1..], k - 1);
    }
  }

  function Debited(g: Grant, amount: int): Grant {
    g.(remainingAmount := g.remainingAmount - amount)
  }

  /** Every grant decremented by what the plan takes from it. */
  function DebitAll(gs: seq<Grant>, plan: seq<PlanItem>): (r: seq<Grant>)
    ensures |r| == |gs|
  {
    seq(|gs|, i requires 0 <= i < |gs| => Debited(gs[i], AllocatedTo(plan, i)))
  }

  /** The spend rows that one call appends, all carrying the same `spendRef`. */
  function SpendRows(
    plan: seq<PlanItem>, o: Owner, reason: Option<string>, spendRef: Option<string>,
    metadata: Option<Metadata>, now: int): (rows: seq<Spend>)
    ensures |rows| == |plan|
    decreases |plan|
  {
    if plan == [] then []
    else
      var item := plan[|plan| - 1];
      SpendRows(plan[..|plan| - 1], o, reason, spendRef, metadata, now)
        + [Spend(item.grantId, o, item.amount, reason, spendRef, metadata, now)]
  }

  /** Row `k` of a spend records line `k` of the plan. */
  lemma {:induction false} SpendRowsShape(
    plan: seq<PlanItem>, o: Owner, reason: Option<string>, spendRef: Option<string>,
    metadata: Option<Metadata>, now: int, k: int)
    requires 0 <= k < |plan|
    ensures SpendRows(plan, o, reason, spendRef, metadata, now)[k]
         == Spend(plan[k].grantId, o, plan[k].amount, reason, spendRef, metadata, now)
    decreases |plan|
  {
    if k < |plan| - 1 {
      var front := plan[..|plan| - 1];
      assert front[k] == plan[k];
      SpendRowsShape(front, o, reason, spendRef, metadata, now, k);
    }
  }

  /** `grantById.get`: the first loaded grant with this id. */
  function FindById(s: seq<GrantLike>, id: GrantId): (r: Option<GrantLike>)
    ensures r.Some? ==> r.value in s && r.value.id == id
    ensures r.None? ==> forall x :: x in s ==> x.id != id
  {
    if s == [] then None else if s[0].id == id then Some(s[0]) else FindById(s[1..], id)
  }

  /** The allocations a spend returns: one per plan line whose grant was loaded. */
  function AllocationsOf(loaded: seq<GrantLike>, plan: seq<PlanItem>): seq<SpendAllocation>
    decreases |plan|
  {
    if plan == [] then []
    else
      var item := plan[|plan| - 1];
      AllocationsOf(loaded, plan[..|plan| - 1]) + AllocationLine(loaded, item)
  }

  /** The `if (grant)` push of the write loop: one allocation when the line's grant was loaded, none otherwise. */
  function AllocationLine(loaded: seq<GrantLike>, item: PlanItem): seq<SpendAllocation> {
    match FindById(loaded, item.grantId)
    case Some(g) => [SpendAllocation(item.grantId, item.amount, g.creditType, g.expiresAt)]
    case None => []
  }

  function AllocationTotal(allocations: seq<SpendAllocation>): int {
    if allocations == [] then 0 else allocations[0].amount + AllocationTotal(allocations[1..])
  }

  /** The plan a spend of `cost` computes for `o` at `now`. */
  function SpendPlanFor(gs: seq<Grant>, o: Owner, now: int, cost: int): seq<PlanItem> {
    Allocate(SortGrantsForSpend(UsableGrants(gs, o, now)), cost)
  }

  ghost predicate IdsAreIndices(gs: seq<Grant>) {
    forall i :: 0 <= i < |gs| ==> gs[i].id == i
  }

  /** The loaded grants are the owner's usable grants, each once, each the image of its row. */
  lemma {:induction false} UsableGrantsFacts(gs: seq<Grant>, o: Owner, now: int)
    requires IdsAreIndices(gs)
    ensures DistinctIds(UsableGrants(gs, o, now))
    ensures forall x :: x in UsableGrants(gs, o, now) ==>
              x.id < |gs| && x == AsGrantLike(gs[x.id]) && gs[x.id].owner == o && Usable(gs[x.id], now)
    decreases |gs|
  {
    if gs != [] {
      var front := gs[..|gs| - 1];
      var last := gs[|gs| - 1];
      assert IdsAreIndices(front) by {
        forall i | 0 <= i < |front| ensures front[i].id == i {
          assert front[i] == gs[i];
        }
      }
      UsableGrantsFacts(front, o, now);
      var u := UsableGrants(front, o, now);
      var tail := if last.owner == o && Usable(last, now) then [AsGrantLike(last)] else [];
      var all := u + tail;
      assert all == UsableGrants(gs, o, now);
      forall x | x in all
        ensures x.id < |gs| && x == AsGrantLike(gs[x.id]) && gs[x.id].owner == o && Usable(gs[x.id], now)
      {
        if x in u {
          assert gs[x.id] == front[x.id];
        } else {
          assert x == AsGrantLike(last);
        }
      }
      forall i, j | 0 <= i < j < |all| ensures all[i].id != all[j].id {
        if j >= |u| {
          assert all[i] in u;
          assert all[i].id < |front|;
          assert all[j] == AsGrantLike(last);
        } else {
          assert all[i] == u[i] && all[j] == u[j];
        }
      }
    }
  }

  /**
   * What the plan of a covered spend is: its lines name distinct usable grants
   * of the owner, each line takes a positive amount no larger than what its
   * grant holds, and the lines add up to the cost.
   */
  lemma SpendPlanFacts(gs: seq<Grant>, o: Owner, now: int, cost: int)
    requires IdsAreIndices(gs)
    requires 0 < cost <= BalanceOf(gs, o, now)
    ensures var plan := SpendPlanFor(gs, o, now, cost);
      && PlanTotal(plan) == cost
      && (forall k :: 0 <= k < |plan| ==>
            && plan[k].grantId < |gs|
            && AsGrantLike(gs[plan[k].grantId]) in UsableGrants(gs, o, now)
            && gs[plan[k].grantId].owner == o && Usable(gs[plan[k].grantId], now)
            && 0 < plan[k].amount <= gs[plan[k].grantId].remainingAmount)
      && (forall i, j :: 0 <= i < j < |plan| ==> plan[i].grantId != plan[j].grantId)
  {
    var u := UsableGrants(gs, o, now);
    var sorted := SortGrantsForSpend(u);
    UsableGrantsFacts(gs, o, now);
    SortGrantsForSpendCorrect(u);
    SortKeepsTotal(u);
    UsableTotalIsBalance(gs, o, now);
    SortKeepsDistinctIds(u);
    AllocateCoversNeed(sorted, cost);
    AllocateShape(sorted, cost);
    AllocateDistinct(sorted, cost);
    var plan := Allocate(sorted, cost);
    forall k | 0 <= k < |plan|
      ensures plan[k].grantId < |gs| && AsGrantLike(gs[plan[k].grantId]) in u
      ensures gs[plan[k].grantId].owner == o && Usable(gs[plan[k].grantId], now)
      ensures 0 < plan[k].amount <= gs[plan[k].grantId].remainingAmount
    {
      assert sorted[k] in multiset(sorted);
      assert sorted[k] in u;
    }
  }

  lemma {:induction false} AllocationTotalMatches(allocations: seq<SpendAllocation>, plan: seq<PlanItem>)
    requires |allocations| == |plan|
    requires forall k :: 0 <= k < |plan| ==> allocations[k].amount == plan[k].amount
    ensures AllocationTotal(allocations) == PlanTotal(plan)
  {
    if plan != [] {
      AllocationTotalMatches(allocations[1..], plan[1..]);
    }
  }

  /**
   * The allocations a covered spend returns: one per plan line, in plan order,
   * each with its source grant's type and expiry, adding up to the cost.
   */
  lemma {:induction false} SpendAllocationsFacts(gs: seq<Grant>, o: Owner, now: int, cost: int)
    requires IdsAreIndices(gs)
    requires 0 < cost <= BalanceOf(gs, o, now)
    ensures var plan := SpendPlanFor(gs, o, now, cost);
      var allocations := AllocationsOf(UsableGrants(gs, o, now), plan);
      && |allocations| == |plan|
      && (forall k :: 0 <= k < |plan| ==>
            plan[k].grantId < |gs| &&
            allocations[k] == SpendAllocation(plan[k].grantId, plan[k].amount,
                                gs[plan[k].grantId].creditType, gs[plan[k].grantId].expiresAt))
      && AllocationTotal(allocations) == cost
  {
    var plan := SpendPlanFor(gs, o, now, cost);
    var u := UsableGrants(gs, o, now);
    SpendPlanFacts(gs, o, now, cost);
    UsableGrantsFacts(gs, o, now);
    AllocationsOfPrefix(gs, u, plan, |plan|);
    assert plan[..|plan|] == plan;
    AllocationTotalMatches(AllocationsOf(u, plan), plan);
  }

  lemma {:induction false} AllocationsOfPrefix(gs: seq<Grant>, u: seq<GrantLike>, plan: seq<PlanItem>, n: int)
    requires 0 <= n <= |plan| && IdsAreIndices(gs)
    requires forall x :: x in u ==> x.id < |gs| && x == AsGrantLike(gs[x.id])
    requires forall k :: 0 <= k < |plan| ==> plan[k].grantId < |gs| && AsGrantLike(gs[plan[k].grantId]) in u
    ensures |AllocationsOf(u, plan[..n])| == n
    ensures forall k :: 0 <= k < n ==>
              AllocationsOf(u, plan[..n])[k] == SpendAllocation(plan[k].grantId, plan[k].amount,
                                                  gs[plan[k].grantId].creditType, gs[plan[k].grantId].expiresAt)
  {
    if n > 0 {
      AllocationsOfPrefix(gs, u, plan, n - 1);
      assert plan[..n][..n - 1] == plan[..n - 1];
      var item := plan[n - 1];
      assert gs[item.grantId].id == item.grantId;
      var found := FindById(u, item.grantId);
      assert found.Some?;
    }
  }

  /** Σ over ids below `n` of what the plan takes from each. */
  function AllocatedBelow(plan: seq<PlanItem>, n: nat): int {
    if n == 0 then 0 else AllocatedBelow(plan, n - 1) + AllocatedTo(plan, n - 1)
  }

  lemma {:induction false} AllocatedBelowSplit(plan: seq<PlanItem>, n: nat)
    requires plan != []
    ensures AllocatedBelow(plan, n) ==
            (if plan[0].grantId < n then plan[0].amount else 0) + AllocatedBelow(plan[1..], n)
  {
    if n > 0 {
      AllocatedBelowSplit(plan, n - 1);
    }
  }

  lemma {:induction false} AllocatedBelowAll(plan: seq<PlanItem>, n: nat)
    requires forall k :: 0 <= k < |plan| ==> plan[k].grantId < n
    ensures AllocatedBelow(plan, n) == PlanTotal(plan)
  {
    if plan == [] {
      AllocatedBelowEmpty(n);
    } else {
      AllocatedBelowSplit(plan, n);
      AllocatedBelowAll(plan[1..], n);
    }
  }

  lemma {:induction false} AllocatedBelowEmpty(n: nat)
    ensures AllocatedBelow([], n) == 0
  {
    if n > 0 {
      AllocatedBelowEmpty(n - 1);
    }
  }

  lemma {:induction false} BalancePointwise(gs: seq<Grant>, gs': seq<Grant>, o: Owner, now: int, plan: seq<PlanItem>, n: nat)
    requires n <= |gs| == |gs'|
    requires forall i :: 0 <= i < |gs| ==>
               Contribution(gs'[i], o, now) == Contribution(gs[i], o, now) - AllocatedTo(plan, i)
    ensures BalanceOf(gs'[..n], o, now) == BalanceOf(gs[..n], o, now) - AllocatedBelow(plan, n)
  {
    if n > 0 {
      BalancePointwise(gs, gs', o, now, plan, n - 1);
      assert gs[..n][..n - 1] == gs[..n - 1];
      assert gs'[..n][..n - 1] == gs'[..n - 1];
    }
  }

  /**
   * A covered spend lowers the spender's balance by exactly the cost and
   * leaves every other owner's balance as it was.
   */
  lemma SpendLowersBalanceByCost(gs: seq<Grant>, o: Owner, now: int, cost: int, other: Owner)
    requires IdsAreIndices(gs)
    requires 0 < cost <= BalanceOf(gs, o, now)
    requires other != o
    ensures BalanceOf(DebitAll(gs, SpendPlanFor(gs, o, now, cost)), o, now) == BalanceOf(gs, o, now) - cost
    ensures BalanceOf(DebitAll(gs, SpendPlanFor(gs, o, now, cost)), other, now) == BalanceOf(gs, other, now)
  {
    var plan := SpendPlanFor(gs, o, now, cost);
    var gs' := DebitAll(gs, plan);
    SpendPlanFacts(gs, o, now, cost);
    forall i | 0 <= i < |gs|
      ensures Contribution(gs'[i], o, now) == Contribution(gs[i], o, now) - AllocatedTo(plan, i)
      ensures Contribution(gs'[i], other, now) == Contribution(gs[i], other, now) - AllocatedTo([], i)
    {
      if k :| 0 <= k < |plan| && plan[k].grantId == i {
        AllocatedToLine(plan, k);
      } else {
        AllocatedToAbsent(plan, i);
      }
    }
    BalancePointwise(gs, gs', o, now, plan, |gs|);
    BalancePointwise(gs, gs', other, now, [], |gs|);
    AllocatedBelowAll(plan, |gs|);
    AllocatedBelowEmpty(|gs|);
    assert gs[..|gs|] == gs && gs'[..|gs|] == gs';
  }

  /** Appending a grant adds its contribution to the balance. */
  lemma BalanceAppend(gs: seq<Grant>, g: Grant, o: Owner, now: int)
    ensures BalanceOf(gs + [g], o, now) == BalanceOf(gs, o, now) + Contribution(g, o, now)
  {
    assert (gs + [g])[..|gs|] == gs;
  }

  lemma PrefixStep(plan: seq<PlanItem>, k: int)
    requires 0 <= k < |plan|
    ensures plan[..k + 1] == plan[..k] + [plan[k]]
    ensures plan[..k + 1][..k] == plan[..k]
  {
  }

  lemma DebitAllNone(gs: seq<Grant>, plan: seq<PlanItem>)
    ensures DebitAll(gs, plan[..0]) == gs
  {
    assert plan[..0] == [];
    forall i | 0 <= i < |gs| ensures DebitAll(gs, plan[..0])[i] == gs[i] { }
  }

  /** The plan names distinct grants of `o`, each line within what its grant holds. */
  ghost predicate PlanFits(gs: seq<Grant>, plan: seq<PlanItem>, o: Owner) {
    && (forall k :: 0 <= k < |plan| ==>
          && plan[k].grantId < |gs| && gs[plan[k].grantId].owner == o
          && 0 < plan[k].amount <= gs[plan[k].grantId].remainingAmount)
    && (forall i, j :: 0 <= i < j < |plan| ==> plan[i].grantId != plan[j].grantId)
  }

  /** After the first `k` lines are applied, line `k` still fits its grant. */
  lemma PlanLineStillFits(gs: seq<Grant>, plan: seq<PlanItem>, o: Owner, k: int)
    requires PlanFits(gs, plan, o) && 0 <= k < |plan|
    ensures var current := DebitAll(gs, plan[..k]);
      && plan[k].grantId < |current| && current[plan[k].grantId].owner == o
      && 0 < plan[k].amount <= current[plan[k].grantId].remainingAmount
  {
    AllocatedToAbsent(plan[..k], plan[k].grantId);
  }

  lemma DebitAllStep(gs: seq<Grant>, plan: seq<PlanItem>, k: int)
    requires 0 <= k < |plan| && plan[k].grantId < |gs|
    ensures var before := DebitAll(gs, plan[..k]);
      DebitAll(gs, plan[..k + 1]) == before[plan[k].grantId := Debited(before[plan[k].grantId], plan[k].amount)]
  {
    PrefixStep(plan, k);
    var before := DebitAll(gs, plan[..k]);
    var after := before[plan[k].grantId := Debited(before[plan[k].grantId], plan[k].amount)];
    forall i | 0 <= i < |gs| ensures DebitAll(gs, plan[..k + 1])[i] == after[i] {
      AllocatedToAppend(plan[..k], plan[k], i);
    }
  }

  // ---------------------------------------------------------------------
  // The invariant of the two tables.

  /** How much the spend rows have taken from grant `id`. */
  function SpentOn(spends: seq<Spend>, id: GrantId): int
    decreases |spends|
  {
    if spends == [] then 0
    else
      var last := spends[|spends| - 1];
      SpentOn(spends[..|spends| - 1], id) + (if last.grantId == id then last.amount else 0)
  }

  lemma {:induction false} SpentOnUnused(spends: seq<Spend>, id: GrantId)
    requires forall k :: 0 <= k < |spends| ==> spends[k].grantId != id
    ensures SpentOn(spends, id) == 0
    decreases |spends|
  {
    if spends != [] {
      SpentOnUnused(spends[..|spends| - 1], id);
    }
  }

  /**
   * Every grant's id is its position, amounts are positive, nothing is
   * overdrawn, every spend row points at a grant of the same owner, and a
   * grant's original amount is what remains plus what its spend rows took.
   */
  ghost predicate LedgerInvariant(grants: seq<Grant>, spends: seq<Spend>) {
    && IdsAreIndices(grants)
    && (forall i :: 0 <= i < |grants| ==> 0 < grants[i].amount && 0 <= grants[i].remainingAmount)
    && (forall k :: 0 <= k < |spends| ==>
          spends[k].grantId < |grants| && spends[k].amount > 0 && spends[k].owner == grants[spends[k].grantId].owner)
    && (forall i :: 0 <= i < |grants| ==> grants[i].amount == grants[i].remainingAmount + SpentOn(spends, i))
  }

  lemma AppendGrantKeepsInvariant(grants: seq<Grant>, spends: seq<Spend>, g: Grant)
    requires LedgerInvariant(grants, spends)
    requires g.id == |grants| && g.amount > 0 && g.remainingAmount == g.amount
    ensures LedgerInvariant(grants + [g], spends)
  {
    SpentOnUnused(spends, |grants|);
    var gs := grants + [g];
    forall i | 0 <= i < |grants| ensures gs[i] == grants[i] { }
  }

  lemma DebitStepKeepsInvariant(grants: seq<Grant>, spends: seq<Spend>, row: Spend)
    requires LedgerInvariant(grants, spends)
    requires row.grantId < |grants| && 0 < row.amount <= grants[row.grantId].remainingAmount
    requires row.owner == grants[row.grantId].owner
    ensures LedgerInvariant(grants[row.grantId := Debited(grants[row.grantId], row.amount)], spends + [row])
  {
    var ss := spends + [row];
    assert ss[..|spends|] == spends;
    forall k | 0 <= k < |spends| ensures ss[k] == spends[k] { }
  }

  /** One turn of the write loop keeps the table invariant and advances every loop fact by one line. */
  lemma ApplyStep(
    gs0: seq<Grant>, ss0: seq<Spend>, plan: seq<PlanItem>, o: Owner, loaded: seq<GrantLike>,
    reason: Option<string>, spendRef: Option<string>, metadata: Option<Metadata>, now: int,
    k: int, gs: seq<Grant>, ss: seq<Spend>, allocations: seq<SpendAllocation>)
    requires PlanFits(gs0, plan, o) && 0 <= k < |plan|
    requires LedgerInvariant(gs, ss)
    requires gs == DebitAll(gs0, plan[..k])
    requires ss == ss0 + SpendRows(plan[..k], o, reason, spendRef, metadata, now)
    requires allocations == AllocationsOf(loaded, plan[..k])
    ensures var item := plan[k];
      var row := Spend(item.grantId, o, item.amount, reason, spendRef, metadata, now);
      var gs' := gs[item.grantId := Debited(gs[item.grantId], item.amount)];
      && item.grantId < |gs|
      && LedgerInvariant(gs', ss + [row])
      && gs' == DebitAll(gs0, plan[..k + 1])
      && ss + [row] == ss0 + SpendRows(plan[..k + 1], o, reason, spendRef, metadata, now)
      && allocations + AllocationLine(loaded, item) == AllocationsOf(loaded, plan[..k + 1])
  {
    var item := plan[k];
    var row := Spend(item.grantId, o, item.amount, reason, spendRef, metadata, now);
    PrefixStep(plan, k);
    PlanLineStillFits(gs0, plan, o, k);
    DebitStepKeepsInvariant(gs, ss, row);
    DebitAllStep(gs0, plan, k);
  }

  /**
   * The loop body of `spendCreditsOrThrow` over the rows it writes: for each
   * plan line, decrement the grant, append a spend row, and record the
   * allocation when the loaded grants hold that id.
   */
  method WritePlan(
    grants: seq<Grant>, spends: seq<Spend>, plan: seq<PlanItem>, loaded: seq<GrantLike>, o: Owner,
    reason: Option<string>, spendRef: Option<string>, metadata: Option<Metadata>, now: int)
    returns (gs: seq<Grant>, ss: seq<Spend>, allocations: seq<SpendAllocation>)
    requires LedgerInvariant(grants, spends) && PlanFits(grants, plan, o)
    ensures LedgerInvariant(gs, ss)
    ensures gs == DebitAll(grants, plan)
    ensures ss == spends + SpendRows(plan, o, reason, spendRef, metadata, now)
    ensures allocations == AllocationsOf(loaded, plan)
  {
    gs, ss := grants, spends;
    allocations := [];
    DebitAllNone(gs, plan);
    assert plan[..0] == [];
    assert ss == spends + SpendRows(plan[..0], o, reason, spendRef, metadata, now);
    var k := 0;
    while k < |plan|
      invariant 0 <= k <= |plan|
      invariant LedgerInvariant(gs, ss)
      invariant gs == DebitAll(grants, plan[..k])
      invariant ss == spends + SpendRows(plan[..k], o, reason, spendRef, metadata, now)
      invariant allocations == AllocationsOf(loaded, plan[..k])
    {
      var item := plan[k];
      ApplyStep(grants, spends, plan, o, loaded, reason, spendRef, metadata, now, k, gs, ss, allocations);
      var row := Spend(item.grantId, o, item.amount, reason, spendRef, metadata, now);
      gs := gs[item.grantId := Debited(gs[item.grantId], item.amount)];
      ss := ss + [row];
      allocations := allocations + AllocationLine(loaded, item);
      k := k + 1;
    }
    assert plan[..k] == plan;
  }

  // ---------------------------------------------------------------------
  // Finding an existing grant.

  /** The `where` clauses of the issuers' `findFirst` calls. */
  datatype GrantFilter =
    | DailyWindow(owner: Owner, start: int, end: int)
    | SourceRefOf(owner: Owner, creditType: Option<CreditType>, sourceRef: string)

  predicate Matches(f: GrantFilter, g: Grant) {
    match f
    case DailyWindow(o, start, end) =>
      g.owner == o && g.creditType == DailyFree && g.expiresAt.Some? && start <= g.expiresAt.value <= end
    case SourceRefOf(o, t, ref) =>
      g.owner == o && (t.None? || g.creditType == t.value) && g.sourceRef == Some(ref)
  }

  /** `findFirst`: the position of the first matching row in store order, if any. */
  function FindFirst(gs: seq<Grant>, f: GrantFilter): (r: Option<nat>)
    ensures r.Some? ==> r.value < |gs| && Matches(f, gs[r.value]) &&
                        forall j :: 0 <= j < r.value ==> !Matches(f, gs[j])
    ensures r.None? ==> forall j :: 0 <= j < |gs| ==> !Matches(f, gs[j])
  {
    if gs == [] then None
    else if Matches(f, gs[0]) then Some(0)
    else match FindFirst(gs[1..], f)
      case Some(k) => Some(k + 1)
      case None => None
  }

  /** A grant appended after a miss is the one the same lookup finds next time. */
  lemma {:induction false} FindFirstAfterAppend(gs: seq<Grant>, g: Grant, f: GrantFilter)
    requires FindFirst(gs, f).None? && Matches(f, g)
    ensures FindFirst(gs + [g], f) == Some(|gs|)
  {
    if gs == [] {
      assert gs + [g] == [g];
    } else {
      assert (gs + [g])[1..] == gs[1..] + [g];
      assert (gs + [g])[0] == gs[0];
      FindFirstAfterAppend(gs[1..], g, f);
    }
  }

  /** The default `sourceRef` of a daily grant. */
  function DailySourceRef(cal: Calendar, date: int): string {
    "daily-" + cal.dateKey(StartOfDayUTC(date))
  }

  /** The subscription cycle `sourceRef`. */
  function CycleSourceRef(prefix: string, cal: Calendar, cycleStart: int): string {
    prefix + "-" + cal.dateKey(cycleStart)
  }

  // ---------------------------------------------------------------------
  // Subscription cycles.

  /** `addMonths(t, 1)` applied `n` times. */
  function MonthsAfter(cal: Calendar, t: int, n: nat): int
    decreases n
  {
    if n == 0 then t else MonthsAfter(cal, cal.addMonths(t, 1), n - 1)
  }

  /** The loop of `ensureSubscriptionCycleGrant`: step a month at a time while the next step is not after `now`. */
  function LatestCycleStart(t: int, now: int, cal: Calendar): int
    requires ValidCalendar(cal)
    decreases now - t
  {
    if cal.addMonths(t, 1) <= now then LatestCycleStart(cal.addMonths(t, 1), now, cal) else t
  }

  lemma {:induction false} MonthsAfterGrows(cal: Calendar, t: int, n: nat)
    requires ValidCalendar(cal)
    ensures MonthsAfter(cal, t, n) >= t
    ensures n > 0 ==> MonthsAfter(cal, t, n) >= cal.addMonths(t, 1)
    decreases n
  {
    if n > 0 {
      MonthsAfterGrows(cal, cal.addMonths(t, 1), n - 1);
    }
  }

  /**
   * The cycle start the loop finds is a whole number of months after the
   * anchor, is not before it, and the next boundary is after `now`; when the
   * anchor is not in the future the cycle start is not either.
   */
  lemma {:induction false} CycleStartBounds(t: int, now: int, cal: Calendar)
    requires ValidCalendar(cal)
    ensures var c := LatestCycleStart(t, now, cal);
      && t <= c
      && cal.addMonths(c, 1) > now
      && (t <= now ==> c <= now)
      && exists n: nat :: MonthsAfter(cal, t, n) == c
    decreases now - t
  {
    if cal.addMonths(t, 1) <= now {
      var t' := cal.addMonths(t, 1);
      CycleStartBounds(t', now, cal);
      var n: nat :| MonthsAfter(cal, t', n) == LatestCycleStart(t', now, cal);
      assert MonthsAfter(cal, t, n + 1) == MonthsAfter(cal, t', n);
    } else {
      assert MonthsAfter(cal, t, 0) == t;
    }
  }

  /** No monthly boundary after the anchor that is not after `now` comes later than the cycle start. */
  lemma {:induction false} CycleStartIsLatest(t: int, now: int, cal: Calendar, m: nat)
    requires ValidCalendar(cal)
    requires MonthsAfter(cal, t, m) <= now
    ensures MonthsAfter(cal, t, m) <= LatestCycleStart(t, now, cal)
    decreases m
  {
    CycleStartBounds(t, now, cal);
    if m > 0 {
      var t' := cal.addMonths(t, 1);
      MonthsAfterGrows(cal, t, m);
      CycleStartIsLatest(t', now, cal, m - 1);
    }
  }

  /** The loop itself: `cycleStart` steps forward a month at a time. */
  method CurrentCycleStart(cycleAnchor: int, now: int, cal: Calendar) returns (cycleStart: int)
    requires ValidCalendar(cal)
    ensures cycleStart == LatestCycleStart(StartOfDayUTC(cycleAnchor), now, cal)
  {
    cycleStart := StartOfDayUTC(cycleAnchor);
    while cal.addMonths(cycleStart, 1) <= now
      invariant LatestCycleStart(cycleStart, now, cal) == LatestCycleStart(StartOfDayUTC(cycleAnchor), now, cal)
      decreases now - cycleStart
    {
      cycleStart := cal.addMonths(cycleStart, 1);
    }
  }

  // ---------------------------------------------------------------------
  // The store.

  const AmountErrorMessage: string := "Amount must be a positive integer"

  class Ledger {
    var grants: seq<Grant>
    var spends: seq<Spend>

    ghost predicate Valid()
      reads this
    {
      LedgerInvariant(grants, spends)
    }

    constructor ()
      ensures Valid() && grants == [] && spends == []
    {
      grants := [];
      spends := [];
    }

    /** `getCreditBalance`: the owner's balance at `now`. */
    function GetCreditBalance(input: OwnerInput, now: int): (r: Result<int, CreditError>)
      reads this
      ensures ResolveOwner(input).Failure? ==> r == Failure(InvalidOwnerError)
      ensures ResolveOwner(input).Success? ==>
                r.Success? && r.value == BalanceOf(grants, ResolveOwner(input).value, now) && r.value >= 0
    {
      match ResolveOwner(input)
      case Failure(e) => Failure(e)
      case Success(o) =>
        UsableTotalIsBalance(grants, o, now);
        BalanceNonNegative(grants, o, now);
        Success(TotalAvailable(UsableGrants(grants, o, now)))
    }

    /** `getCreditDetailsBalance`: the balance split by type, and the next expiry. */
    function GetCreditDetailsBalance(input: OwnerInput, now: int): (r: Result<CreditDetails, CreditError>)
      reads this
      ensures ResolveOwner(input).Failure? ==> r == Failure(InvalidOwnerError)
      ensures ResolveOwner(input).Success? ==> r.Success?
      ensures r.Success? ==>
        var o := ResolveOwner(input).value;
        var d := r.value;
        && d.total == d.dailyFree + d.purchased + d.subscription + d.promotional
        && d.total == BalanceOf(grants, o, now)
        && d.dailyFree == TypeBalance(grants, o, now, DailyFree)
        && d.purchased == TypeBalance(grants, o, now, Purchased)
        && d.subscription == TypeBalance(grants, o, now, Subscription)
        && d.promotional == TypeBalance(grants, o, now, Promotional)
        && (d.nextExpiry.None? <==> forall i :: 0 <= i < |grants| ==> !ExpiryCandidate(grants[i], o, now))
        && (d.nextExpiry.Some? ==>
              && (exists i :: 0 <= i < |grants| && ExpiryCandidate(grants[i], o, now) && grants[i].expiresAt == d.nextExpiry)
              && (forall i :: 0 <= i < |grants| && ExpiryCandidate(grants[i], o, now) ==>
                    d.nextExpiry.value <= grants[i].expiresAt.value))
    {
      match ResolveOwner(input)
      case Failure(e) => Failure(e)
      case Success(o) =>
        TypeBalancesSumToBalance(grants, o, now);
        NextExpiryIsEarliest(grants, o, now);
        var dailyFree := TypeBalance(grants, o, now, DailyFree);
        var purchased := TypeBalance(grants, o, now, Purchased);
        var subscription := TypeBalance(grants, o, now, Subscription);
        var promotional := TypeBalance(grants, o, now, Promotional);
        Success(CreditDetails(dailyFree + purchased + subscription + promotional,
                              dailyFree, purchased, subscription, promotional,
                              NextExpiry(grants, o, now)))
    }

    /** The insert behind every issuer: a new row with the next id and nothing spent. */
    method CreateGrant(
      owner: Owner, amount: int, creditType: CreditType, expiresAt: Option<int>,
      sourceRef: Option<string>, reason: Option<string>, metadata: Option<Metadata>, now: int)
      returns (g: Grant)
      requires Valid() && amount > 0
      modifies this
      ensures Valid()
      ensures g == NewGrant(|old(grants)|, owner, amount, creditType, expiresAt, sourceRef, reason, metadata, now)
      ensures grants == old(grants) + [g] && spends == old(spends)
    {
      g := NewGrant(|grants|, owner, amount, creditType, expiresAt, sourceRef, reason, metadata, now);
      AppendGrantKeepsInvariant(grants, spends, g);
      grants := grants + [g];
    }

    /**
     * `addCreditEntry`: resolve the owner, reject an amount that is not a
     * positive integer, then create the grant (type PURCHASED by default).
     */
    method AddCreditEntry(
      input: OwnerInput, amount: real, creditType: Option<CreditType>, expiresAt: Option<int>,
      sourceRef: Option<string>, reason: Option<string>, metadata: Option<Metadata>, now: int)
      returns (r: Result<Grant, CreditError>)
      requires Valid()
      modifies this
      ensures Valid() && spends == old(spends)
      ensures ResolveOwner(input).Failure? ==> r == Failure(InvalidOwnerError) && grants == old(grants)
      ensures ResolveOwner(input).Success? && !IsPositiveInteger(amount) ==>
                r == Failure(PlainError(AmountErrorMessage)) && grants == old(grants)
      ensures ResolveOwner(input).Success? && IsPositiveInteger(amount) ==>
                && r == Success(NewGrant(|old(grants)|, ResolveOwner(input).value, amount.Floor,
                                         creditType.GetOr(Purchased), expiresAt, sourceRef, reason, metadata, now))
                && grants == old(grants) + [r.value]
    {
      var resolved := ResolveOwner(input);
      if resolved.Failure? {
        return Failure(resolved.error);
      }
      if !IsPositiveInteger(amount) {
        return Failure(PlainError(AmountErrorMessage));
      }
      var g := CreateGrant(resolved.value, amount.Floor, creditType.GetOr(Purchased), expiresAt,
                           sourceRef, reason, metadata, now);
      return Success(g);
    }

    /**
     * `spendCreditsOrThrow`: in one transaction, load the owner's usable
     * grants, plan the spend, and for each plan line decrement the grant and
     * append a spend row.  Nothing is written unless the whole cost is covered.
     */
    method SpendCreditsOrThrow(
      input: OwnerInput, cost: real, reason: Option<string>, metadata: Option<Metadata>,
      spendRef: Option<string>, now: int)
      returns (r: Result<SpendOutcome, CreditError>)
      requires Valid()
      modifies this
      ensures Valid()
      ensures r.Failure? ==> grants == old(grants) && spends == old(spends)
      ensures ResolveOwner(input).Failure? ==> r == Failure(InvalidOwnerError)
      ensures ResolveOwner(input).Success? && !IsPositiveInteger(cost) ==>
                r == Failure(PlainError(CostErrorMessage))
      ensures ResolveOwner(input).Success? && IsPositiveInteger(cost) ==>
        var o := ResolveOwner(input).value;
        var plan := SpendPlanFor(old(grants), o, now, cost.Floor);
        if BalanceOf(old(grants), o, now) < cost.Floor then
          r == Failure(InsufficientCreditsError)
        else
          && r == Success(SpendOutcome(cost.Floor, AllocationsOf(UsableGrants(old(grants), o, now), plan)))
          && grants == DebitAll(old(grants), plan)
          && spends == old(spends) + SpendRows(plan, o, reason, spendRef, metadata, now)
    {
      var resolved := ResolveOwner(input);
      if resolved.Failure? {
        return Failure(resolved.error);
      }
      var o := resolved.value;
      var loaded := UsableGrants(grants, o, now);
      UsableTotalIsBalance(grants, o, now);
      var planned := PlanSpend(loaded, cost);
      if planned.Failure? {
        return Failure(planned.error);
      }
      var plan := planned.value.plan;
      SpendPlanFacts(grants, o, now, cost.Floor);
      assert PlanFits(grants, plan, o);
      var allocations := ApplyPlan(plan, loaded, o, reason, spendRef, metadata, now);
      return Success(SpendOutcome(cost.Floor, allocations));
    }

    /**
     * The writes of a spend inside its transaction: the rows are computed by
     * `WritePlan` and stored together, as the transaction commits them.
     */
    method ApplyPlan(
      plan: seq<PlanItem>, loaded: seq<GrantLike>, o: Owner, reason: Option<string>,
      spendRef: Option<string>, metadata: Option<Metadata>, now: int)
      returns (allocations: seq<SpendAllocation>)
      requires Valid() && PlanFits(grants, plan, o)
      modifies this
      ensures Valid()
      ensures grants == DebitAll(old(grants), plan)
      ensures spends == old(spends) + SpendRows(plan, o, reason, spendRef, metadata, now)
      ensures allocations == AllocationsOf(loaded, plan)
    {
      var gs, ss;
      gs, ss, allocations := WritePlan(grants, spends, plan, loaded, o, reason, spendRef, metadata, now);
      grants, spends := gs, ss;
    }

    /**
     * `ensureDailyFreeGrant`: a non-positive amount yields null at once;
     * otherwise an existing DAILY_FREE grant expiring on the same UTC day is
     * returned, else one is created that expires at the day's last millisecond.
     */
    method EnsureDailyFreeGrant(
      input: OwnerInput, amount: int, reason: string, date: int, sourceRef: Option<string>,
      cal: Calendar, now: int)
      returns (r: Result<Option<Grant>, CreditError>)
      requires Valid()
      modifies this
      ensures Valid() && spends == old(spends)
      ensures amount <= 0 ==> r == Success(None) && grants == old(grants)
      ensures amount > 0 && ResolveOwner(input).Failure? ==> r == Failure(InvalidOwnerError) && grants == old(grants)
      ensures amount > 0 && ResolveOwner(input).Success? ==>
        var o := ResolveOwner(input).value;
        var found := FindFirst(old(grants), DailyWindow(o, StartOfDayUTC(date), EndOfDayUTC(date)));
        if found.Some? then
          r == Success(Some(old(grants)[found.value])) && grants == old(grants)
        else
          && r == Success(Some(NewGrant(|old(grants)|, o, amount, DailyFree, Some(EndOfDayUTC(date)),
                                        Some(sourceRef.GetOr(DailySourceRef(cal, date))), Some(reason), None, now)))
          && grants == old(grants) + [r.value.value]
    {
      if amount <= 0 {
        return Success(None);
      }
      var resolved := ResolveOwner(input);
      if resolved.Failure? {
        return Failure(resolved.error);
      }
      var start := StartOfDayUTC(date);
      var end := EndOfDayUTC(date);
      var existing := FindFirst(grants, DailyWindow(resolved.value, start, end));
      if existing.Some? {
        return Success(Some(grants[existing.value]));
      }
      var g := CreateGrant(resolved.value, amount, DailyFree, Some(end),
                           Some(sourceRef.GetOr("daily-" + cal.dateKey(start))), Some(reason), None, now);
      return Success(Some(g));
    }

    /**
     * `ensureSubscriptionCycleGrant`: find the current cycle start from the
     * anchor, then return the SUBSCRIPTION grant with that cycle's
     * `sourceRef`, or create it expiring `expiresInMonths` after the cycle start.
     */
    method EnsureSubscriptionCycleGrant(
      input: OwnerInput, amount: int, reason: string, cycleAnchor: int, expiresInMonths: int,
      sourceRefPrefix: string, cal: Calendar, now: int)
      returns (r: Result<Option<Grant>, CreditError>)
      requires Valid() && ValidCalendar(cal)
      modifies this
      ensures Valid() && spends == old(spends)
      ensures amount <= 0 ==> r == Success(None) && grants == old(grants)
      ensures amount > 0 && ResolveOwner(input).Failure? ==> r == Failure(InvalidOwnerError) && grants == old(grants)
      ensures amount > 0 && ResolveOwner(input).Success? ==>
        var o := ResolveOwner(input).value;
        var cycleStart := LatestCycleStart(StartOfDayUTC(cycleAnchor), now, cal);
        var ref := CycleSourceRef(sourceRefPrefix, cal, cycleStart);
        var found := FindFirst(old(grants), SourceRefOf(o, Some(Subscription), ref));
        if found.Some? then
          r == Success(Some(old(grants)[found.value])) && grants == old(grants)
        else
          && r == Success(Some(NewGrant(|old(grants)|, o, amount, Subscription,
                                        Some(cal.addMonths(cycleStart, expiresInMonths)),
                                        Some(ref), Some(reason), None, now)))
          && grants == old(grants) + [r.value.value]
    {
      if amount <= 0 {
        return Success(None);
      }
      var resolved := ResolveOwner(input);
      if resolved.Failure? {
        return Failure(resolved.error);
      }
      var cycleStart := CurrentCycleStart(cycleAnchor, now, cal);
      var cycleEnd := cal.addMonths(cycleStart, expiresInMonths);
      var ref := sourceRefPrefix + "-" + cal.dateKey(cycleStart);
      var existing := FindFirst(grants, SourceRefOf(resolved.value, Some(Subscription), ref));
      if existing.Some? {
        return Success(Some(grants[existing.value]));
      }
      var g := CreateGrant(resolved.value, amount, Subscription, Some(cycleEnd), Some(ref), Some(reason), None, now);
      return Success(Some(g));
    }

    /**
     * `ensurePromotionalGrant`: deduplicate on the owner and `sourceRef`
     * whatever the type of the existing grant; a new grant is PROMOTIONAL.
     */
    method EnsurePromotionalGrant(
      input: OwnerInput, amount: int, expiresAt: int, reason: string, sourceRef: string, now: int)
      returns (r: Result<Option<Grant>, CreditError>)
      requires Valid()
      modifies this
      ensures Valid() && spends == old(spends)
      ensures amount <= 0 ==> r == Success(None) && grants == old(grants)
      ensures amount > 0 && ResolveOwner(input).Failure? ==> r == Failure(InvalidOwnerError) && grants == old(grants)
      ensures amount > 0 && ResolveOwner(input).Success? ==>
        var o := ResolveOwner(input).value;
        var found := FindFirst(old(grants), SourceRefOf(o, None, sourceRef));
        if found.Some? then
          r == Success(Some(old(grants)[found.value])) && grants == old(grants)
        else
          && r == Success(Some(NewGrant(|old(grants)|, o, amount, Promotional, Some(expiresAt),
                                        Some(sourceRef), Some(reason), None, now)))
          && grants == old(grants) + [r.value.value]
    {
      if amount <= 0 {
        return Success(None);
      }
      var resolved := ResolveOwner(input);
      if resolved.Failure? {
        return Failure(resolved.error);
      }
      var existing := FindFirst(grants, SourceRefOf(resolved.value, None, sourceRef));
      if existing.Some? {
        return Success(Some(grants[existing.value]));
      }
      var g := CreateGrant(resolved.value, amount, Promotional, Some(expiresAt), Some(sourceRef), Some(reason), None, now);
      return Success(Some(g));
    }
  }

  // ---------------------------------------------------------------------
  // Issuing twice.

  /**
   * Two daily issues for the same owner at any two instants of one UTC day
   * give the same answer and create at most one grant.
   */
  method DailyGrantTwice(
    ledger: Ledger, input: OwnerInput, amount: int, reason: string, date1: int, date2: int,
    sourceRef: Option<string>, cal: Calendar, now: int, later: int)
    returns (first: Result<Option<Grant>, CreditError>, second: Result<Option<Grant>, CreditError>)
    requires ledger.Valid()
    requires StartOfDayUTC(date1) == StartOfDayUTC(date2)
    modifies ledger
    ensures ledger.Valid() && ledger.spends == old(ledger.spends)
    ensures second == first
    ensures |ledger.grants| <= |old(ledger.grants)| + 1
  {
    first := ledger.EnsureDailyFreeGrant(input, amount, reason, date1, sourceRef, cal, now);
    if amount > 0 && ResolveOwner(input).Success? {
      var f := DailyWindow(ResolveOwner(input).value, StartOfDayUTC(date1), EndOfDayUTC(date1));
      if FindFirst(old(ledger.grants), f).None? {
        FindFirstAfterAppend(old(ledger.grants), first.value.value, f);
      }
    }
    ghost var between := ledger.grants;
    second := ledger.EnsureDailyFreeGrant(input, amount, reason, date2, sourceRef, cal, later);
    assert ledger.grants == between;
  }

  /**
   * Two subscription issues at any two instants of the same cycle return the
   * same grant and create at most one.
   */
  method SubscriptionGrantTwice(
    ledger: Ledger, input: OwnerInput, amount: int, reason: string, cycleAnchor: int,
    expiresInMonths: int, prefix: string, cal: Calendar, now1: int, now2: int)
    returns (first: Result<Option<Grant>, CreditError>, second: Result<Option<Grant>, CreditError>)
    requires ledger.Valid() && ValidCalendar(cal)
    requires LatestCycleStart(StartOfDayUTC(cycleAnchor), now1, cal)
             == LatestCycleStart(StartOfDayUTC(cycleAnchor), now2, cal)
    modifies ledger
    ensures ledger.Valid() && ledger.spends == old(ledger.spends)
    ensures second == first
    ensures |ledger.grants| <= |old(ledger.grants)| + 1
  {
    first := ledger.EnsureSubscriptionCycleGrant(input, amount, reason, cycleAnchor, expiresInMonths, prefix, cal, now1);
    if amount > 0 && ResolveOwner(input).Success? {
      var f := SourceRefOf(ResolveOwner(input).value, Some(Subscription), CycleSourceRef(prefix, cal, LatestCycleStart(StartOfDayUTC(cycleAnchor), now1, cal)));
      if FindFirst(old(ledger.grants), f).None? {
        FindFirstAfterAppend(old(ledger.grants), first.value.value, f);
      }
    }
    ghost var between := ledger.grants;
    second := ledger.EnsureSubscriptionCycleGrant(input, amount, reason, cycleAnchor, expiresInMonths, prefix, cal, now2);
    assert ledger.grants == between;
  }

  /** Two promotional issues with one `sourceRef` return the same grant and create at most one. */
  method PromotionalGrantTwice(
    ledger: Ledger, input: OwnerInput, amount: int, expiresAt: int, reason: string,
    sourceRef: string, now: int, later: int)
    returns (first: Result<Option<Grant>, CreditError>, second: Result<Option<Grant>, CreditError>)
    requires ledger.Valid()
    modifies ledger
    ensures ledger.Valid() && ledger.spends == old(ledger.spends)
    ensures second == first
    ensures |ledger.grants| <= |old(ledger.grants)| + 1
  {
    first := ledger.EnsurePromotionalGrant(input, amount, expiresAt, reason, sourceRef, now);
    if amount > 0 && ResolveOwner(input).Success? {
      var f := SourceRefOf(ResolveOwner(input).value, None, sourceRef);
      if FindFirst(old(ledger.grants), f).None? {
        FindFirstAfterAppend(old(ledger.grants), first.value.value, f);
      }
    }
    ghost var between := ledger.grants;
    second := ledger.EnsurePromotionalGrant(input, amount, expiresAt, reason, sourceRef, later);
    assert ledger.grants == between;
  }
}
