/**
 * Plan lookup and plan arithmetic of the payments package: which plan a
 * product belongs to, which plan a set of purchases makes active, plan
 * levels, monthly credit quotas and the credits an upgrade adds.
 */
module PaymentsHelper {
  import opened Common

  datatype PriceKind = Recurring(interval: string) | OneTimePrice

  datatype Price = Price(productId: string, kind: PriceKind, amount: int, currency: string)

  datatype PlanCredits = PlanCredits(daily: Option<int>, monthly: Option<int>)

  datatype Plan = Plan(isFree: bool, credits: Option<PlanCredits>, prices: Option<seq<Price>>)

  /** The plan table as `Object.entries` lists it: (plan id, plan) in declaration order. */
  type Plans = seq<(string, Plan)>

  /** The price ids the deployment supplies through its environment. */
  datatype PriceIds = PriceIds(proMonthly: string, proYearly: string, ultraMonthly: string, ultraYearly: string)

  /** The configured plans: free with 30 daily credits, pro with 3000 and ultra with 8000 monthly credits. */
  function ConfiguredPlans(env: PriceIds): Plans {
    [ ("free", Plan(true, Some(PlanCredits(Some(30), None)), None)),
      ("pro", Plan(false, Some(PlanCredits(None, Some(3000))),
                   Some([Price(env.proMonthly, Recurring("month"), 10, "USD"),
                         Price(env.proYearly, Recurring("year"), 84, "USD")]))),
      ("ultra", Plan(false, Some(PlanCredits(None, Some(8000))),
                     Some([Price(env.ultraMonthly, Recurring("month"), 20, "USD"),
                           Price(env.ultraYearly, Recurring("year"), 216, "USD")]))) ]
  }

  /** `plan.prices?.some(price => price.productId === productId)`. */
  predicate Sells(p: Plan, productId: string) {
    p.prices.Some? && exists i :: 0 <= i < |p.prices.value| && p.prices.value[i].productId == productId
  }

  /** `prices.find(...)`: the first price with this product id. */
  function FindPrice(prices: seq<Price>, productId: string): (r: Option<Price>)
    ensures r.Some? <==> exists i :: 0 <= i < |prices| && prices[i].productId == productId
    ensures r.Some? ==> r.value in prices && r.value.productId == productId
    ensures r.Some? ==> exists i :: 0 <= i < |prices| && prices[i] == r.value
                          && forall j :: 0 <= j < i ==> prices[j].productId != productId
  {
    if prices == [] then None
    else if prices[0].productId == productId then Some(prices[0])
    else
      var rest := FindPrice(prices[1..], productId);
      assert forall i :: 1 <= i < |prices| ==> prices[i] == prices[1..][i - 1];
      rest
  }

  /** The position of the first plan that sells `productId`. */
  function FindPlanSelling(plans: Plans, productId: string): (r: Option<nat>)
    ensures r.Some? ==> r.value < |plans| && Sells(plans[r.value].1, productId)
                        && forall j :: 0 <= j < r.value ==> !Sells(plans[j].1, productId)
    ensures r.None? ==> forall j :: 0 <= j < |plans| ==> !Sells(plans[j].1, productId)
  {
    if plans == [] then None
    else if Sells(plans[0].1, productId) then Some(0)
    else match FindPlanSelling(plans[1..], productId)
      case Some(k) => Some(k + 1)
      case None => None
  }

  /** `getPlanIdByProductId`: the id of the first plan whose prices contain the product, else null. */
  function GetPlanIdByProductId(plans: Plans, productId: string): (r: Option<string>)
    ensures r.None? <==> forall j :: 0 <= j < |plans| ==> !Sells(plans[j].1, productId)
    ensures r.Some? ==> exists k :: 0 <= k < |plans| && r.value == plans[k].0 && Sells(plans[k].1, productId)
                                    && forall j :: 0 <= j < k ==> !Sells(plans[j].1, productId)
  {
    match FindPlanSelling(plans, productId)
    case Some(k) => Some(plans[k].0)
    case None => None
  }

  /** `plans[planId]`: the entry with this key. */
  function LookupPlan(plans: Plans, planId: string): (r: Option<Plan>)
    ensures r.None? <==> forall j :: 0 <= j < |plans| ==> plans[j].0 != planId
    ensures r.Some? ==> exists k :: 0 <= k < |plans| && plans[k] == (planId, r.value)
                                    && forall j :: 0 <= j < k ==> plans[j].0 != planId
  {
    if plans == [] then None
    else if plans[0].0 == planId then Some(plans[0].1)
    else
      var rest := LookupPlan(plans[1..], planId);
      assert forall j :: 1 <= j < |plans| ==> plans[j] == plans[1..][j - 1];
      rest
  }

  /** `getPlanMonthlyCredits`: the plan's monthly quota, 0 for an unknown plan or one without a monthly quota. */
  function GetPlanMonthlyCredits(plans: Plans, planId: string): (r: int)
    ensures LookupPlan(plans, planId).None? ==> r == 0
    ensures LookupPlan(plans, planId).Some? ==>
              var p := LookupPlan(plans, planId).value;
              r == if p.credits.Some? && p.credits.value.monthly.Some? then p.credits.value.monthly.value else 0
  {
    match LookupPlan(plans, planId)
    case None => 0
    case Some(p) => if p.credits.Some? then p.credits.value.monthly.GetOr(0) else 0
  }

  /** `PLAN_LEVEL[id] ?? 0`: free 0, pro 1, ultra 2, anything else 0. */
  function PlanLevel(planId: string): (level: int)
    ensures 0 <= level <= 2
    ensures level == 2 <==> planId == "ultra"
    ensures level == 1 <==> planId == "pro"
  {
    if planId == "free" then 0
    else if planId == "pro" then 1
    else if planId == "ultra" then 2
    else 0
  }

  /** `isUpgrade`: the new plan's level is strictly higher. */
  predicate IsUpgrade(oldPlanId: string, newPlanId: string) {
    PlanLevel(newPlanId) > PlanLevel(oldPlanId)
  }

  /** An upgrade is a strict order on plan ids: never to itself, never both ways, transitive. */
  lemma UpgradeIsStrictOrder(a: string, b: string, c: string)
    ensures !IsUpgrade(a, a)
    ensures IsUpgrade(a, b) ==> !IsUpgrade(b, a)
    ensures IsUpgrade(a, b) && IsUpgrade(b, c) ==> IsUpgrade(a, c)
  {
  }

  /** The upgrades between the configured plans; an unknown id ranks with free. */
  lemma UpgradeExamples(unknown: string)
    requires unknown != "free" && unknown != "pro" && unknown != "ultra"
    ensures IsUpgrade("free", "pro") && IsUpgrade("pro", "ultra") && IsUpgrade("free", "ultra")
    ensures !IsUpgrade("ultra", "pro") && !IsUpgrade("pro", "free") && !IsUpgrade("pro", "pro")
    ensures IsUpgrade(unknown, "pro") && !IsUpgrade("free", unknown) && !IsUpgrade(unknown, "free")
  {
  }

  /** `calculateUpgradeCreditsDiff`: 0 unless an upgrade, else the increase in monthly quota, never negative. */
  function CalculateUpgradeCreditsDiff(plans: Plans, oldPlanId: string, newPlanId: string): (r: int)
    ensures r >= 0
    ensures !IsUpgrade(oldPlanId, newPlanId) ==> r == 0
    ensures IsUpgrade(oldPlanId, newPlanId) ==>
              r == Max(0, GetPlanMonthlyCredits(plans, newPlanId) - GetPlanMonthlyCredits(plans, oldPlanId))
    ensures r > 0 ==> GetPlanMonthlyCredits(plans, newPlanId) > GetPlanMonthlyCredits(plans, oldPlanId)
  {
    if !IsUpgrade(oldPlanId, newPlanId) then 0
    else Max(0, GetPlanMonthlyCredits(plans, newPlanId) - GetPlanMonthlyCredits(plans, oldPlanId))
  }

  /** The configured quotas: free has no monthly quota, pro 3000, ultra 8000, an unknown plan 0. */
  lemma ConfiguredMonthlyCredits(env: PriceIds, unknown: string)
    requires unknown != "free" && unknown != "pro" && unknown != "ultra"
    ensures GetPlanMonthlyCredits(ConfiguredPlans(env), "free") == 0
    ensures GetPlanMonthlyCredits(ConfiguredPlans(env), "pro") == 3000
    ensures GetPlanMonthlyCredits(ConfiguredPlans(env), "ultra") == 8000
    ensures GetPlanMonthlyCredits(ConfiguredPlans(env), unknown) == 0
  {
    var plans := ConfiguredPlans(env);
    assert LookupPlan(plans, "free") == Some(plans[0].1);
    assert LookupPlan(plans, "pro") == Some(plans[1].1);
    assert LookupPlan(plans, "ultra") == Some(plans[2].1);
    assert LookupPlan(plans, unknown).None?;
  }

  /** The upgrade differences between the configured plans. */
  lemma ConfiguredUpgradeDiffs(env: PriceIds)
    ensures CalculateUpgradeCreditsDiff(ConfiguredPlans(env), "free", "pro") == 3000
    ensures CalculateUpgradeCreditsDiff(ConfiguredPlans(env), "pro", "ultra") == 5000
    ensures CalculateUpgradeCreditsDiff(ConfiguredPlans(env), "free", "ultra") == 8000
    ensures CalculateUpgradeCreditsDiff(ConfiguredPlans(env), "ultra", "pro") == 0
    ensures CalculateUpgradeCreditsDiff(ConfiguredPlans(env), "pro", "pro") == 0
  {
    ConfiguredMonthlyCredits(env, "enterprise");
  }

  /** With distinct price ids each configured price id maps to its plan, and the free plan sells nothing. */
  lemma ConfiguredPlanIds(env: PriceIds, other: string)
    requires env.proMonthly != env.ultraMonthly && env.proMonthly != env.ultraYearly
    requires env.proYearly != env.ultraMonthly && env.proYearly != env.ultraYearly
    requires other != env.proMonthly && other != env.proYearly
    requires other != env.ultraMonthly && other != env.ultraYearly
    ensures GetPlanIdByProductId(ConfiguredPlans(env), env.proMonthly) == Some("pro")
    ensures GetPlanIdByProductId(ConfiguredPlans(env), env.proYearly) == Some("pro")
    ensures GetPlanIdByProductId(ConfiguredPlans(env), env.ultraMonthly) == Some("ultra")
    ensures GetPlanIdByProductId(ConfiguredPlans(env), env.ultraYearly) == Some("ultra")
    ensures GetPlanIdByProductId(ConfiguredPlans(env), other) == None
  {
    var plans := ConfiguredPlans(env);
    TwoPricesSell(plans[1].1);
    TwoPricesSell(plans[2].1);
    ThreePlanLookup(plans, env.proMonthly);
    ThreePlanLookup(plans, env.proYearly);
    ThreePlanLookup(plans, env.ultraMonthly);
    ThreePlanLookup(plans, env.ultraYearly);
    ThreePlanLookup(plans, other);
  }

  /** Over three plans, the lookup tries them in order. */
  lemma ThreePlanLookup(plans: Plans, productId: string)
    requires |plans| == 3
    ensures GetPlanIdByProductId(plans, productId)
         == if Sells(plans[0].1, productId) then Some(plans[0].0)
            else if Sells(plans[1].1, productId) then Some(plans[1].0)
            else if Sells(plans[2].1, productId) then Some(plans[2].0)
            else None
  {
    if Sells(plans[0].1, productId) {
      FirstSellerNamesPlan(plans, productId, 0);
    } else if Sells(plans[1].1, productId) {
      FirstSellerNamesPlan(plans, productId, 1);
    } else if Sells(plans[2].1, productId) {
      forall j | 0 <= j < 2 ensures !Sells(plans[j].1, productId) {
        assert j == 0 || j == 1;
      }
      FirstSellerNamesPlan(plans, productId, 2);
    } else {
      NoSellerNoPlan(plans, productId);
    }
  }

  lemma NoSellerNoPlan(plans: Plans, productId: string)
    requires |plans| == 3
    requires !Sells(plans[0].1, productId) && !Sells(plans[1].1, productId) && !Sells(plans[2].1, productId)
    ensures GetPlanIdByProductId(plans, productId) == None
  {
    forall j | 0 <= j < |plans| ensures !Sells(plans[j].1, productId) {
      assert j == 0 || j == 1 || j == 2;
    }
  }

  /** A plan with two prices sells exactly their two product ids. */
  lemma TwoPricesSell(p: Plan)
    requires p.prices.Some? && |p.prices.value| == 2
    ensures forall id :: Sells(p, id) <==> id == p.prices.value[0].productId || id == p.prices.value[1].productId
  {
    forall id | id == p.prices.value[0].productId || id == p.prices.value[1].productId
      ensures Sells(p, id)
    {
      if id == p.prices.value[0].productId {
        assert p.prices.value[0].productId == id;
      } else {
        assert p.prices.value[1].productId == id;
      }
    }
  }

  /** The plan found for a product id is the first one selling it. */
  lemma FirstSellerNamesPlan(plans: Plans, productId: string, k: int)
    requires 0 <= k < |plans| && Sells(plans[k].1, productId)
    requires forall j :: 0 <= j < k ==> !Sells(plans[j].1, productId)
    ensures GetPlanIdByProductId(plans, productId) == Some(plans[k].0)
  {
    var r := GetPlanIdByProductId(plans, productId);
    assert r.Some?;
    var k' :| 0 <= k' < |plans| && r.value == plans[k'].0 && Sells(plans[k'].1, productId)
               && forall j :: 0 <= j < k' ==> !Sells(plans[j].1, productId);
    assert k' == k;
  }

  // ---------------------------------------------------------------------
  // Purchases.

  datatype PurchaseType = SubscriptionPurchase | OneTimePurchase

  /** The purchase fields the helper reads. */
  datatype Purchase = Purchase(id: string, purchaseType: PurchaseType, productId: string, status: Option<string>)

  /** The active plan record; `id` is absent when no plan sells the purchased product. */
  datatype ActivePlan = ActivePlan(id: Option<string>, price: Option<Price>, status: Option<string>, purchaseId: Option<string>)

  /** `purchases.find(p => p.type === t)`, as a position. */
  function FindPurchase(purchases: seq<Purchase>, t: PurchaseType): (r: Option<nat>)
    ensures r.Some? ==> r.value < |purchases| && purchases[r.value].purchaseType == t
                        && forall j :: 0 <= j < r.value ==> purchases[j].purchaseType != t
    ensures r.None? ==> forall j :: 0 <= j < |purchases| ==> purchases[j].purchaseType != t
  {
    if purchases == [] then None
    else if purchases[0].purchaseType == t then Some(0)
    else match FindPurchase(purchases[1..], t)
      case Some(k) => Some(k + 1)
      case None => None
  }

  /** The first plan flagged `isFree`, as a position. */
  function FindFreePlan(plans: Plans): (r: Option<nat>)
    ensures r.Some? ==> r.value < |plans| && plans[r.value].1.isFree
                        && forall j :: 0 <= j < r.value ==> !plans[j].1.isFree
    ensures r.None? ==> forall j :: 0 <= j < |plans| ==> !plans[j].1.isFree
  {
    if plans == [] then None
    else if plans[0].1.isFree then Some(0)
    else match FindFreePlan(plans[1..])
      case Some(k) => Some(k + 1)
      case None => None
  }

  /** The plan a purchase of `productId` activates, with the matching price. */
  function PlanForProduct(plans: Plans, productId: string, status: Option<string>, purchaseId: string): ActivePlan {
    match FindPlanSelling(plans, productId)
    case Some(k) => ActivePlan(Some(plans[k].0), FindPrice(plans[k].1.prices.value, productId), status, Some(purchaseId))
    case None => ActivePlan(None, None, status, Some(purchaseId))
  }

  /**
   * `getActivePlanFromPurchases`: the first subscription purchase wins, then
   * the first one-time purchase (reported "active"), then the free plan.
   */
  function GetActivePlanFromPurchases(plans: Plans, purchases: Option<seq<Purchase>>): (r: Option<ActivePlan>)
    ensures var ps := purchases.GetOr([]);
      && (FindPurchase(ps, SubscriptionPurchase).Some? ==>
            var s := ps[FindPurchase(ps, SubscriptionPurchase).value];
            && r.Some? && r.value.purchaseId == Some(s.id) && r.value.status == s.status
            && r.value.id == GetPlanIdByProductId(plans, s.productId)
            && r.value.price == (match FindPlanSelling(plans, s.productId)
                                 case Some(k) => FindPrice(plans[k].1.prices.value, s.productId)
                                 case None => None)
            && (r.value.price.Some? <==> r.value.id.Some?)
            && (r.value.price.Some? ==> r.value.price.value.productId == s.productId))
      && (FindPurchase(ps, SubscriptionPurchase).None? && FindPurchase(ps, OneTimePurchase).Some? ==>
            var p := ps[FindPurchase(ps, OneTimePurchase).value];
            && r.Some? && r.value.purchaseId == Some(p.id) && r.value.status == Some("active")
            && r.value.id == GetPlanIdByProductId(plans, p.productId)
            && r.value.price == (match FindPlanSelling(plans, p.productId)
                                 case Some(k) => FindPrice(plans[k].1.prices.value, p.productId)
                                 case None => None)
            && (r.value.price.Some? <==> r.value.id.Some?)
            && (r.value.price.Some? ==> r.value.price.value.productId == p.productId))
      && (FindPurchase(ps, SubscriptionPurchase).None? && FindPurchase(ps, OneTimePurchase).None? ==>
            && (r.None? <==> FindFreePlan(plans).None?)
            && (r.Some? ==> r.value == ActivePlan(Some(plans[FindFreePlan(plans).value].0), None, Some("active"), None)))
  {
    var ps := purchases.GetOr([]);
    match FindPurchase(ps, SubscriptionPurchase)
    case Some(i) => Some(PlanForProduct(plans, ps[i].productId, ps[i].status, ps[i].id))
    case None =>
      match FindPurchase(ps, OneTimePurchase)
      case Some(i) => Some(PlanForProduct(plans, ps[i].productId, Some("active"), ps[i].id))
      case None =>
        match FindFreePlan(plans)
        case Some(k) => Some(ActivePlan(Some(plans[k].0), None, Some("active"), None))
        case None => None
  }

  /** Without purchases the configured plans make the free plan active. */
  lemma NoPurchasesMeansFree(env: PriceIds)
    ensures GetActivePlanFromPurchases(ConfiguredPlans(env), None) == Some(ActivePlan(Some("free"), None, Some("active"), None))
    ensures GetActivePlanFromPurchases(ConfiguredPlans(env), Some([])) == Some(ActivePlan(Some("free"), None, Some("active"), None))
  {
    assert FindFreePlan(ConfiguredPlans(env)) == Some(0);
  }

  /** A subscription purchase anywhere in the list wins over an earlier one-time purchase. */
  lemma SubscriptionWinsOverOneTime(plans: Plans, oneTime: Purchase, sub: Purchase)
    requires oneTime.purchaseType == OneTimePurchase && sub.purchaseType == SubscriptionPurchase
    ensures GetActivePlanFromPurchases(plans, Some([oneTime, sub])).Some?
    ensures GetActivePlanFromPurchases(plans, Some([oneTime, sub])).value.purchaseId == Some(sub.id)
    ensures GetActivePlanFromPurchases(plans, Some([oneTime, sub])).value.status == sub.status
  {
    assert FindPurchase([oneTime, sub], SubscriptionPurchase) == Some(1);
  }

  /** The argument of `hasSubscription`: omitted, one plan id, or a list of plan ids. */
  datatype PlanIdsArg = NoPlanIds | OnePlanId(planId: string) | ManyPlanIds(planIds: seq<string>)

  /** `createPurchasesHelper`: the active plan of a purchase list, and the two questions asked about it. */
  datatype PurchasesHelper = PurchasesHelper(plans: Plans, purchases: seq<Purchase>, activePlan: Option<ActivePlan>) {

    /**
     * `hasSubscription`: false without an active plan; list membership for a
     * list, `===` otherwise, so an omitted argument matches an active plan
     * whose id is undefined.
     */
    function HasSubscription(arg: PlanIdsArg): (b: bool)
      ensures activePlan.None? ==> !b
      ensures activePlan.Some? && arg.ManyPlanIds? ==>
                (b <==> activePlan.value.id.Some? && activePlan.value.id.value in arg.planIds)
      ensures activePlan.Some? && arg.OnePlanId? ==> (b <==> activePlan.value.id == Some(arg.planId))
      ensures activePlan.Some? && arg.NoPlanIds? ==> (b <==> activePlan.value.id.None?)
    {
      match activePlan
      case None => false
      case Some(p) =>
        match arg
        case ManyPlanIds(ids) => p.id.Some? && p.id.value in ids
        case OnePlanId(id) => p.id == Some(id)
        case NoPlanIds => p.id == None
    }

    /** `hasPurchase`: some purchase's product is sold by the plan with this id. */
    function HasPurchase(planId: string): (b: bool)
      ensures b <==> LookupPlan(plans, planId).Some? &&
                     exists k :: 0 <= k < |purchases| && Sells(LookupPlan(plans, planId).value, purchases[k].productId)
    {
      match LookupPlan(plans, planId)
      case None => false
      case Some(p) => exists k :: 0 <= k < |purchases| && Sells(p, purchases[k].productId)
    }
  }

  function CreatePurchasesHelper(plans: Plans, purchases: seq<Purchase>): (h: PurchasesHelper)
    ensures h.activePlan == GetActivePlanFromPurchases(plans, Some(purchases))
    ensures h.plans == plans && h.purchases == purchases
  {
    PurchasesHelper(plans, purchases, GetActivePlanFromPurchases(plans, Some(purchases)))
  }

  /** A subscriber of a configured paid plan is reported as subscribed to exactly that plan. */
  lemma SubscribedToOwnPlan(env: PriceIds, sub: Purchase)
    requires sub.purchaseType == SubscriptionPurchase && sub.productId == env.ultraYearly
    requires env.proMonthly != env.ultraYearly && env.proYearly != env.ultraYearly
    ensures CreatePurchasesHelper(ConfiguredPlans(env), [sub]).HasSubscription(OnePlanId("ultra"))
    ensures !CreatePurchasesHelper(ConfiguredPlans(env), [sub]).HasSubscription(ManyPlanIds(["free", "pro"]))
    ensures CreatePurchasesHelper(ConfiguredPlans(env), [sub]).HasPurchase("ultra")
    ensures !CreatePurchasesHelper(ConfiguredPlans(env), [sub]).HasPurchase("pro")
  {
    var plans := ConfiguredPlans(env);
    assert FindPurchase([sub], SubscriptionPurchase) == Some(0);
    assert plans[2].1.prices.value[1].productId == env.ultraYearly;
    assert !Sells(plans[1].1, env.ultraYearly);
    assert FindPlanSelling(plans, env.ultraYearly) == Some(2);
    assert LookupPlan(plans, "ultra") == Some(plans[2].1);
    assert LookupPlan(plans, "pro") == Some(plans[1].1);
  }
}
