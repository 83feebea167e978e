/**
 * The image-edit request handler: pick the model, check access, charge the
 * credit owner, call the image model, and give the credits back when the
 * model call fails.  The image model, the membership check, the request ids
 * and the clock are parameters.
 */
module EditImage {
  import opened Common
  import opened CreditsHelpers
  import opened Credits

  // ---------------------------------------------------------------------
  // Models.

  /**
   * What `IMAGE_MODELS[key]` yields: one of the configured entries, or a
   * member every object inherits (`toString`, `constructor`, ...), which is
   * truthy but has neither `cost` nor `active`.
   */
  datatype ModelEntry = ModelEntry(cost: int, active: bool) | InheritedMember

  const DefaultModelId: string := "gemini-2.5-flash-image"

  /** The names every object literal answers through its prototype. */
  const PrototypeNames: set<string> := {
    "constructor", "hasOwnProperty", "isPrototypeOf", "propertyIsEnumerable", "toLocaleString",
    "toString", "valueOf", "__proto__", "__defineGetter__", "__defineSetter__",
    "__lookupGetter__", "__lookupSetter__" }

  function LookupModel(key: string): Option<ModelEntry> {
    if key == "gemini-2.5-flash-image" then Some(ModelEntry(4, true))
    else if key == "flux-context" then Some(ModelEntry(24, false))
    else if key == "seedream" then Some(ModelEntry(12, false))
    else if key in PrototypeNames then Some(InheritedMember)
    else None
  }

  /** A requested model id is kept when it is non-empty and the table answers it; otherwise the default is used. */
  function ResolveModelId(modelId: Option<string>): (r: string)
    ensures LookupModel(r).Some?
    ensures Truthy(modelId) && LookupModel(modelId.value).Some? ==> r == modelId.value
    ensures !(Truthy(modelId) && LookupModel(modelId.value).Some?) ==> r == DefaultModelId
  {
    if Truthy(modelId) && LookupModel(modelId.value).Some? then modelId.value else DefaultModelId
  }

  /** `IMAGE_MODELS[resolved] ?? IMAGE_MODELS[DEFAULT_MODEL_ID]`. */
  function ModelConfigFor(resolved: string): ModelEntry {
    match LookupModel(resolved)
    case Some(entry) => entry
    case None => ModelEntry(4, true)
  }

  predicate IsActive(entry: ModelEntry) {
    entry.ModelEntry? && entry.active
  }

  /**
   * Only the default model is available: a request goes ahead exactly when
   * its model id resolves to `gemini-2.5-flash-image`, and then it costs 4.
   */
  lemma OnlyDefaultModelIsActive(modelId: Option<string>)
    ensures IsActive(ModelConfigFor(ResolveModelId(modelId))) <==> ResolveModelId(modelId) == DefaultModelId
    ensures IsActive(ModelConfigFor(ResolveModelId(modelId))) ==> ModelConfigFor(ResolveModelId(modelId)).cost == 4
  {
  }

  lemma ModelResolutionExamples()
    ensures ResolveModelId(None) == DefaultModelId && ResolveModelId(Some("")) == DefaultModelId
    ensures ResolveModelId(Some("dall-e")) == DefaultModelId
    ensures ResolveModelId(Some("seedream")) == "seedream" && !IsActive(ModelConfigFor("seedream"))
    ensures ResolveModelId(Some("flux-context")) == "flux-context" && !IsActive(ModelConfigFor("flux-context"))
    ensures ResolveModelId(Some("toString")) == "toString" && !IsActive(ModelConfigFor("toString"))
  {
  }

  // ---------------------------------------------------------------------
  // Owner.

  datatype EditRequest = EditRequest(
    prompt: string, fileBase64: string, mimeType: string,
    modelId: Option<string>, organizationId: Option<string>)

  datatype Session = Session(userId: string, activeOrganizationId: Option<string>)

  /** `input.organizationId ?? session.activeOrganizationId ?? null`. */
  function TargetOrganization(req: EditRequest, session: Session): (r: Option<string>)
    ensures req.organizationId.Some? ==> r == req.organizationId
    ensures req.organizationId.None? ==> r == session.activeOrganizationId
  {
    Coalesce(req.organizationId, session.activeOrganizationId)
  }

  /** The owner fields passed to the ledger: the organization when it is truthy, else the user. */
  function CreditOwner(target: Option<string>, userId: string): OwnerInput {
    OwnerInput(if Truthy(target) then None else Some(userId), target)
  }

  /**
   * The two owner fields are never both set, and with a signed-in user the
   * ledger resolves them to the organization when one is targeted, else to the user.
   */
  lemma CreditOwnerResolves(target: Option<string>, userId: string)
    requires userId != ""
    ensures !(Truthy(CreditOwner(target, userId).userId) && Truthy(CreditOwner(target, userId).organizationId))
    ensures Truthy(target) ==> ResolveOwner(CreditOwner(target, userId)) == Success(OrganizationOwner(target.value))
    ensures !Truthy(target) ==> ResolveOwner(CreditOwner(target, userId)) == Success(UserOwner(userId))
  {
  }

  // ---------------------------------------------------------------------
  // Responses and errors.

  /** The body of a successful response. */
  datatype ApiResponse = ApiResponse(code: string, message: string, requestId: string, imageBase64: string)

  /** An `ORPCError` built by `buildError`; its data repeats code, message and request id with null data. */
  datatype ApiError = ApiError(code: string, message: string, requestId: string, status: int)

  /** What a failing step throws. */
  datatype Thrown =
    | LedgerError(error: CreditError)
    | Orpc(orpc: ApiError)
    | OtherError(message: string)
    | NotAnError

  function BuildSuccess(requestId: string, imageBase64: string): ApiResponse {
    ApiResponse("SUCCESS", "OK", requestId, imageBase64)
  }

  /** `error instanceof Error ? error.message : fallback`. */
  function ErrorMessage(t: Thrown, fallback: string): string {
    match t
    case LedgerError(e) => e.Message()
    case Orpc(e) => e.message
    case OtherError(m) => m
    case NotAnError => fallback
  }

  /** The catch around the spend. */
  function SpendErrorToApi(t: Thrown, requestId: string): (e: ApiError)
    ensures e.requestId == requestId
    ensures t == LedgerError(InsufficientCreditsError) <==> e.code == "INSUFFICIENT_CREDITS"
    ensures t == LedgerError(InsufficientCreditsError) ==> e == ApiError("INSUFFICIENT_CREDITS", "Insufficient credits", requestId, 402)
    ensures t == LedgerError(InvalidOwnerError) <==> e.code == "INVALID_CREDIT_OWNER"
    ensures t == LedgerError(InvalidOwnerError) ==>
              e == ApiError("INVALID_CREDIT_OWNER", "A valid owner is required for credit operations", requestId, 400)
    ensures t != LedgerError(InsufficientCreditsError) && t != LedgerError(InvalidOwnerError) ==>
              e == ApiError("CREDIT_DEDUCTION_FAILED", ErrorMessage(t, "Credit deduction failed"), requestId, 500)
  {
    if t == LedgerError(InsufficientCreditsError) then
      ApiError("INSUFFICIENT_CREDITS", "Insufficient credits", requestId, 402)
    else if t == LedgerError(InvalidOwnerError) then
      ApiError("INVALID_CREDIT_OWNER", "A valid owner is required for credit operations", requestId, 400)
    else
      ApiError("CREDIT_DEDUCTION_FAILED", ErrorMessage(t, "Credit deduction failed"), requestId, 500)
  }

  // ---------------------------------------------------------------------
  // The image model.

  /** One part of the model's first candidate. */
  datatype Part = Part(inlineData: Option<string>)

  /** What the model call does: return the first candidate's parts (possibly none), or throw. */
  datatype Generation = Returned(parts: Option<seq<Part>>) | Threw(thrown: Thrown)

  /** The data of the first part that carries non-empty inline data. */
  function FirstImage(parts: seq<Part>): (r: Option<string>)
    ensures r.Some? ==> r.value != "" && exists i :: 0 <= i < |parts| && parts[i].inlineData == r
    ensures r.None? ==> forall i :: 0 <= i < |parts| ==> !Truthy(parts[i].inlineData)
    ensures r.Some? ==> exists i :: 0 <= i < |parts| && parts[i].inlineData == r
                          && forall j :: 0 <= j < i ==> !Truthy(parts[j].inlineData)
  {
    if parts == [] then None
    else if Truthy(parts[0].inlineData) then parts[0].inlineData
    else
      var rest := FirstImage(parts[1..]);
      assert forall i :: 1 <= i < |parts| ==> parts[i] == parts[1..][i - 1];
      rest
  }

  function ImageOf(g: Generation): Option<string> {
    match g
    case Returned(Some(parts)) => FirstImage(parts)
    case _ => None
  }

  /** The catch around the model call: an `ORPCError` is rethrown as it is, anything else becomes IMAGE_GENERATION_FAILED. */
  function GenerationErrorToApi(g: Generation, requestId: string): (e: ApiError)
    requires ImageOf(g).None?
    ensures g.Returned? ==> e == ApiError("NO_IMAGE_RETURNED", "No image returned from the model", requestId, 500)
    ensures g.Threw? && g.thrown.Orpc? ==> e == g.thrown.orpc
    ensures g.Threw? && !g.thrown.Orpc? ==>
              e == ApiError("IMAGE_GENERATION_FAILED", ErrorMessage(g.thrown, "Image generation failed"), requestId, 500)
  {
    match g
    case Returned(_) => ApiError("NO_IMAGE_RETURNED", "No image returned from the model", requestId, 500)
    case Threw(Orpc(e)) => e
    case Threw(t) => ApiError("IMAGE_GENERATION_FAILED", ErrorMessage(t, "Image generation failed"), requestId, 500)
  }

  // ---------------------------------------------------------------------
  // Refunds.

  function RefundMetadata(modelId: string, spendRef: string, grantId: GrantId): Metadata {
    map["modelId" := JString(modelId), "originalReason" := JString("image_edit"),
        "spendRef" := JString(spendRef), "originalGrantId" := JNumber(grantId)]
  }

  /** The refund grant for one allocation: same amount, type and expiry, reason `image_edit_refund`. */
  function RefundGrant(id: GrantId, o: Owner, a: SpendAllocation, modelId: string, spendRef: string, now: int): Grant {
    NewGrant(id, o, a.amount, a.creditType, a.expiresAt, None, Some("image_edit_refund"),
             Some(RefundMetadata(modelId, spendRef, a.grantId)), now)
  }

  /** The refund grants for `allocations`, numbered from `start`, in allocation order. */
  function RefundGrants(start: nat, o: Owner, allocations: seq<SpendAllocation>, modelId: string, spendRef: string, now: int): (r: seq<Grant>)
    ensures |r| == |allocations|
    decreases |allocations|
  {
    if allocations == [] then []
    else
      RefundGrants(start, o, allocations[..|allocations| - 1], modelId, spendRef, now)
        + [RefundGrant(start + |allocations| - 1, o, allocations[|allocations| - 1], modelId, spendRef, now)]
  }

  /** Refund grant `k` repays allocation `k`. */
  lemma {:induction false} RefundGrantsShape(start: nat, o: Owner, allocations: seq<SpendAllocation>, modelId: string, spendRef: string, now: int, k: int)
    requires 0 <= k < |allocations|
    ensures RefundGrants(start, o, allocations, modelId, spendRef, now)[k]
         == RefundGrant(start + k, o, allocations[k], modelId, spendRef, now)
    decreases |allocations|
  {
    if k < |allocations| - 1 {
      var front := allocations[..|allocations| - 1];
      assert front[k] == allocations[k];
      RefundGrantsShape(start, o, front, modelId, spendRef, now, k);
    }
  }

  /**
   * How many refunds the loop completes before something throws: the
   * store failing on call `failsAt`, or the ledger rejecting a non-positive amount.
   */
  function RefundsDone(allocations: seq<SpendAllocation>, failsAt: Option<nat>, i: nat): (n: nat)
    requires i <= |allocations|
    ensures i <= n <= |allocations|
    ensures forall j :: i <= j < n ==> failsAt != Some(j) && allocations[j].amount > 0
    ensures n < |allocations| ==> failsAt == Some(n) || allocations[n].amount <= 0
    decreases |allocations| - i
  {
    if i == |allocations| || failsAt == Some(i) || allocations[i].amount <= 0 then i
    else RefundsDone(allocations, failsAt, i + 1)
  }

  /** The grants `refundOnFailure` adds, given the store's size before it and the owner fields it passes. */
  function RefundEntries(
    start: nat, owner: OwnerInput, committed: bool, allocations: seq<SpendAllocation>,
    modelId: string, spendRef: string, failsAt: Option<nat>, now: int): seq<Grant>
  {
    if !committed || allocations == [] || ResolveOwner(owner).Failure? then []
    else RefundGrants(start, ResolveOwner(owner).value, allocations[..RefundsDone(allocations, failsAt, 0)], modelId, spendRef, now)
  }

  /** An allocation amount passes the ledger's amount check exactly when it is positive, and is kept as is. */
  lemma RefundAmountAccepted(n: int)
    ensures IsPositiveInteger(n as real) <==> n > 0
    ensures (n as real).Floor == n
  {
  }

  lemma RefundGrantsNext(start: nat, o: Owner, allocations: seq<SpendAllocation>, i: nat, modelId: string, spendRef: string, now: int)
    requires i < |allocations|
    ensures RefundGrants(start, o, allocations[..i + 1], modelId, spendRef, now)
         == RefundGrants(start, o, allocations[..i], modelId, spendRef, now) + [RefundGrant(start + i, o, allocations[i], modelId, spendRef, now)]
  {
    assert allocations[..i + 1][..i] == allocations[..i];
    RefundGrantsLast(start, o, allocations[..i + 1], modelId, spendRef, now);
  }

  lemma AppendAssociates(a: seq<Grant>, b: seq<Grant>, x: Grant)
    ensures (a + b) + [x] == a + (b + [x])
  {
  }

  /**
   * `refundOnFailure`: nothing unless the spend committed with at least one
   * allocation; then one `addCreditEntry` per allocation, in order, until
   * one throws; the catch logs and swallows the error.
   */
  method RefundOnFailure(
    ledger: Ledger, committed: bool, allocations: seq<SpendAllocation>, owner: OwnerInput,
    modelId: string, spendRef: string, failsAt: Option<nat>, now: int)
    requires ledger.Valid()
    modifies ledger
    ensures ledger.Valid() && ledger.spends == old(ledger.spends)
    ensures ledger.grants == old(ledger.grants)
              + RefundEntries(|old(ledger.grants)|, owner, committed, allocations, modelId, spendRef, failsAt, now)
  {
    if !committed || |allocations| == 0 {
      return;
    }
    ghost var start := |ledger.grants|;
    ghost var grants0 := ledger.grants;
    var i := 0;
    while i < |allocations|
      invariant 0 <= i <= |allocations|
      invariant ledger.Valid() && ledger.spends == old(ledger.spends)
      invariant ledger.grants == grants0 + RefundPrefix(start, owner, allocations, i, modelId, spendRef, now)
      invariant ResolveOwner(owner).Success? ==> RefundsDone(allocations, failsAt, 0) == RefundsDone(allocations, failsAt, i)
    {
      if failsAt == Some(i) {
        break;
      }
      var added := RefundOne(ledger, owner, allocations[i], modelId, spendRef, now);
      if !added {
        break;
      }
      RefundPrefixNext(start, owner, allocations, i, modelId, spendRef, now);
      AppendAssociates(grants0, RefundPrefix(start, owner, allocations, i, modelId, spendRef, now),
                       RefundGrant(start + i, ResolveOwner(owner).value, allocations[i], modelId, spendRef, now));
      i := i + 1;
    }
    if ResolveOwner(owner).Success? {
      assert RefundsDone(allocations, failsAt, 0) == i;
    }
    RefundEntriesArePrefix(start, owner, allocations, i, modelId, spendRef, failsAt, now);
  }

  lemma RefundEntriesArePrefix(
    start: nat, owner: OwnerInput, allocations: seq<SpendAllocation>, i: nat,
    modelId: string, spendRef: string, failsAt: Option<nat>, now: int)
    requires allocations != [] && i <= |allocations|
    requires ResolveOwner(owner).Success? ==> RefundsDone(allocations, failsAt, 0) == i
    ensures RefundEntries(start, owner, true, allocations, modelId, spendRef, failsAt, now)
         == RefundPrefix(start, owner, allocations, i, modelId, spendRef, now)
  {
  }

  /** The refund grants of the first `i` allocations, or none when the owner does not resolve. */
  function RefundPrefix(start: nat, owner: OwnerInput, allocations: seq<SpendAllocation>, i: nat, modelId: string, spendRef: string, now: int): seq<Grant>
    requires i <= |allocations|
  {
    if ResolveOwner(owner).Failure? then []
    else RefundGrants(start, ResolveOwner(owner).value, allocations[..i], modelId, spendRef, now)
  }

  lemma RefundPrefixNext(start: nat, owner: OwnerInput, allocations: seq<SpendAllocation>, i: nat, modelId: string, spendRef: string, now: int)
    requires ResolveOwner(owner).Success? && i < |allocations|
    ensures |RefundPrefix(start, owner, allocations, i, modelId, spendRef, now)| == i
    ensures RefundPrefix(start, owner, allocations, i + 1, modelId, spendRef, now)
         == RefundPrefix(start, owner, allocations, i, modelId, spendRef, now)
            + [RefundGrant(start + i, ResolveOwner(owner).value, allocations[i], modelId, spendRef, now)]
  {
    RefundGrantsNext(start, ResolveOwner(owner).value, allocations, i, modelId, spendRef, now);
  }

  /** One `addCreditEntry` of the refund loop: it succeeds when the owner resolves and the amount is positive. */
  method RefundOne(ledger: Ledger, owner: OwnerInput, a: SpendAllocation, modelId: string, spendRef: string, now: int)
    returns (added: bool)
    requires ledger.Valid()
    modifies ledger
    ensures ledger.Valid() && ledger.spends == old(ledger.spends)
    ensures added <==> ResolveOwner(owner).Success? && a.amount > 0
    ensures added ==>
              ledger.grants == old(ledger.grants) + [RefundGrant(|old(ledger.grants)|, ResolveOwner(owner).value, a, modelId, spendRef, now)]
    ensures !added ==> ledger.grants == old(ledger.grants)
  {
    RefundAmountAccepted(a.amount);
    var r := ledger.AddCreditEntry(owner, a.amount as real, Some(a.creditType), a.expiresAt, None,
                                   Some("image_edit_refund"), Some(RefundMetadata(modelId, spendRef, a.grantId)), now);
    added := r.Success?;
  }

  lemma {:induction false} AllocationTotalAppend(a: seq<SpendAllocation>, x: SpendAllocation)
    ensures AllocationTotal(a + [x]) == AllocationTotal(a) + x.amount
  {
    if a == [] {
      assert a + [x] == [x];
    } else {
      assert (a + [x])[1..] == a[1..] + [x];
      AllocationTotalAppend(a[1..], x);
    }
  }

  /** An allocation that a refund can give back in full: positive, and not expired at `now`. */
  predicate Refundable(a: SpendAllocation, now: int) {
    a.amount > 0 && (a.expiresAt.None? || a.expiresAt.value > now)
  }

  /** A refund grant for a refundable allocation adds its amount to the owner's balance. */
  lemma RefundGrantContribution(id: GrantId, o: Owner, a: SpendAllocation, modelId: string, spendRef: string, now: int)
    requires Refundable(a, now)
    ensures Contribution(RefundGrant(id, o, a, modelId, spendRef, now), o, now) == a.amount
  {
  }

  lemma RefundGrantsLast(start: nat, o: Owner, allocations: seq<SpendAllocation>, modelId: string, spendRef: string, now: int)
    requires allocations != []
    ensures RefundGrants(start, o, allocations, modelId, spendRef, now)
         == RefundGrants(start, o, allocations[..|allocations| - 1], modelId, spendRef, now)
            + [RefundGrant(start + |allocations| - 1, o, allocations[|allocations| - 1], modelId, spendRef, now)]
  {
  }

  lemma AllocationTotalLast(allocations: seq<SpendAllocation>)
    requires allocations != []
    ensures AllocationTotal(allocations)
         == AllocationTotal(allocations[..|allocations| - 1]) + allocations[|allocations| - 1].amount
  {
    var n := |allocations| - 1;
    assert allocations == allocations[..n] + [allocations[n]];
    AllocationTotalAppend(allocations[..n], allocations[n]);
  }

  lemma BalanceAfterAppend(base: seq<Grant>, earlier: seq<Grant>, x: Grant, o: Owner, now: int)
    ensures BalanceOf(base + (earlier + [x]), o, now) == BalanceOf(base + earlier, o, now) + Contribution(x, o, now)
  {
    assert base + (earlier + [x]) == (base + earlier) + [x];
    BalanceAppend(base + earlier, x, o, now);
  }

  lemma RefundableFront(allocations: seq<SpendAllocation>, front: seq<SpendAllocation>, now: int)
    requires allocations != [] && front == allocations[..|allocations| - 1]
    requires forall j :: 0 <= j < |allocations| ==> Refundable(allocations[j], now)
    ensures forall j :: 0 <= j < |front| ==> Refundable(front[j], now)
    ensures Refundable(allocations[|allocations| - 1], now)
  {
  }

  /** Adding the refund grants of refundable allocations raises the owner's balance by their amounts. */
  lemma {:induction false} RefundGrantsBalance(
    base: seq<Grant>, o: Owner, allocations: seq<SpendAllocation>, modelId: string, spendRef: string, now: int)
    requires forall j :: 0 <= j < |allocations| ==> Refundable(allocations[j], now)
    ensures BalanceOf(base + RefundGrants(|base|, o, allocations, modelId, spendRef, now), o, now)
         == BalanceOf(base, o, now) + AllocationTotal(allocations)
    decreases |allocations|
  {
    if allocations == [] {
      assert base + [] == base;
    } else {
      var n := |allocations| - 1;
      var front := allocations[..n];
      RefundableFront(allocations, front, now);
      RefundGrantsBalance(base, o, front, modelId, spendRef, now);
      RefundGrantsLast(|base|, o, allocations, modelId, spendRef, now);
      BalanceAfterAppend(base, RefundGrants(|base|, o, front, modelId, spendRef, now),
                         RefundGrant(|base| + n, o, allocations[n], modelId, spendRef, now), o, now);
      RefundGrantContribution(|base| + n, o, allocations[n], modelId, spendRef, now);
      AllocationTotalLast(allocations);
    }
  }

  /**
   * Refunding every allocation of a covered spend, at the same instant,
   * restores the balance the owner had before the spend.
   */
  lemma RefundRestoresBalance(gs: seq<Grant>, o: Owner, now: int, cost: int, modelId: string, spendRef: string)
    requires IdsAreIndices(gs)
    requires 0 < cost <= BalanceOf(gs, o, now)
    ensures var spent := DebitAll(gs, SpendPlanFor(gs, o, now, cost));
      var allocations := AllocationsOf(UsableGrants(gs, o, now), SpendPlanFor(gs, o, now, cost));
      BalanceOf(spent + RefundGrants(|spent|, o, allocations, modelId, spendRef, now), o, now) == BalanceOf(gs, o, now)
  {
    var plan := SpendPlanFor(gs, o, now, cost);
    var spent := DebitAll(gs, plan);
    var allocations := AllocationsOf(UsableGrants(gs, o, now), plan);
    SpendAllocationsRefundable(gs, o, now, cost);
    SpendAllocationsFacts(gs, o, now, cost);
    SpendLowersBalanceByCost(gs, o, now, cost, if o.UserOwner? then OrganizationOwner("") else UserOwner(""));
    RefundGrantsBalance(spent, o, allocations, modelId, spendRef, now);
  }

  /** Every allocation of a covered spend repays an unexpired grant with a positive amount. */
  lemma SpendAllocationsRefundable(gs: seq<Grant>, o: Owner, now: int, cost: int)
    requires IdsAreIndices(gs)
    requires 0 < cost <= BalanceOf(gs, o, now)
    ensures var allocations := AllocationsOf(UsableGrants(gs, o, now), SpendPlanFor(gs, o, now, cost));
      forall j :: 0 <= j < |allocations| ==> Refundable(allocations[j], now)
  {
    var plan := SpendPlanFor(gs, o, now, cost);
    var allocations := AllocationsOf(UsableGrants(gs, o, now), plan);
    SpendPlanFacts(gs, o, now, cost);
    SpendAllocationsFacts(gs, o, now, cost);
    forall j | 0 <= j < |allocations| ensures Refundable(allocations[j], now) {
      assert Usable(gs[plan[j].grantId], now);
    }
  }

  // ---------------------------------------------------------------------
  // The handler.

  /** The metadata of the spend rows: model, cost and the spend's correlation id. */
  function SpendMetadata(modelId: string, cost: int, spendRef: string): Metadata {
    map["modelId" := JString(modelId), "cost" := JNumber(cost), "spendRef" := JString(spendRef)]
  }

  /** The checks before any credit is touched; `None` when the request may go on. */
  function Precheck(
    req: EditRequest, session: Session, apiKey: Option<string>, isMember: (string, string) -> bool,
    requestId: string): Option<ApiError>
  {
    var target := TargetOrganization(req, session);
    if !Truthy(apiKey) then Some(ApiError("GEMINI_API_KEY_MISSING", "GEMINI_API_KEY is not configured", requestId, 500))
    else if !IsActive(ModelConfigFor(ResolveModelId(req.modelId))) then
      Some(ApiError("MODEL_UNAVAILABLE", "Selected model is not available", requestId, 400))
    else if Truthy(target) && !isMember(target.value, session.userId) then
      Some(ApiError("FORBIDDEN_ORGANIZATION_ACCESS", "You are not a member of this organization", requestId, 403))
    else None
  }

  /**
   * The handler.  `headerRequestId` is the `x-request-id` header,
   * `generatedRequestId` and `spendRef` the two fresh UUIDs, `generation` what
   * the model call does, and `refundFailsAt` the refund call on which the
   * store throws, if any.
   */
  method HandleEditImage(
    ledger: Ledger, req: EditRequest, session: Session, apiKey: Option<string>,
    isMember: (string, string) -> bool, headerRequestId: Option<string>, generatedRequestId: string,
    spendRef: string, generation: Generation, refundFailsAt: Option<nat>, now: int)
    returns (r: Result<ApiResponse, ApiError>)
    requires ledger.Valid()
    modifies ledger
    ensures ledger.Valid()
    ensures
      var requestId := headerRequestId.GetOr(generatedRequestId);
      var modelId := ResolveModelId(req.modelId);
      var owner := CreditOwner(TargetOrganization(req, session), session.userId);
      var g0 := old(ledger.grants);
      var s0 := old(ledger.spends);
      if Precheck(req, session, apiKey, isMember, requestId).Some? then
        && r == Failure(Precheck(req, session, apiKey, isMember, requestId).value)
        && ledger.grants == g0 && ledger.spends == s0
      else
      var cost := ModelConfigFor(modelId).cost;
      if ResolveOwner(owner).Failure? then
        && r == Failure(SpendErrorToApi(LedgerError(InvalidOwnerError), requestId))
        && ledger.grants == g0 && ledger.spends == s0
      else
        var o := ResolveOwner(owner).value;
        var plan := SpendPlanFor(g0, o, now, cost);
        var allocations := AllocationsOf(UsableGrants(g0, o, now), plan);
        var spent := DebitAll(g0, plan);
        if BalanceOf(g0, o, now) < cost then
          && r == Failure(SpendErrorToApi(LedgerError(InsufficientCreditsError), requestId))
          && ledger.grants == g0 && ledger.spends == s0
        else
          && ledger.spends == s0 + SpendRows(plan, o, Some("image_edit"), Some(spendRef), Some(SpendMetadata(modelId, cost, spendRef)), now)
          && (ImageOf(generation).Some? ==>
                r == Success(BuildSuccess(requestId, ImageOf(generation).value)) && ledger.grants == spent)
          && (ImageOf(generation).None? ==>
                && r == Failure(GenerationErrorToApi(generation, requestId))
                && ledger.grants == spent + RefundEntries(|spent|, owner, true, allocations, modelId, spendRef, refundFailsAt, now))
  {
    var requestId := headerRequestId.GetOr(generatedRequestId);
    var pre := Precheck(req, session, apiKey, isMember, requestId);
    if pre.Some? {
      return Failure(pre.value);
    }
    var target := TargetOrganization(req, session);
    var modelId := ResolveModelId(req.modelId);
    var config := ModelConfigFor(modelId);
    var owner := CreditOwner(target, session.userId);

    var spendCommitted := false;
    var spendAllocations: seq<SpendAllocation> := [];
    var spent := ledger.SpendCreditsOrThrow(owner, config.cost as real, Some("image_edit"),
                                            Some(SpendMetadata(modelId, config.cost, spendRef)), Some(spendRef), now);
    if spent.Failure? {
      return Failure(SpendErrorToApi(LedgerError(spent.error), requestId));
    }
    spendAllocations := spent.value.allocations;
    spendCommitted := true;

    var image := ImageOf(generation);
    if image.Some? {
      return Success(BuildSuccess(requestId, image.value));
    }
    RefundOnFailure(ledger, spendCommitted, spendAllocations, owner, modelId, spendRef, refundFailsAt, now);
    return Failure(GenerationErrorToApi(generation, requestId));
  }
}
