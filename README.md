# Credit ledger of the image-editing app, modelled in Dafny

This project models the credit ledger behind the app's AI image editing. Every
user or organization holds **grants**. A grant has an amount, a remaining
amount, a type (daily free, subscription, promotional or purchased) and maybe an
expiry. Spending a cost draws the remaining amounts down in a fixed order:
soonest expiry first, then type priority (daily free, subscription,
promotional, purchased), then creation time. Each draw is recorded as a
**spend** row.

The model is split into six modules:

- `CreditsHelpers` (credits_helpers.dfy): the ordering policy. It covers the
  comparator, the stable sort, the total and the greedy spend plan, with the
  plan's loop kept as a method.
- `Credits` (credits.dfy): the store as a class `Ledger` with two tables
  (`grants`, `spends`). It has the owner check, the balance and detail
  queries, the insert, the transactional spend, and the three idempotent
  issuers (daily free, subscription cycle, promotional).
- `PaymentsHelper` (payments_helper.dfy): the plan table. It covers the
  product-id lookup, monthly quotas, plan levels, the upgrade difference and
  the active-plan helper.
- `EditImage` (edit_image.dfy): the image-edit handler as a saga. It runs the
  checks, spends the credits and calls the model. If the call fails, it
  refunds each allocation as a new grant.
- `Seo` (seo.dfy): locale paths, hreflang alternates, the page metadata and
  the breadcrumb schema.
- `Common` (common.dfy): `Option`, `Result`, JavaScript truthiness and `??`,
  and JSON metadata values.

Conventions:

- Timestamps are integer milliseconds since the epoch.
- Grant ids are the grants' positions in the store, handed out in creation
  order.
- A `Calendar` value stands for the date arithmetic of JavaScript's `Date`.
  It holds `addMonths` and `formatDateKey`. `ValidCalendar` states the only
  facts the code relies on:
  - a month step moves forward;
  - results are UTC day starts;
  - date keys of different days differ.
- Everything the handler gets from outside is a parameter:
  - the clock (`now`);
  - the API key;
  - the membership check;
  - the request-id header and the two generated UUIDs;
  - the outcome of the model call;
  - the refund call on which the store fails.

The ledger table invariant (`Credits.LedgerInvariant`, held by
`Ledger.Valid()`) requires all of the following:

- ids equal positions;
- amounts are positive;
- remaining amounts are not negative;
- every spend row points at an existing grant of the same owner;
- a grant's amount equals its remaining amount plus what its spend rows took.

Every state-changing method keeps this invariant.

Two JavaScript facts decide edge cases in the locale alternates, and the model
keeps both:

- `TargetLocales` keeps an explicitly empty `availableLocales` list, because
  an empty array is truthy in JavaScript, so `availableLocales || locales`
  does not fall back to the configured locales.
- `GenerateAlternates` adds no `x-default` when the chosen default locale is
  the empty string, because `""` is falsy.

## Model

| member | source | states |
|---|---|---|
| CreditsHelpers.TypePriority | packages/database/prisma/queries/credits-helpers.ts:24-29 | the tie-break priorities lie in 1..4 (daily 4, subscription 3, promotional 2, purchased 1) |
| CreditsHelpers.CompareAntisymmetric | packages/database/prisma/queries/credits-helpers.ts:31-42 | swapping the two grants negates the comparator |
| CreditsHelpers.CompareZeroIffSameRank | packages/database/prisma/queries/credits-helpers.ts:31-42 | the comparator is zero exactly when expiry, type and creation time all agree |
| CreditsHelpers.CompareTransitive | packages/database/prisma/queries/credits-helpers.ts:31-42 | "may be spent before" is transitive, so the comparator is a valid sort order |
| CreditsHelpers.SortGrantsForSpendCorrect | packages/database/prisma/queries/credits-helpers.ts:31-42 | the sort returns a permutation of its input, ordered by the comparator |
| CreditsHelpers.SortedOrderKeys | packages/database/prisma/queries/credits-helpers.ts:31-42 | in the sorted list, expiry never decreases with null last; equal expiries have descending type priority; equal expiry and type have ascending creation time |
| CreditsHelpers.SortIsStable | packages/database/prisma/queries/credits-helpers.ts:31-42 | grants that tie on all keys keep their input order |
| CreditsHelpers.SortKeepsDistinctIds | packages/database/prisma/queries/credits-helpers.ts:31-42 | sorting never duplicates an id |
| CreditsHelpers.TotalAvailableAppend | packages/database/prisma/queries/credits-helpers.ts:44-46 | the total of a concatenation is the sum of the totals |
| CreditsHelpers.SortKeepsTotal | packages/database/prisma/queries/credits-helpers.ts:44-54 | the total of the sorted list equals the total of the input list |
| CreditsHelpers.AllocateCoversNeed | packages/database/prisma/queries/credits-helpers.ts:57-69 | when the grants hold at least the need, the plan's lines add up to exactly the need |
| CreditsHelpers.AllocateShape | packages/database/prisma/queries/credits-helpers.ts:57-69 | line k draws on the k-th sorted grant and never more than it holds; every line but the last empties its grant; a grant with credits left gets a positive line |
| CreditsHelpers.AllocateIsShortest | packages/database/prisma/queries/credits-helpers.ts:57-69 | the grants before the last line hold less than the need, so the plan stops as early as possible |
| CreditsHelpers.AllocateDistinct | packages/database/prisma/queries/credits-helpers.ts:57-69 | plan lines name distinct grants when the grants have distinct ids |
| CreditsHelpers.PlanSpend | packages/database/prisma/queries/credits-helpers.ts:48-71 | a cost that is not a positive integer fails with its message; a total below the cost fails with INSUFFICIENT_CREDITS; otherwise the loop returns the greedy plan over the sorted grants and the total |
| CreditsHelpers.SortFixtureOrder | packages/database/tests/credits.test.ts:27-78 | the test's five grants sort as daily, early subscription, promotional, late subscription, purchased |
| CreditsHelpers.SplitFixturePlan | packages/database/tests/credits.test.ts:80-123 | a cost of 12 over daily 5, promotional 3, subscription 10 and purchased 20 takes 5, 3 and 4 |
| CreditsHelpers.InsufficientFixture | packages/database/tests/credits.test.ts:125-146 | planning a cost of 2 over one purchased grant holding 1 fails with INSUFFICIENT_CREDITS |
| Credits.StartOfDayUTC | packages/database/prisma/queries/credits.ts:26-28 | the start of the day is a multiple of a day, at most t, and less than a day before t |
| Credits.EndOfDayUTC | packages/database/prisma/queries/credits.ts:30-35 | the end of the day is the last millisecond of t's UTC day, and the next millisecond starts a new day |
| Credits.SameUtcDay | packages/database/prisma/queries/credits.ts:26-35 | u lies in [startOfDay(t), endOfDay(t)] if and only if u is on t's UTC day |
| Credits.ResolveOwner | packages/database/prisma/queries/credits.ts:47-59 | it fails with InvalidOwnerError exactly when both or neither of userId and organizationId are truthy; otherwise it picks the truthy one |
| Credits.ResolveOwnerColumns | packages/database/prisma/queries/credits.ts:47-59 | resolving a resolved owner's columns gives back that owner |
| Credits.BalanceNonNegative | packages/database/prisma/queries/credits.ts:61-80 | a balance is never negative |
| Credits.UsableTotalIsBalance | packages/database/prisma/queries/credits.ts:223-233 | the total the spend computes over its loaded grants equals the owner's balance |
| Credits.UsableGrantsFacts | packages/database/prisma/queries/credits.ts:223-231 | the loaded grants have distinct ids, and each is an unexpired grant of the owner with credits left |
| Credits.TypeBalancesSumToBalance | packages/database/prisma/queries/credits.ts:91-152 | the four per-type balances add up to the total balance |
| Credits.NextExpiryIsEarliest | packages/database/prisma/queries/credits.ts:126-150 | nextExpiry is the earliest future expiry among grants with credits left, and null when there is none |
| Credits.FindFirst | packages/database/prisma/queries/credits.ts:306-313 | the lookup returns the first matching row, or none when no row matches |
| Credits.FindFirstAfterAppend | packages/database/prisma/queries/credits.ts:306-328 | after a miss, a created grant that matches is found by the same lookup |
| Credits.SpendPlanFacts | packages/database/prisma/queries/credits.ts:223-233 | the spend plan takes exactly the cost; each line names a distinct, usable grant of the owner and takes a positive amount within its remaining amount |
| Credits.SpendAllocationsFacts | packages/database/prisma/queries/credits.ts:234-269 | there is one allocation per plan line, in order, each carrying the loaded grant's id, type and expiry; the allocations add up to the cost |
| Credits.SpendLowersBalanceByCost | packages/database/prisma/queries/credits.ts:237-244 | applying the plan lowers the owner's balance by exactly the cost and leaves every other owner's balance unchanged |
| Credits.AppendGrantKeepsInvariant | packages/database/prisma/queries/credits.ts:182-194 | inserting a fresh grant with the next id keeps the table invariant |
| Credits.DebitStepKeepsInvariant | packages/database/prisma/queries/credits.ts:237-256 | decrementing a grant and recording the matching spend row keeps the table invariant |
| Credits.CycleStartBounds | packages/database/prisma/queries/credits.ts:355-359 | the cycle start is a whole number of months after the anchor and not before it; it is not after now when the anchor is not; the next month step is after now |
| Credits.CycleStartIsLatest | packages/database/prisma/queries/credits.ts:355-359 | no month boundary that is not after now comes later than the cycle start |
| Credits.CurrentCycleStart | packages/database/prisma/queries/credits.ts:354-359 | the loop computes the latest month step from the anchor's day start that is not after now |
| Credits.Ledger.GetCreditBalance | packages/database/prisma/queries/credits.ts:61-80 | an invalid owner fails; otherwise the result is the sum of the owner's usable remaining amounts |
| Credits.Ledger.GetCreditDetailsBalance | packages/database/prisma/queries/credits.ts:91-152 | an invalid owner fails; otherwise the result gives the per-type balances, their sum as the total, and the earliest future expiry, or null |
| Credits.Ledger.CreateGrant | packages/database/prisma/queries/credits.ts:182-194 | the store gains one fresh grant with the next id, and nothing else changes |
| Credits.Ledger.AddCreditEntry | packages/database/prisma/queries/credits.ts:154-195 | an invalid owner fails, and so does an amount that is not a positive integer; otherwise exactly one full grant is appended |
| Credits.Ledger.SpendCreditsOrThrow | packages/database/prisma/queries/credits.ts:197-273 | an invalid owner, a bad cost or too few credits each fail with no change; otherwise grants are debited by the plan, one spend row per line is appended, and the allocations are returned |
| Credits.WritePlan | packages/database/prisma/queries/credits.ts:237-267 | the write loop debits each planned grant, appends its spend row and collects its allocation when the grant was loaded, keeping the table invariant |
| Credits.Ledger.ApplyPlan | packages/database/prisma/queries/credits.ts:220-269 | the spend's transaction leaves the grants debited by the plan, one new spend row per line after the old ones, and returns the allocations |
| Credits.Ledger.EnsureDailyFreeGrant | packages/database/prisma/queries/credits.ts:282-330 | a non-positive amount returns null; an invalid owner fails; an existing daily grant expiring that UTC day is returned; otherwise a daily grant expiring at the end of that day is created |
| Credits.Ledger.EnsureSubscriptionCycleGrant | packages/database/prisma/queries/credits.ts:332-388 | a non-positive amount returns null; an invalid owner fails; the grant of the current cycle's sourceRef is returned if it exists, otherwise created with expiry at the cycle start plus expiresInMonths |
| Credits.Ledger.EnsurePromotionalGrant | packages/database/prisma/queries/credits.ts:390-434 | a non-positive amount returns null; an invalid owner fails; the owner's grant with that sourceRef is returned if it exists, otherwise a promotional grant is created |
| Credits.DailyGrantTwice | packages/database/prisma/queries/credits.ts:305-329 | issuing the daily grant twice for one owner at any two instants of the same UTC day returns the same result and creates at most one grant |
| Credits.SubscriptionGrantTwice | packages/database/prisma/queries/credits.ts:354-387 | issuing the cycle grant twice at any two instants that fall in the same cycle returns the same result and creates at most one grant |
| Credits.PromotionalGrantTwice | packages/database/prisma/queries/credits.ts:410-433 | issuing a promotion twice with one sourceRef returns the same result and creates at most one grant |
| PaymentsHelper.FindPrice | packages/payments/src/lib/helper.ts:27-29 | it finds a price with the product id exactly when the list holds one, and then it is the first such price |
| PaymentsHelper.GetPlanIdByProductId | packages/payments/src/lib/helper.ts:69-74 | it is null exactly when no plan sells the product; otherwise it is the id of a plan that sells it |
| PaymentsHelper.LookupPlan | packages/payments/src/lib/helper.ts:80-83 | the entry is found exactly when the plan id is a key |
| PaymentsHelper.GetPlanMonthlyCredits | packages/payments/src/lib/helper.ts:79-85 | an unknown plan or a plan without a monthly quota gives 0; otherwise the plan's monthly quota |
| PaymentsHelper.PlanLevel | packages/payments/src/lib/helper.ts:91-95 | ultra is level 2 and pro is level 1; anything else is 0 |
| PaymentsHelper.UpgradeIsStrictOrder | packages/payments/src/lib/helper.ts:100-104 | an upgrade is irreflexive, asymmetric and transitive |
| PaymentsHelper.UpgradeExamples | packages/payments/src/lib/helper.ts:91-104 | free < pro < ultra, and an unknown plan ranks with free |
| PaymentsHelper.CalculateUpgradeCreditsDiff | packages/payments/src/lib/helper.ts:111-121 | the difference is never negative; it is 0 unless the change is an upgrade; otherwise it is the rise in monthly quota, clamped at 0 |
| PaymentsHelper.ConfiguredMonthlyCredits | config/index.ts:126-209 | with the configured plans the quotas are free 0, pro 3000, ultra 8000, and 0 for an unknown plan |
| PaymentsHelper.ConfiguredUpgradeDiffs | config/index.ts:126-209 | the differences are free→pro 3000, pro→ultra 5000, free→ultra 8000, and 0 for a downgrade or no change |
| PaymentsHelper.ThreePlanLookup | packages/payments/src/lib/helper.ts:69-74 | over three plans the lookup tries them in order and returns the first that sells the product, else null |
| PaymentsHelper.ConfiguredPlanIds | config/index.ts:158-207 | with distinct price ids, each of the four price ids maps to its plan, and any other product maps to null |
| PaymentsHelper.GetActivePlanFromPurchases | packages/payments/src/lib/helper.ts:13-64 | the first subscription purchase wins with its status; then the first one-time purchase, reported active; then the free plan, active; a purchase's price is the first price with its product in the first plan that sells it, present exactly when the plan id is |
| PaymentsHelper.NoPurchasesMeansFree | packages/payments/src/lib/helper.ts:13-64 | with no purchases (undefined or empty) the configured free plan is active |
| PaymentsHelper.SubscriptionWinsOverOneTime | packages/payments/src/lib/helper.ts:13-64 | a later subscription purchase overrides an earlier one-time purchase |
| PaymentsHelper.PurchasesHelper.HasSubscription | packages/payments/src/lib/helper.ts:126-133 | with no active plan the answer is false; otherwise it asks whether the active plan id is in the list, equals the one id, or (with no argument) is missing |
| PaymentsHelper.PurchasesHelper.HasPurchase | packages/payments/src/lib/helper.ts:135-143 | some purchase's product is sold by the named plan |
| PaymentsHelper.CreatePurchasesHelper | packages/payments/src/lib/helper.ts:123-146 | the helper's active plan is the active plan of its purchases |
| PaymentsHelper.SubscribedToOwnPlan | packages/payments/src/lib/helper.ts:123-146 | an ultra subscriber reports a subscription to ultra only, and a purchase of ultra only |
| EditImage.ResolveModelId | packages/api/modules/ai/procedures/edit-image.ts:97-100 | a non-empty id the table answers is kept; otherwise the default model is used; the result is always answered |
| EditImage.OnlyDefaultModelIsActive | packages/api/modules/ai/procedures/edit-image.ts:23-34 | the resolved model is active if and only if it is the default model, whose cost is 4 |
| EditImage.ModelResolutionExamples | packages/api/modules/ai/procedures/edit-image.ts:97-111 | missing, empty and unknown ids fall back to the default; the inactive models and the inherited name toString are kept but not active |
| EditImage.TargetOrganization | packages/api/modules/ai/procedures/edit-image.ts:92-95 | the request's organizationId unless it is null or undefined (an empty string is kept), else the session's active organization |
| EditImage.CreditOwnerResolves | packages/api/modules/ai/procedures/edit-image.ts:129-130 | the owner fields never carry both ids; they resolve to the organization when it is truthy, else to the user |
| EditImage.SpendErrorToApi | packages/api/modules/ai/procedures/edit-image.ts:180-205 | INSUFFICIENT_CREDITS/402 if and only if insufficient credits; INVALID_CREDIT_OWNER/400 if and only if invalid owner; otherwise CREDIT_DEDUCTION_FAILED/500 with the error's message or the fallback |
| EditImage.FirstImage | packages/api/modules/ai/procedures/edit-image.ts:228-230 | the data of the first part with non-empty inline data, or none when no part has any |
| EditImage.GenerationErrorToApi | packages/api/modules/ai/procedures/edit-image.ts:232-256 | no image gives NO_IMAGE_RETURNED/500; a thrown ORPCError is passed on; any other throw gives IMAGE_GENERATION_FAILED/500 |
| EditImage.RefundGrantsShape | packages/api/modules/ai/procedures/edit-image.ts:139-153 | refund grant k repays allocation k with its amount, type and expiry, reason image_edit_refund, and the original grant id in its metadata |
| EditImage.RefundsDone | packages/api/modules/ai/procedures/edit-image.ts:138-162 | the loop completes refunds until the first failing store call or the first non-positive amount |
| EditImage.RefundOne | packages/api/modules/ai/procedures/edit-image.ts:140-153 | one refund `addCreditEntry` succeeds exactly when the owner resolves and the amount is positive, and then appends the refund grant for that allocation |
| EditImage.RefundOnFailure | packages/api/modules/ai/procedures/edit-image.ts:135-163 | nothing happens unless the spend committed with allocations; then one refund grant per allocation is appended until the first failure, which is swallowed; spends are untouched |
| EditImage.RefundGrantsBalance | packages/api/modules/ai/procedures/edit-image.ts:139-153 | appending refund grants for unexpired positive allocations raises the owner's balance by their total |
| EditImage.RefundRestoresBalance | packages/api/modules/ai/procedures/edit-image.ts:135-163 | refunding every allocation of a spend, at the same instant, restores the owner's balance from before the spend |
| EditImage.HandleEditImage | packages/api/modules/ai/procedures/edit-image.ts:80-257 | a failed check throws before any credit is touched; a failed spend maps its error and changes nothing; after a committed spend the result is success with the image, or the mapped generation error with the refunds appended |
| Seo.GetLocalePath | apps/web/modules/shared/lib/seo.ts:12-18 | the default locale gets the path itself ("/" for the empty path); any other locale gets "/" + locale + path |
| Seo.LocalePathInverse | apps/web/modules/shared/lib/seo.ts:12-18 | a prefixed path splits back into its locale and the original path |
| Seo.ConfiguredLocalePathsDiffer | apps/web/modules/shared/lib/seo.ts:12-18 | for one path, the configured locales get pairwise different paths |
| Seo.LocaleUrls | apps/web/modules/shared/lib/seo.ts:62-65 | the loop maps exactly the listed locales, each to the base URL plus its locale path |
| Seo.DefaultTarget | apps/web/modules/shared/lib/seo.ts:150-152 | the default locale when listed, else the first target; none exactly when there are no targets, and otherwise always one of the targets |
| Seo.GenerateAlternates | apps/web/modules/shared/lib/seo.ts:133-161 | the canonical URL is the current locale's; every target maps to its URL and nothing else is added except x-default, which is added exactly when the chosen default is truthy |
| Seo.TrimIsCut | apps/web/modules/shared/lib/seo.ts:73 | the result is a substring with only white space cut from each end, and itself neither starts nor ends with white space |
| Seo.JoinSplit | apps/web/modules/shared/lib/seo.ts:73 | joining the pieces of a split with the separator gives back the string |
| Seo.SplitJoin | apps/web/modules/shared/lib/seo.ts:73 | splitting a join of separator-free pieces gives back the pieces |
| Seo.Keywords | apps/web/modules/shared/lib/seo.ts:73 | one keyword per comma-separated piece, each trimmed |
| Seo.KeywordsOfJoin | apps/web/modules/shared/lib/seo.ts:73 | the keywords of comma-joined comma-free pieces are those pieces, trimmed |
| Seo.SplitExample | apps/web/modules/shared/lib/seo.ts:73 | "ai, photo " splits into "ai" and " photo " |
| Seo.ImageUrl | apps/web/modules/shared/lib/seo.ts:57-59 | an image starting with http is used as it is; otherwise the image, or the default one, goes under the base URL |
| Seo.SiteLanguages | apps/web/modules/shared/lib/seo.ts:61-67 | the page's languages map holds exactly en, de, zh and x-default; each locale maps to its URL and x-default to the default locale's |
| Seo.AddArticleFields | apps/web/modules/shared/lib/seo.ts:103-114 | only for an article, publishedTime and modifiedTime are set when truthy and authors when non-empty; every other field is unchanged |
| Seo.GenerateSeoMetadata | apps/web/modules/shared/lib/seo.ts:37-125 | it sets the canonical and og URLs, the four-entry languages map with x-default, keywords only when given, the 1200x630 image, and the twitter card; article fields only for articles with truthy values; robots noindex/nofollow exactly when noIndex |
| Seo.GenerateBreadcrumbSchema | apps/web/modules/shared/lib/seo.ts:328-341 | one list item per breadcrumb, numbered from 1, under the schema.org BreadcrumbList header |
| Seo.BreadcrumbRoundTrip | apps/web/modules/shared/lib/seo.ts:328-341 | the items give back the breadcrumbs, and a list numbered 1..n is the schema of the breadcrumbs it names |

## Left out

- Database access, transactions and their serializable retries, concurrency between requests, and storage errors are not modelled. The one exception is a refund call failing, which the handler catches and which is a parameter.
- The database's `orderBy` on the spend query is not modelled. The plan re-sorts the loaded grants, so order only matters for exact ties. Ties keep store order, which means lowest id first.
- A `findFirst` without `orderBy` is modelled as returning the lowest id.
- The `updatedAt` column and row timestamps other than `createdAt` are not modelled.
- JavaScript `Date` month arithmetic and `toISOString` formatting are not modelled. `addMonths` and `formatDateKey` are the parameters of a `Calendar`, constrained only by `ValidCalendar`.
- Credits.Ledger.EnsureSubscriptionCycleGrant: requires `ValidCalendar`, because the real `Date.setUTCMonth` moves forward and so ends the loop; this is an assumption about the platform, not a demand of the code.
- Credits.CurrentCycleStart: requires `ValidCalendar`, for the same reason.
- Credits.SubscriptionGrantTwice: requires `ValidCalendar`, for the same reason.
- Costs and amounts that are NaN or infinite fall outside the model. The cost of `spendCreditsOrThrow` and the amount of `addCreditEntry` are `real`, so "not a positive integer" covers fractions, zero and negatives only.
- Credits.Ledger.EnsureDailyFreeGrant, Credits.Ledger.EnsureSubscriptionCycleGrant and Credits.Ledger.EnsurePromotionalGrant: their `amount` is an integer. The source takes any number and tests only `amount <= 0`, so a fraction such as 2.5 passes that guard and reaches the lookup or the insert; the model cannot express that input.
- The issuers' default arguments are required parameters in the model: `reason` ("daily_free", "subscription_cycle", "promotional"), `date = new Date()` (the caller passes the clock), `expiresInMonths = 1` and `sourceRefPrefix = "subscription"`.
- Console logging is not modelled.
- The Gemini model call is not modelled. Its outcome is the `Generation` parameter, and the request's prompt and image only feed that call.
- The organization membership check is not modelled. It is a function parameter.
- The API key, request-id header and the UUIDs the handler generates are parameters.
- Environment overrides of the plan credit amounts are not modelled; the defaults are used. The four price ids are the `PriceIds` parameter.
- The order of keys in the `languages` objects that JavaScript prints is not modelled. The model uses maps, which have no order.
- Assigning a key such as `__proto__` in the `languages` object is not modelled. That assignment would change the prototype instead of adding a key.
- A `PLAN_LEVEL` lookup of an inherited name such as `toString` is not modelled. It yields a function, making `isUpgrade` compare NaN; the model gives such ids level 0.
- The organization, software application, FAQ and article schema builders in seo.ts are not modelled, because nothing in the ledger depends on them.
- UI components and API routers are not part of this model.
- EditImage.SpendErrorToApi: covers ledger errors, store errors with a message and non-Error throws. The store's own error messages are not modelled, so such errors only pass on an arbitrary message.
- Credits.Ledger.SpendCreditsOrThrow: returns allocations only for plan lines whose grant was loaded. The model proves that every line's grant was loaded, so the `if (grant)` guard never skips.
