# STATELESS subscription engine and prompt classifier, in Dafny

This project models two parts of the STATELESS MCP server and proves properties about them.

The first part is its subscription and entitlement engine:
- **Tier catalog.** There are three tiers (free, pro, pro-BYOK), each with a price, monthly credits, a project limit, monthly chat completions and feature flags.
- **Credit packages.** Four top-up packages are on sale.
- **Schemas.** These cover the tier enum, the `UserSubscription` record with its defaults, and the enums of the management and project tools.
- **Usage tracker.** It holds the predicates and the in-place mutators on one subscription record.
- **Subscription manager.** It is a map from user id to record. It creates a record lazily on the first lookup and delegates to the tracker.
- **Stateless validator.** It rebuilds a user snapshot from request headers, decides whether an action may proceed, and computes the usage delta with the completions-first rule.

The second part is the prompt classifier (`analyzePrompt`). It maps a prompt to a content type, a style, a UI library and a confidence.

Modules follow the source files:

| module | file | source |
|---|---|---|
| `Wrappers` | `wrappers.dfy` | none (Option/Result) |
| `CreditPackages` | `credit_packages.dfy` | `credit-packages/*` |
| `Schemas` | `schemas.dfy` | `schemas.ts` |
| `Tiers` | `tiers.dfy` | `tiers/*` |
| `StatelessValidator` | `stateless_validator.dfy` | `stateless-validator.ts` |
| `Usage` | `usage.dfy` | `usage.ts` |
| `Manager` | `manager.dfy` | `manager.ts` |
| `AnalyzePrompt` | `analyze_prompt.dfy` | `analyzePrompt.ts` |

Pure code is written as functions and lemmas. The catalog, the schemas, the validator, the tracker's predicates and summaries, and the state-change rules are all pure.

Code that changes objects in place is written imperatively:
- A `UserSubscription` is a class. Its fields are the record's properties, and `Value()` gives its current value as a `SubscriptionState` datatype.
- Each tracker mutator is a method with `modifies user`. Its contract says when it succeeds, and says that the new value is a named effect function of the old one (`Debited`, `CompletionCounted`, `ProjectCounted`, `MonthReset`, `Purchased`). Lemmas and `ensures` on those functions state the properties.
- The manager is a class `SubscriptionManager`. Its field `users` is a map from id to object, and its field `order` records the Map's insertion order.
- `Valid()` requires three things: every object sits under its own id, no record has a negative balance or counter, and `order` lists each stored id once.
- `Records()` is the map of stored values. Every manager method states its new `Records()` in terms of the old one, via `Lookup`/`AfterLookup` and the tracker's effect functions. It also says that lookups return the stored object itself (`KeptAfterLookup`).
- The classifier's `for … break` loop is the method `AnalyzePrompt.Analyze`. It is proved equal to the specification function `Classify` on the lower-cased prompt.

Modelling choices:
- Credits are `real`, because the source uses JS numbers and `parseFloat`. Counters are `int`, because `parseInt` can give a negative value.
- `-1` is the source's "unlimited" sentinel (`Tiers.Unlimited`).
- The stateless `completionsRemaining` is `Infinity | Count(n)`, since the source writes `Infinity` there.
- Dates are milliseconds, passed as a `now` parameter.
- Classifier confidence is in integer hundredths (0.7 is 70).

Points where the code is read in a particular way:
- **Enum members that do not exist.** `SubscriptionTier.FREE` (manager.ts:14-15) and `SubscriptionTier.PRO_BYOK` (manager.ts:111, tiers/byok.ts:4) are not members of the enum. They are read as `MCP_FREE` and `MCP_PRO_BYOK`. Taken literally, `SubscriptionTier.FREE` is `undefined`, so line 15 would throw for every id not yet seen, and the BYOK key check at line 111 would never fire. These are type errors the TypeScript compiler rejects, not behaviour of a built program, so they get no Findings row; stateless-validator.ts:62 does, because it compiles (through a cast) and fails at run time.
- **`canUseDualAI`.** usage.ts:25 compares the tier with `'pro'` and `'pro_byok'`, which no tier equals. `Usage.CanUseDualAI` keeps that comparison literally, and its contract proves that the answer is the `hasDualAI` flag alone.
- **Credits for create-project.** `validateAction` uses 1 credit for create-project (stateless-validator.ts:89). `calculateUsage` uses 0 (stateless-validator.ts:151). The model follows the code in both places. `StatelessValidator.CreateProjectCreditMismatch` states the consequence: a user with no credit and no completion cannot create a project, even though creating one costs nothing.
- **Negative usage counts.** `parseInt` accepts a negative `x-user-completions-used` header, and `Math.max(0, monthly - used)` (stateless-validator.ts:65) then gives a free-tier user completions: -3 used leaves 3 (`StatelessValidator.NegativeUsageGivesFreeCompletions`). The model keeps this. The lemmas about free-tier charging and about the completion tests assume a non-negative count.
- **The tier header.** Its vocabulary is `'free' | 'pro' | 'byok'` (stateless-validator.ts:31), but the config table is keyed by `mcp_*` strings. The header string is used as a tier at stateless-validator.ts:62, 69, 92 and 188: the lookups at 62 and 92 miss, and the BYOK test at 188 never holds, so as written no BYOK keys are returned. The model reads each header value as the tier it names. See Findings.

## Model

| member | source | states |
|---|---|---|
| CreditPackages.SmallCreditPackage | lib/subscriptions/credit-packages/small.ts:1-7 | the constant's fields are key small, price $3, 50 completions, 3 credits; its contract states the key and that credits equal the price |
| CreditPackages.MediumCreditPackage | lib/subscriptions/credit-packages/medium.ts:1-7 | the constant's fields are key medium, price $5, 150 completions, 5 credits; its contract states the key and that credits equal the price |
| CreditPackages.LargeCreditPackage | lib/subscriptions/credit-packages/large.ts:1-7 | the constant's fields are key large, price $7, 300 completions, 7 credits; its contract states the key and that credits equal the price |
| CreditPackages.XLargeCreditPackage | lib/subscriptions/credit-packages/xlarge.ts:1-7 | the constant's fields are key xlarge, price $10, 500 completions, 10 credits; its contract states the key and that credits equal the price |
| CreditPackages.PackageOf | lib/subscriptions/credit-packages/index.ts:7-12 | every package key is in `CREDIT_PACKAGES`; the entry carries that key; credits equal the price and are positive; completions are positive |
| CreditPackages.TableShape | lib/subscriptions/credit-packages/index.ts:7-12 | the table's keys are exactly small, medium, large, xlarge; a string is a key iff it names a package; each entry's key is its own slot |
| CreditPackages.CreditsIncreaseWithSize | lib/subscriptions/credit-packages/index.ts:7-12 | credits and completions strictly grow from small to xlarge |
| Schemas.TierFromValue | lib/subscriptions/schemas.ts:4-8 | the tier enum accepts exactly the three values; parsing a value gives the tier with that value (round trip) |
| Schemas.UserSubscription.constructor | lib/subscriptions/manager.ts:12-20 | an object literal has exactly the given property values |
| Schemas.ParseSubscription | lib/subscriptions/schemas.ts:11-25 | absent counters become 0 and an absent `hasDualAI` becomes false; present values are kept; optional dates and keys are copied |
| Schemas.ParseSubscriptionComplete | lib/subscriptions/schemas.ts:11-25 | parsing a record that lists every property returns it unchanged |
| Schemas.SubscriptionActionFromValue | lib/subscriptions/schemas.ts:31 | accepts exactly get-status, purchase-credits, upgrade-tier, setup-byok; round trip |
| Schemas.PackageKeyFromValue | lib/subscriptions/schemas.ts:34 | accepts a string iff it is a key of the credit-package table; round trip |
| Schemas.ProjectActionFromValue | lib/subscriptions/schemas.ts:43 | accepts exactly create, get-usage, list; round trip |
| Schemas.ProjectTypeFromValue | lib/subscriptions/schemas.ts:46 | accepts exactly component, page, app, api; round trip |
| Tiers.FreeTierConfig | lib/subscriptions/tiers/free.ts:3-10 | the constant's fields are price 0, 5 monthly credits, 200 projects, 0 completions, no dual AI, no own keys; its contract states the free tier, price 0, a finite positive project limit, no completions, positive credits, no dual AI and no own keys |
| Tiers.ProTierConfig | lib/subscriptions/tiers/pro.ts:3-10 | the constant's fields are price 20, 20 credits, unlimited projects, 300 completions, dual AI, no own keys; its contract states the pro tier, a positive price, unlimited projects, some completions, dual AI and no own keys |
| Tiers.ProByokTierConfig | lib/subscriptions/tiers/byok.ts:3-10 | the constant's fields are price 10, 20 credits, unlimited projects, 300 completions, dual AI, own keys; its contract states half the pro price, the pro credits and completions, unlimited projects, dual AI and required own keys |
| Tiers.ConfigOf | lib/subscriptions/tiers/index.ts:7-11 | every tier has a config, keyed by its enum value and naming that tier; only BYOK requires own keys; all but free have dual AI; credits positive; limits are -1 or non-negative |
| Tiers.ConfigsTotal | lib/subscriptions/tiers/index.ts:7-11 | the table's keys are exactly the three enum values |
| StatelessValidator.TierFromHeader | lib/subscriptions/stateless-validator.ts:31 | the tier header accepts exactly free, pro, byok |
| StatelessValidator.CompletionsRemaining | lib/subscriptions/stateless-validator.ts:62-65 | unlimited iff the allotment is -1; otherwise positive iff used < monthly, and then equal to monthly - used |
| StatelessValidator.InvalidFields | lib/subscriptions/stateless-validator.ts:29-39 | lists a required header iff the schema rejects it |
| StatelessValidator.ParseUserContext | lib/subscriptions/stateless-validator.ts:49-80 | succeeds iff every required header is valid; a failure lists exactly the bad headers; a success copies each value, grants dual access iff the header is exactly "true", and derives `completionsRemaining` from the tier's allotment |
| StatelessValidator.ParseUserContextAsWritten | lib/subscriptions/stateless-validator.ts:49-80 | as written: it rejects with a schema error iff some header is invalid |
| StatelessValidator.AsWrittenRejectsEveryValidRequest | lib/subscriptions/stateless-validator.ts:62 | for every request that passes the schema, the as-written lookup fails while the corrected parse succeeds |
| StatelessValidator.ValidateAction | lib/subscriptions/stateless-validator.ts:85-136 | proceeds iff the user can pay (credits or a completion), a dual-ai request has dual access, and a project stays within a finite limit; the error names the first failing check; `creditsRequired` is 2/1/1, or 0 on the project-limit denial; the context is returned unchanged |
| StatelessValidator.CalculateUsage | lib/subscriptions/stateless-validator.ts:141-179 | completions first: with a completion left, an AI action spends 1 completion and 0 credits, otherwise its credits and 0 completions; create-project spends neither and adds one project; new counters are the old ones moved by what was spent |
| StatelessValidator.GetApiKeys | lib/subscriptions/stateless-validator.ts:184-195 | the user's keys for BYOK, the empty record for every other tier |
| StatelessValidator.NoOverdraft | lib/subscriptions/stateless-validator.ts:85-179 | an action `validateAction` lets through, charged by `calculateUsage`, never takes a non-negative balance below zero |
| StatelessValidator.DualAIRequiresAccess | lib/subscriptions/stateless-validator.ts:106-114 | a dual-ai request without dual access never proceeds |
| StatelessValidator.CompletionsStayWithinAllotment | lib/subscriptions/stateless-validator.ts:62-65 | charging a validated action never pushes `completionsUsed` past a finite allotment |
| StatelessValidator.FreeTierPaysInCredits | lib/subscriptions/stateless-validator.ts:150-170 | with a non-negative completions-used count, a free-tier user has no completions left, so every AI action is paid in credits |
| StatelessValidator.NegativeUsageGivesFreeCompletions | lib/subscriptions/stateless-validator.ts:62-65 | a negative completions-used count gives a free-tier user that many completions |
| StatelessValidator.ParsedKeysFollowTier | lib/subscriptions/stateless-validator.ts:184-195 | for a parsed context, the BYOK tier uses exactly the key headers and other tiers use none |
| StatelessValidator.CreateProjectCreditMismatch | lib/subscriptions/stateless-validator.ts:89 | validation asks 1 credit for create-project, the charge is 0, and a user with neither credits nor completions is refused |
| StatelessValidator.FreshFreeUserSingleAI | lib/subscriptions/stateless-validator.ts:49-179 | a fresh free user with 5 credits may run single-AI, has no completion, and is left with 4 credits |
| StatelessValidator.FreshFreeUserDualAILocked | lib/subscriptions/stateless-validator.ts:106-114 | the same user is denied dual AI with the feature-lock error |
| Usage.HasCreditsRemaining | lib/subscriptions/usage.ts:7-9 | a well-formed record always meets a demand of no credits; a demand that is met can be debited without the balance going negative |
| Usage.HasCompletionsRemaining | lib/subscriptions/usage.ts:12-15 | on the free tier (allotment 0) only a negative count passes; on every paid tier the test is used < 300 |
| Usage.CanCreateProject | lib/subscriptions/usage.ts:18-21 | the paid tiers (limit -1) can always create a project; the free tier can iff fewer than 200 have been created |
| Usage.CanUseDualAI | lib/subscriptions/usage.ts:24-26 | the flag or the literals 'pro'/'pro_byok', which no tier has, so it is true iff the record's `hasDualAI` flag is set |
| Usage.CompletionTestsOnSentinel | lib/subscriptions/usage.ts:12-15 | with a non-negative completions-used count: on the -1 allotment `hasCompletionsRemaining` says yes while `useCompletion` refuses; on every other allotment the two tests agree |
| Usage.TrackerAgreesWithValidator | lib/subscriptions/usage.ts:12-15 | with a non-negative completions-used count, the stateless snapshot has a completion left iff the tracker says so, and for the catalog's tiers `useCompletion` then succeeds |
| Usage.Debited | lib/subscriptions/usage.ts:29-36 | the balance drops by exactly the amount and stays non-negative; only the balance and the activity time change |
| Usage.CompletionCounted | lib/subscriptions/usage.ts:39-49 | one more completion, still within the monthly allotment; nothing else but the activity time changes |
| Usage.ProjectCounted | lib/subscriptions/usage.ts:52-58 | one more project, within a finite limit; nothing else but the activity time changes |
| Usage.MonthReset | lib/subscriptions/usage.ts:95-101 | completions go back to 0; the tier's monthly credits are added to the balance, not written over it |
| Usage.Purchased | lib/subscriptions/usage.ts:104-117 | the package's credits are added and dual AI is unlocked; tier and counters are kept |
| Usage.UseCredits | lib/subscriptions/usage.ts:29-36 | succeeds iff credits >= amount; then the record becomes `Debited`, otherwise it is unchanged |
| Usage.UseCompletion | lib/subscriptions/usage.ts:39-49 | succeeds iff the allotment is not 0 and used < allotment; then `CompletionCounted`, otherwise unchanged |
| Usage.CreateProject | lib/subscriptions/usage.ts:52-58 | succeeds iff `canCreateProject`; then `ProjectCounted`, otherwise unchanged |
| Usage.ResetMonthlyUsage | lib/subscriptions/usage.ts:95-101 | the record becomes `MonthReset` of its old value |
| Usage.PurchaseCreditPackage | lib/subscriptions/usage.ts:104-117 | always succeeds; the record becomes `Purchased` of its old value |
| Usage.GetProjectUsage | lib/subscriptions/usage.ts:61-68 | the count, the tier's limit, and `canCreate` iff the limit is -1 or not yet reached |
| Usage.GetUsageSummary | lib/subscriptions/usage.ts:71-92 | the record's counters beside its tier's limits; dual AI iff the record's flag; own keys iff BYOK |
| Manager.NewUserState | lib/subscriptions/manager.ts:12-20 | a new user is on the free tier with its monthly credits, zero counters, no dual AI, and no keys or period |
| Manager.AfterLookup | lib/subscriptions/manager.ts:10-24 | a lookup adds at most the looked-up id, with the found or new record, and keeps every other entry |
| Manager.LookupIsIdempotent | lib/subscriptions/manager.ts:10-24 | a second lookup returns the first one's record and stores nothing new |
| Manager.Upgraded | lib/subscriptions/manager.ts:117-126 | new tier; its monthly credits added; its dual-AI flag; a 30-day period from now; keys replaced only when supplied; counters kept; well-formedness kept |
| Manager.ApplyUpgrade | lib/subscriptions/manager.ts:117-126 | the field assignments turn the object's value into `Upgraded` of its old value |
| Manager.UpgradeCanRevokePurchasedUnlock | lib/subscriptions/manager.ts:119 | upgrading to free clears a purchased dual-AI unlock, and upgrading to pro keeps it |
| Manager.Without | lib/subscriptions/manager.ts:157-159 | removing an id from the insertion order keeps every other id, in the same relative order (a subsequence), and keeps the ids distinct |
| Manager.SubscriptionManager.constructor | lib/subscriptions/manager.ts:7 | the manager starts empty and valid |
| Manager.SubscriptionManager.GetUserSubscription | lib/subscriptions/manager.ts:10-24 | returns the stored object itself for a known id; for an unseen id, stores a fresh free-tier record and appends the id to the order; the new records are `AfterLookup` of the old |
| Manager.SubscriptionManager.UpdateUser | lib/subscriptions/manager.ts:27-29 | stores the object under its id; for the object already stored there, nothing changes |
| Manager.SubscriptionManager.CanUseDualAI | lib/subscriptions/manager.ts:32-35 | the tracker's answer on the looked-up record |
| Manager.SubscriptionManager.CanCreateProject | lib/subscriptions/manager.ts:38-41 | the tracker's answer on the looked-up record |
| Manager.SubscriptionManager.HasCreditsRemaining | lib/subscriptions/manager.ts:44-47 | the tracker's answer on the looked-up record |
| Manager.SubscriptionManager.HasCompletionsRemaining | lib/subscriptions/manager.ts:50-53 | the tracker's answer on the looked-up record |
| Manager.SubscriptionManager.GetProjectUsage | lib/subscriptions/manager.ts:56-59 | the tracker's project usage of the looked-up record |
| Manager.SubscriptionManager.GetUsageSummary | lib/subscriptions/manager.ts:139-142 | the tracker's summary of the looked-up record |
| Manager.SubscriptionManager.GetUserApiKeys | lib/subscriptions/manager.ts:133-136 | the looked-up record's keys, or none |
| Manager.SubscriptionManager.UseCredits | lib/subscriptions/manager.ts:62-69 | the tracker's guard decides; only this user's entry changes, to `Debited` on success |
| Manager.SubscriptionManager.UseCompletion | lib/subscriptions/manager.ts:72-79 | the tracker's guard decides; only this user's entry changes, to `CompletionCounted` on success |
| Manager.SubscriptionManager.CreateProject | lib/subscriptions/manager.ts:82-89 | the tracker's guard decides; only this user's entry changes, to `ProjectCounted` on success |
| Manager.SubscriptionManager.PurchaseCreditPackage | lib/subscriptions/manager.ts:92-99 | always succeeds; only this user's entry changes, to `Purchased` |
| Manager.SubscriptionManager.UpgradeSubscription | lib/subscriptions/manager.ts:102-130 | fails (the throw) iff BYOK is asked for without both keys non-empty, leaving only the lookup's effect; otherwise only this user's entry changes, to `Upgraded` |
| Manager.SubscriptionManager.ResetMonthlyUsage | lib/subscriptions/manager.ts:145-149 | only this user's entry changes, to `MonthReset` |
| Manager.SubscriptionManager.GetAllUsers | lib/subscriptions/manager.ts:152-154 | every stored object exactly once, in insertion order |
| Manager.SubscriptionManager.DeleteUser | lib/subscriptions/manager.ts:157-159 | reports whether the id was stored; removes exactly that entry and its place in the order |
| AnalyzePrompt.LibraryOfIsInjective | lib/analyzePrompt.ts:16-21 | the style-to-library table is one-to-one |
| AnalyzePrompt.StyleIndicatorsInOrder | lib/analyzePrompt.ts:10-15 | the groups are tried in the order modern, professional, business, minimal, and each lists its own name |
| AnalyzePrompt.LowerChar | lib/analyzePrompt.ts:24 | lower-cases ASCII capitals and leaves every other character alone |
| AnalyzePrompt.ToLower | lib/analyzePrompt.ts:24 | same length; no ASCII capital left; any other character is kept |
| AnalyzePrompt.ToLowerIsIdempotent | lib/analyzePrompt.ts:24 | lower-casing twice is the same as once |
| AnalyzePrompt.FirstStyleFrom | lib/analyzePrompt.ts:37-43 | none iff no group from i on matches; otherwise the style of the first matching group, with no earlier match |
| AnalyzePrompt.Classify | lib/analyzePrompt.ts:23-46 | the library is the style's library; confidence lies in [0.70, 1.00] |
| AnalyzePrompt.Analyze | lib/analyzePrompt.ts:23-46 | the loop with `break` computes exactly `Classify` of the lower-cased prompt |
| AnalyzePrompt.CapNeverBinds | lib/analyzePrompt.ts:45 | the uncapped score is at most 1.00, so `Math.min` never changes it |
| AnalyzePrompt.ClassifyExplained | lib/analyzePrompt.ts:29-36 | the result is a site iff it has a site keyword and no component keyword; each kind of evidence adds its bonus once |
| AnalyzePrompt.StyleIsFirstMatch | lib/analyzePrompt.ts:37-43 | the style is that of the first matching group; it is modern with no bonus only when no group matches |
| AnalyzePrompt.ConfidenceGrowsWithText | lib/analyzePrompt.ts:29-43 | appending text to an already lower-cased prompt never lowers its confidence |
| AnalyzePrompt.ToLowerAppend | lib/analyzePrompt.ts:24 | lower-casing `p + q` is lower-casing `p`, then `q` |
| AnalyzePrompt.PromptConfidenceGrowsWithText | lib/analyzePrompt.ts:23-46 | appending text to a prompt, before lower-casing, never lowers the confidence `Analyze` reports |
| AnalyzePrompt.ExampleClassified | lib/analyzePrompt.ts:23-46 | "Create a modern landing page" gives a site, modern style, shadcn, confidence 0.90 |

## Left out

- I/O, clocks and the process-wide singleton (`subscriptionManager`): the time `new Date()` reads is a `now` parameter, and the global instance is not modelled.
- Header decoding (`parseFloat`, `parseInt`, a `string[]` header value): the headers arrive decoded. A number that does not parse (JS `NaN`) is not modelled.
- zod's error objects and message texts: a schema failure is modelled as the list of rejected headers. The validator's user-facing messages and emoji are out too; a denial is modelled as its kind and numbers.
- `generateUsageSummary` and `validateUserContext` (stateless-validator.ts:200-225): they only format text and re-run the schema.
- The `features` string lists of tiers and packages, and each package's `name` and `description` wording: these are marketing text, and no rule reads them.
- Floating point: credits and confidence are exact. The source's binary sums (for example 0.7 + 0.15 + 0.05) may differ from these in the last bit.
- `toLowerCase` beyond ASCII: Unicode case mapping is not modelled.
- The other files of the repository (request handlers, the orchestrator, the AI callers, the MCP transport) are not part of this model.
- Concurrency: JS runs one call at a time, so every method is modelled as atomic.
- Manager.SubscriptionManager.UseCredits, UseCompletion, CreateProject, PurchaseCreditPackage, UpgradeSubscription, ResetMonthlyUsage: these leave out the `updateUser` call the source makes on success. `UpdateUser` proves that call changes nothing for the object already stored under its id, which is the only object passed to it.
- Usage.HasCreditsRemaining, Manager.SubscriptionManager.HasCreditsRemaining: the default argument `requiredCredits = 1` (usage.ts:7, manager.ts:44) is not modelled, since Dafny methods and functions have no default arguments; callers pass the amount, 1 for the default.
- Manager.SubscriptionManager.UpdateUser: it requires a well-formed record, so that the manager's invariant (no negative balance or counter) is kept. The source demands nothing.
- Manager.SubscriptionManager.UpgradeSubscription: `newTier` is a `Tier`, so the branch where `SUBSCRIPTION_CONFIGS[newTier]` is undefined cannot occur.

## Findings

| source | as written | input that shows it | evidently intended | confidence | as-written member | corrected member |
|---|---|---|---|---|---|---|
| lib/subscriptions/stateless-validator.ts:62 | the tier header, validated as one of 'free', 'pro', 'byok', is used directly as a key of `SUBSCRIPTION_CONFIGS`, whose keys are 'mcp_free', 'mcp_pro', 'mcp_pro_byok'; the lookup is undefined and reading `monthlyCompletions` from it throws | any request the schema accepts, e.g. headers with x-user-tier: free | each header value selects the tier it names (free → mcp_free, pro → mcp_pro, byok → mcp_pro_byok) | high; not executed | StatelessValidator.AsWrittenRejectsEveryValidRequest | StatelessValidator.ParseUserContext |
