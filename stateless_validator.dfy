/**
 * The stateless entitlement validator (lib/subscriptions/stateless-validator.ts).
 * Every call receives the user's full snapshot, rebuilt from trusted request
 * headers, and returns a fresh decision or a fresh set of counters; nothing is
 * stored. The header values arrive already decoded: a missing header is `None`,
 * and a numeric header holds the number that `parseFloat`/`parseInt` produced.
 */
module StatelessValidator {
  import opened Wrappers
  import opened Schemas
  import opened Tiers

  /**
   * The tier header's vocabulary `'free' | 'pro' | 'byok'` (line 31). The source
   * casts this string to `SubscriptionTier` and uses it as a key of a table whose
   * keys are 'mcp_free', 'mcp_pro' and 'mcp_pro_byok' (lines 62, 69, 92, 188); this model
   * reads each header value as the tier it evidently names. `ParseUserContextAsWritten`
   * below keeps the literal lookup.
   */
  function TierFromHeader(s: string): (r: Option<Tier>)
    ensures r.Some? <==> s == "free" || s == "pro" || s == "byok"
    ensures r == Some(MCPFree) <==> s == "free"
    ensures r == Some(MCPProByok) <==> s == "byok"
  {
    if s == "free" then Some(MCPFree)
    else if s == "pro" then Some(MCPPro)
    else if s == "byok" then Some(MCPProByok)
    else None
  }

  /** `completionsRemaining`: the source uses `Infinity` for an unlimited allotment. */
  datatype Remaining = Infinity | Count(n: nat)

  /** `completionsRemaining > 0`. */
  predicate Positive(r: Remaining) {
    r.Infinity? || r.n > 0
  }

  /**
   * The completions left this month: unlimited when the tier's allotment is the
   * -1 sentinel, otherwise `max(0, monthly - used)`, never negative.
   */
  function CompletionsRemaining(monthly: int, used: int): (r: Remaining)
    ensures r.Infinity? <==> monthly == Unlimited
    ensures r.Count? ==> (r.n > 0 <==> used < monthly)
    ensures r.Count? && used < monthly ==> r.n == monthly - used
  {
    if monthly == Unlimited then Infinity
    else if monthly - used > 0 then Count(monthly - used)
    else Count(0)
  }

  /** The decoded header values of one request. */
  datatype Headers = Headers(
    userId: Option<string>,           // x-user-id
    tier: Option<string>,             // x-user-tier
    credits: Option<real>,            // x-user-credits
    completions: Option<int>,         // x-user-completions (required, never used)
    completionsUsed: Option<int>,     // x-user-completions-used
    projects: Option<int>,            // x-user-projects
    hasDualAccess: Option<string>,    // x-has-dual-access
    v0ApiKey: Option<string>,         // x-v0-api-key (optional)
    claudeApiKey: Option<string>)     // x-claude-api-key (optional)

  /** The required headers, in the order of the schema. */
  datatype HeaderField =
    UserIdField | TierField | CreditsField | CompletionsField
    | CompletionsUsedField | ProjectsField | DualAccessField

  /** Whether the schema accepts the header `f`. */
  predicate FieldValid(h: Headers, f: HeaderField) {
    match f
    case UserIdField => h.userId.Some? && |h.userId.value| >= 1
    case TierField => h.tier.Some? && TierFromHeader(h.tier.value).Some?
    case CreditsField => h.credits.Some?
    case CompletionsField => h.completions.Some?
    case CompletionsUsedField => h.completionsUsed.Some?
    case ProjectsField => h.projects.Some?
    case DualAccessField => h.hasDualAccess.Some?
  }

  predicate AllFieldsValid(h: Headers) {
    forall f: HeaderField :: FieldValid(h, f)
  }

  /** The headers the schema rejects, in schema order (zod reports every issue). */
  function InvalidFields(h: Headers): (fs: seq<HeaderField>)
    ensures forall f: HeaderField :: f in fs <==> !FieldValid(h, f)
  {
    (if FieldValid(h, UserIdField) then [] else [UserIdField])
    + (if FieldValid(h, TierField) then [] else [TierField])
    + (if FieldValid(h, CreditsField) then [] else [CreditsField])
    + (if FieldValid(h, CompletionsField) then [] else [CompletionsField])
    + (if FieldValid(h, CompletionsUsedField) then [] else [CompletionsUsedField])
    + (if FieldValid(h, ProjectsField) then [] else [ProjectsField])
    + (if FieldValid(h, DualAccessField) then [] else [DualAccessField])
  }

  /** Why a request's user context was rejected. */
  datatype ParseError =
    | InvalidHeaders(fields: seq<HeaderField>)   // the ZodError, one entry per issue
    | ConfigLookupFailed(key: string)            // SUBSCRIPTION_CONFIGS[key] is undefined

  /** `UserContext`: the snapshot the validator works on. */
  datatype UserContext = UserContext(
    userId: string,
    tier: Tier,
    creditsRemaining: real,
    completionsRemaining: Remaining,
    completionsUsed: int,
    projectsCreated: int,
    hasDualAccess: bool,
    apiKeys: Option<ApiKeys>)

  /** The object literal built at lines 67-79 once the tier's config is known. */
  function ContextFrom(h: Headers, t: Tier): UserContext
    requires AllFieldsValid(h)
  {
    assert FieldValid(h, UserIdField) && FieldValid(h, CreditsField);
    assert FieldValid(h, CompletionsUsedField) && FieldValid(h, ProjectsField);
    assert FieldValid(h, DualAccessField);
    UserContext(
      h.userId.value, t, h.credits.value,
      CompletionsRemaining(ConfigOf(t).monthlyCompletions, h.completionsUsed.value),
      h.completionsUsed.value, h.projects.value,
      h.hasDualAccess.value == "true",
      Some(ApiKeys(h.v0ApiKey, h.claudeApiKey)))
  }

  /**
   * `parseUserContext`: rejects the request, listing every bad header, when a
   * required header is missing, the user id is empty or the tier is not one of
   * free/pro/byok; otherwise copies the values through, grants dual access only
   * for the exact string "true", and derives `completionsRemaining` from the tier.
   */
  function ParseUserContext(h: Headers): (r: Result<UserContext, ParseError>)
    ensures r.Success? <==> AllFieldsValid(h)
    ensures r.Failure? ==> r.error.InvalidHeaders? && r.error.fields != []
    ensures r.Failure? ==> forall f: HeaderField :: f in r.error.fields <==> !FieldValid(h, f)
    ensures r.Success? ==>
      && h.userId == Some(r.value.userId) && r.value.userId != ""
      && h.tier.Some? && TierFromHeader(h.tier.value) == Some(r.value.tier)
      && h.credits == Some(r.value.creditsRemaining)
      && h.completionsUsed == Some(r.value.completionsUsed)
      && h.projects == Some(r.value.projectsCreated)
      && (r.value.hasDualAccess <==> h.hasDualAccess == Some("true"))
      && r.value.apiKeys == Some(ApiKeys(h.v0ApiKey, h.claudeApiKey))
      && r.value.completionsRemaining
           == CompletionsRemaining(ConfigOf(r.value.tier).monthlyCompletions, r.value.completionsUsed)
  {
    var bad := InvalidFields(h);
    if bad != [] then Failure(InvalidHeaders(bad))
    else
      assert FieldValid(h, TierField);
      Success(ContextFrom(h, TierFromHeader(h.tier.value).value))
  }

  /**
   * `parseUserContext` as written: the accepted header string itself is the key of
   * `SUBSCRIPTION_CONFIGS` (line 62). When the lookup is undefined, reading
   * `monthlyCompletions` from it throws a TypeError.
   */
  function ParseUserContextAsWritten(h: Headers): (r: Result<UserContext, ParseError>)
    ensures r.Failure? && r.error.InvalidHeaders? <==> !AllFieldsValid(h)
  {
    var bad := InvalidFields(h);
    if bad != [] then Failure(InvalidHeaders(bad))
    else
      assert FieldValid(h, TierField);
      var key := h.tier.value;
      if key !in SubscriptionConfigs then Failure(ConfigLookupFailed(key))
      else Success(ContextFrom(h, SubscriptionConfigs[key].tier))
  }

  /**
   * The lookup as written fails for every request the schema accepts, so no
   * request ever got past `parseUserContext`; the corrected reading accepts them.
   */
  lemma AsWrittenRejectsEveryValidRequest(h: Headers)
    requires AllFieldsValid(h)
    ensures h.tier.Some?
    ensures ParseUserContextAsWritten(h) == Failure(ConfigLookupFailed(h.tier.value))
    ensures ParseUserContext(h).Success?
  {
    assert FieldValid(h, TierField);
    var key := h.tier.value;
    assert key == "free" || key == "pro" || key == "byok";
    ConfigsTotal();
    assert key !in SubscriptionConfigs;
  }

  /** The validator's actions. */
  datatype Action = SingleAI | DualAI | CreateProject

  /** `creditsRequired` in `validateAction` (line 89): 2 for dual-ai, 1 for the rest. */
  function ValidationCredits(a: Action): int {
    if a == DualAI then 2 else 1
  }

  /**
   * `creditsRequired` in `calculateUsage` (line 151): 2, 1, and 0 for
   * create-project. The two tables disagree on create-project; both are kept as written.
   */
  function ChargeCredits(a: Action): int {
    match a
    case DualAI => 2
    case SingleAI => 1
    case CreateProject => 0
  }

  /** Why an action was denied; the user-facing message texts are not modelled. */
  datatype Denial =
    | UsageLimitReached
    | DualAILocked
    | ProjectLimitReached(created: int, limit: int)

  /** `ValidationResult`. */
  datatype ValidationResult = ValidationResult(
    isValid: bool,
    error: Option<Denial>,
    canProceed: bool,
    creditsRequired: int,
    userContext: UserContext)

  /** The context can pay for the action: enough credits or a completion left. */
  predicate CanPay(ctx: UserContext, a: Action) {
    ctx.creditsRemaining >= ValidationCredits(a) as real || Positive(ctx.completionsRemaining)
  }

  /** The tier's project limit is finite and already reached. */
  predicate ProjectLimitHit(ctx: UserContext) {
    var limit := ConfigOf(ctx.tier).projectLimit;
    limit != Unlimited && ctx.projectsCreated >= limit
  }

  /**
   * `validateAction`: checks, in this order, that the user can pay (credits or a
   * completion), that a dual-ai request has dual access, and that a new project
   * stays within the tier's limit. It proceeds exactly when all three hold, names
   * the first failing check otherwise, and hands the context back unchanged.
   * Line 92 looks up `SUBSCRIPTION_CONFIGS[userContext.tier]`; here `ctx.tier` is
   * already the tier the header names (see `TierFromHeader`), so the lookup is
   * `ConfigOf(ctx.tier)`.
   */
  function ValidateAction(ctx: UserContext, a: Action): (r: ValidationResult)
    ensures r.userContext == ctx && r.isValid == r.canProceed
    ensures r.error.Some? <==> !r.canProceed
    ensures r.canProceed <==>
      CanPay(ctx, a) && (a == DualAI ==> ctx.hasDualAccess) && (a == CreateProject ==> !ProjectLimitHit(ctx))
    ensures r.error == Some(UsageLimitReached) <==> !CanPay(ctx, a)
    ensures r.error == Some(DualAILocked) <==> CanPay(ctx, a) && a == DualAI && !ctx.hasDualAccess
    ensures (r.error.Some? && r.error.value.ProjectLimitReached?) <==>
      CanPay(ctx, a) && a == CreateProject && ProjectLimitHit(ctx)
    ensures r.error.Some? && r.error.value.ProjectLimitReached? ==>
      r.creditsRequired == 0
      && r.error.value == ProjectLimitReached(ctx.projectsCreated, ConfigOf(ctx.tier).projectLimit)
    ensures !(r.error.Some? && r.error.value.ProjectLimitReached?) ==>
      r.creditsRequired == ValidationCredits(a)
  {
    var required := ValidationCredits(a);
    var hasCredits := ctx.creditsRemaining >= required as real;
    var hasCompletions := Positive(ctx.completionsRemaining);
    var config := ConfigOf(ctx.tier);
    if !hasCredits && !hasCompletions then
      ValidationResult(false, Some(UsageLimitReached), false, required, ctx)
    else if a == DualAI && !ctx.hasDualAccess then
      ValidationResult(false, Some(DualAILocked), false, required, ctx)
    else if a == CreateProject && config.projectLimit != Unlimited && ctx.projectsCreated >= config.projectLimit then
      ValidationResult(false, Some(ProjectLimitReached(ctx.projectsCreated, config.projectLimit)), false, 0, ctx)
    else
      ValidationResult(true, None, true, required, ctx)
  }

  /** The record `calculateUsage` returns. */
  datatype Usage = Usage(
    creditsUsed: int,
    completionsUsed: int,
    newCreditsRemaining: real,
    newCompletionsUsed: int,
    newProjectsCreated: int)

  /**
   * `calculateUsage`, the completions-first rule: an AI action spends one
   * completion and no credit while a completion is left, otherwise its credits
   * and no completion; creating a project spends neither and counts one project.
   * The new counters are the old ones moved by exactly what was spent.
   */
  function CalculateUsage(ctx: UserContext, a: Action): (u: Usage)
    ensures a == CreateProject ==>
      u.creditsUsed == 0 && u.completionsUsed == 0 && u.newProjectsCreated == ctx.projectsCreated + 1
    ensures a != CreateProject ==> u.newProjectsCreated == ctx.projectsCreated
    ensures a != CreateProject && Positive(ctx.completionsRemaining) ==>
      u.completionsUsed == 1 && u.creditsUsed == 0
    ensures a != CreateProject && !Positive(ctx.completionsRemaining) ==>
      u.completionsUsed == 0 && u.creditsUsed == ChargeCredits(a) && u.creditsUsed > 0
    ensures u.newCreditsRemaining == ctx.creditsRemaining - u.creditsUsed as real
    ensures u.newCompletionsUsed == ctx.completionsUsed + u.completionsUsed
  {
    var required := ChargeCredits(a);
    var hasCompletions := Positive(ctx.completionsRemaining);
    var projects := if a == CreateProject then ctx.projectsCreated + 1 else ctx.projectsCreated;
    var creditsUsed := if a != CreateProject && !hasCompletions then required else 0;
    var completionsUsed := if a != CreateProject && hasCompletions then 1 else 0;
    Usage(creditsUsed, completionsUsed, ctx.creditsRemaining - creditsUsed as real,
          ctx.completionsUsed + completionsUsed, projects)
  }

  /**
   * `getApiKeys`: the user's own keys for the BYOK tier (each key absent when the
   * context carries none), the empty record for every other tier. Line 188
   * compares the tier with `SubscriptionTier.MCP_PRO_BYOK`; read with the raw
   * header string 'byok' that test never holds, so here `ctx.tier` is the tier
   * the header names (see `TierFromHeader`).
   */
  function GetApiKeys(ctx: UserContext): (k: ApiKeys)
    ensures ctx.tier != MCPProByok ==> k == ApiKeys(None, None)
    ensures ctx.tier == MCPProByok && ctx.apiKeys.Some? ==> k == ctx.apiKeys.value
    ensures ctx.tier == MCPProByok && ctx.apiKeys.None? ==> k == ApiKeys(None, None)
  {
    if ctx.tier == MCPProByok then
      match ctx.apiKeys
      case Some(keys) => ApiKeys(keys.v0ApiKey, keys.claudeApiKey)
      case None => ApiKeys(None, None)
    else ApiKeys(None, None)
  }

  /**
   * No overdraft: an action the validator lets through, charged by
   * `calculateUsage`, never takes a non-negative balance below zero.
   */
  lemma NoOverdraft(ctx: UserContext, a: Action)
    requires ValidateAction(ctx, a).canProceed
    requires ctx.creditsRemaining >= 0.0
    ensures CalculateUsage(ctx, a).newCreditsRemaining >= 0.0
  {
    if a != CreateProject && !Positive(ctx.completionsRemaining) {
      assert ChargeCredits(a) == ValidationCredits(a);
    }
  }

  /** A dual-ai request without dual access is never let through. */
  lemma DualAIRequiresAccess(ctx: UserContext)
    requires !ctx.hasDualAccess
    ensures !ValidateAction(ctx, DualAI).canProceed
    ensures ValidateAction(ctx, DualAI).error == Some(DualAILocked) || ValidateAction(ctx, DualAI).error == Some(UsageLimitReached)
  {
  }

  /**
   * For a context built from headers, charging a validated action never pushes
   * `completionsUsed` past the tier's finite monthly allotment.
   */
  lemma CompletionsStayWithinAllotment(h: Headers, a: Action)
    requires ParseUserContext(h).Success?
    requires var ctx := ParseUserContext(h).value;
      var monthly := ConfigOf(ctx.tier).monthlyCompletions;
      0 <= ctx.completionsUsed <= monthly
    ensures var ctx := ParseUserContext(h).value;
      CalculateUsage(ctx, a).newCompletionsUsed <= ConfigOf(ctx.tier).monthlyCompletions
  {
    var ctx := ParseUserContext(h).value;
    assert ConfigOf(ctx.tier).monthlyCompletions != Unlimited;
  }

  /**
   * A free-tier context (with a non-negative usage count) has no completions left,
   * so every AI action is paid in credits.
   */
  /**
   * `parseInt` accepts a negative usage count, and `Math.max(0, 0 - used)` then
   * gives a free-tier context completions: -3 used leaves 3.
   */
  lemma NegativeUsageGivesFreeCompletions(used: int)
    requires used < 0
    ensures CompletionsRemaining(ConfigOf(MCPFree).monthlyCompletions, used) == Count(-used)
  {
  }

  lemma FreeTierPaysInCredits(h: Headers, a: Action)
    requires ParseUserContext(h).Success?
    requires ParseUserContext(h).value.tier == MCPFree
    requires ParseUserContext(h).value.completionsUsed >= 0
    requires a != CreateProject
    ensures ParseUserContext(h).value.completionsRemaining == Count(0)
    ensures CalculateUsage(ParseUserContext(h).value, a).creditsUsed == ChargeCredits(a)
    ensures CalculateUsage(ParseUserContext(h).value, a).completionsUsed == 0
  {
  }

  /**
   * For a context built from headers, the BYOK tier uses exactly the key headers
   * and every other tier uses the service's keys.
   */
  lemma ParsedKeysFollowTier(h: Headers)
    requires ParseUserContext(h).Success?
    ensures GetApiKeys(ParseUserContext(h).value) ==
      if h.tier == Some("byok") then ApiKeys(h.v0ApiKey, h.claudeApiKey) else ApiKeys(None, None)
  {
  }

  /**
   * The two credit tables disagree on create-project: validation asks for one
   * credit (so a user with no credit and no completion cannot create a project),
   * while the charge for it is zero.
   */
  lemma CreateProjectCreditMismatch(ctx: UserContext)
    ensures ValidateAction(ctx, CreateProject).canProceed ==>
      ValidateAction(ctx, CreateProject).creditsRequired == 1
    ensures CalculateUsage(ctx, CreateProject).creditsUsed == 0
    ensures ctx.creditsRemaining < 1.0 && !Positive(ctx.completionsRemaining) ==>
      ValidateAction(ctx, CreateProject).error == Some(UsageLimitReached)
  {
  }

  /** The headers of a fresh free-tier user with five credits. */
  function FreshFreeUserHeaders(dualAccess: string): Headers {
    Headers(Some("user-1"), Some("free"), Some(5.0), Some(0), Some(0), Some(0),
            Some(dualAccess), None, None)
  }

  /**
   * A fresh free-tier user asking for a single-AI generation may proceed, has no
   * completion left and is charged one credit, keeping four.
   */
  lemma FreshFreeUserSingleAI()
    ensures ParseUserContext(FreshFreeUserHeaders("false")).Success?
    ensures var ctx := ParseUserContext(FreshFreeUserHeaders("false")).value;
      ctx.completionsRemaining == Count(0)
      && ValidateAction(ctx, SingleAI).canProceed
      && CalculateUsage(ctx, SingleAI).newCreditsRemaining == 4.0
  {
    var h := FreshFreeUserHeaders("false");
    assert forall f: HeaderField :: FieldValid(h, f);
  }

  /** The same user asking for dual AI is denied with the feature-lock error. */
  lemma FreshFreeUserDualAILocked()
    ensures ParseUserContext(FreshFreeUserHeaders("false")).Success?
    ensures var ctx := ParseUserContext(FreshFreeUserHeaders("false")).value;
      var r := ValidateAction(ctx, DualAI);
      !r.canProceed && r.error == Some(DualAILocked) && r.userContext == ctx
  {
    var h := FreshFreeUserHeaders("false");
    assert forall f: HeaderField :: FieldValid(h, f);
  }
}
