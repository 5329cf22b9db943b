/**
 * The subscription schemas (lib/subscriptions/schemas.ts): the tier enum, the
 * `UserSubscription` record with its defaults, and the enums of the management
 * and project tools. A zod enum check is modelled as a partial parse from the
 * enum's string value.
 */
module Schemas {
  import opened Wrappers
  import CreditPackages

  /** `SubscriptionTier`: exactly three members. */
  datatype Tier = MCPFree | MCPPro | MCPProByok

  /** The string value of each enum member. */
  function TierValue(t: Tier): string {
    match t
    case MCPFree => "mcp_free"
    case MCPPro => "mcp_pro"
    case MCPProByok => "mcp_pro_byok"
  }

  /** `z.nativeEnum(SubscriptionTier)`: accepts exactly the three enum strings. */
  function TierFromValue(s: string): (r: Option<Tier>)
    ensures r.Some? ==> TierValue(r.value) == s
    ensures r.None? ==> forall t: Tier :: TierValue(t) != s
    ensures forall t: Tier :: TierValue(t) == s ==> r == Some(t)
  {
    if s == "mcp_free" then Some(MCPFree)
    else if s == "mcp_pro" then Some(MCPPro)
    else if s == "mcp_pro_byok" then Some(MCPProByok)
    else None
  }

  /** The two optional provider keys a user may bring (`apiKeys`). */
  datatype ApiKeys = ApiKeys(v0ApiKey: Option<string>, claudeApiKey: Option<string>)

  /**
   * The value of a `UserSubscription` record at one moment. Dates are
   * milliseconds since the epoch; credits are a JS number, modelled exactly.
   */
  datatype SubscriptionState = SubscriptionState(
    userId: string,
    tier: Tier,
    creditsRemaining: real,
    completionsUsed: int,
    projectsCreated: int,
    hasDualAI: bool,
    subscriptionStart: Option<int>,
    subscriptionEnd: Option<int>,
    lastActivity: Option<int>,
    apiKeys: Option<ApiKeys>)
  {
    /** The counters cannot be negative; in particular there is no overdraft. */
    predicate WellFormed() {
      creditsRemaining >= 0.0 && completionsUsed >= 0 && projectsCreated >= 0
    }
  }

  /**
   * A `UserSubscription` object. The usage tracker and the manager update its
   * fields in place, and the manager hands out the same object on every lookup.
   */
  class UserSubscription {
    const userId: string
    var tier: Tier
    var creditsRemaining: real
    var completionsUsed: int
    var projectsCreated: int
    var hasDualAI: bool
    var subscriptionStart: Option<int>
    var subscriptionEnd: Option<int>
    var lastActivity: Option<int>
    var apiKeys: Option<ApiKeys>

    /** The record's current value. */
    function Value(): SubscriptionState
      reads this
    {
      SubscriptionState(userId, tier, creditsRemaining, completionsUsed, projectsCreated,
                        hasDualAI, subscriptionStart, subscriptionEnd, lastActivity, apiKeys)
    }

    /** An object literal with the given property values. */
    constructor (s: SubscriptionState)
      ensures Value() == s
    {
      userId := s.userId;
      tier := s.tier;
      creditsRemaining := s.creditsRemaining;
      completionsUsed := s.completionsUsed;
      projectsCreated := s.projectsCreated;
      hasDualAI := s.hasDualAI;
      subscriptionStart := s.subscriptionStart;
      subscriptionEnd := s.subscriptionEnd;
      lastActivity := s.lastActivity;
      apiKeys := s.apiKeys;
    }
  }

  /**
   * An input object for `UserSubscriptionSchema` after its field types were
   * checked: the defaulted and optional properties may be absent.
   */
  datatype SubscriptionInput = SubscriptionInput(
    userId: string,
    tier: Tier,
    creditsRemaining: Option<real>,
    completionsUsed: Option<int>,
    projectsCreated: Option<int>,
    hasDualAI: Option<bool>,
    subscriptionStart: Option<int>,
    subscriptionEnd: Option<int>,
    lastActivity: Option<int>,
    apiKeys: Option<ApiKeys>)

  /**
   * `UserSubscriptionSchema.parse`: a counter that is absent becomes 0, an absent
   * `hasDualAI` becomes false, a present property is kept, and the optional dates
   * and keys stay absent when absent.
   */
  function ParseSubscription(input: SubscriptionInput): (s: SubscriptionState)
    ensures s.userId == input.userId && s.tier == input.tier
    ensures input.creditsRemaining.None? ==> s.creditsRemaining == 0.0
    ensures input.completionsUsed.None? ==> s.completionsUsed == 0
    ensures input.projectsCreated.None? ==> s.projectsCreated == 0
    ensures input.hasDualAI.None? ==> !s.hasDualAI
    ensures input.creditsRemaining == Some(s.creditsRemaining) || input.creditsRemaining.None?
    ensures input.completionsUsed == Some(s.completionsUsed) || input.completionsUsed.None?
    ensures input.projectsCreated == Some(s.projectsCreated) || input.projectsCreated.None?
    ensures input.hasDualAI == Some(s.hasDualAI) || input.hasDualAI.None?
    ensures s.subscriptionStart == input.subscriptionStart && s.subscriptionEnd == input.subscriptionEnd
    ensures s.lastActivity == input.lastActivity && s.apiKeys == input.apiKeys
  {
    SubscriptionState(
      input.userId, input.tier,
      input.creditsRemaining.GetOr(0.0),
      input.completionsUsed.GetOr(0),
      input.projectsCreated.GetOr(0),
      input.hasDualAI.GetOr(false),
      input.subscriptionStart, input.subscriptionEnd, input.lastActivity, input.apiKeys)
  }

  /** Parsing a record that lists every property gives that record back. */
  lemma ParseSubscriptionComplete(s: SubscriptionState)
    ensures ParseSubscription(SubscriptionInput(
              s.userId, s.tier, Some(s.creditsRemaining), Some(s.completionsUsed),
              Some(s.projectsCreated), Some(s.hasDualAI), s.subscriptionStart,
              s.subscriptionEnd, s.lastActivity, s.apiKeys)) == s
  {
  }

  /** The `action` enum of the subscription-management tool. */
  datatype SubscriptionAction = GetStatus | PurchaseCredits | UpgradeTier | SetupByok

  function SubscriptionActionValue(a: SubscriptionAction): string {
    match a
    case GetStatus => "get-status"
    case PurchaseCredits => "purchase-credits"
    case UpgradeTier => "upgrade-tier"
    case SetupByok => "setup-byok"
  }

  /** `z.enum(['get-status', 'purchase-credits', 'upgrade-tier', 'setup-byok'])`. */
  function SubscriptionActionFromValue(s: string): (r: Option<SubscriptionAction>)
    ensures r.Some? ==> SubscriptionActionValue(r.value) == s
    ensures r.None? ==> forall a: SubscriptionAction :: SubscriptionActionValue(a) != s
    ensures forall a: SubscriptionAction :: SubscriptionActionValue(a) == s ==> r == Some(a)
  {
    if s == "get-status" then Some(GetStatus)
    else if s == "purchase-credits" then Some(PurchaseCredits)
    else if s == "upgrade-tier" then Some(UpgradeTier)
    else if s == "setup-byok" then Some(SetupByok)
    else None
  }

  /**
   * `z.enum(['small', 'medium', 'large', 'xlarge'])` for `packageKey`: it accepts
   * exactly the key names of the credit package table.
   */
  function PackageKeyFromValue(s: string): (r: Option<CreditPackages.PackageKey>)
    ensures r.Some? ==> CreditPackages.KeyName(r.value) == s
    ensures r.Some? <==> s in CreditPackages.CreditPackagesTable
    ensures forall k: CreditPackages.PackageKey :: CreditPackages.KeyName(k) == s ==> r == Some(k)
  {
    if s == "small" then Some(CreditPackages.Small)
    else if s == "medium" then Some(CreditPackages.Medium)
    else if s == "large" then Some(CreditPackages.Large)
    else if s == "xlarge" then Some(CreditPackages.XLarge)
    else None
  }

  /** The `action` enum of the project tool. */
  datatype ProjectAction = Create | GetUsage | List

  function ProjectActionValue(a: ProjectAction): string {
    match a
    case Create => "create"
    case GetUsage => "get-usage"
    case List => "list"
  }

  /** `z.enum(['create', 'get-usage', 'list'])`. */
  function ProjectActionFromValue(s: string): (r: Option<ProjectAction>)
    ensures r.Some? ==> ProjectActionValue(r.value) == s
    ensures r.None? ==> forall a: ProjectAction :: ProjectActionValue(a) != s
    ensures forall a: ProjectAction :: ProjectActionValue(a) == s ==> r == Some(a)
  {
    if s == "create" then Some(Create)
    else if s == "get-usage" then Some(GetUsage)
    else if s == "list" then Some(List)
    else None
  }

  /** The `projectType` enum of the project tool. */
  datatype ProjectType = ComponentProject | PageProject | AppProject | ApiProject

  function ProjectTypeValue(t: ProjectType): string {
    match t
    case ComponentProject => "component"
    case PageProject => "page"
    case AppProject => "app"
    case ApiProject => "api"
  }

  /** `z.enum(['component', 'page', 'app', 'api'])`. */
  function ProjectTypeFromValue(s: string): (r: Option<ProjectType>)
    ensures r.Some? ==> ProjectTypeValue(r.value) == s
    ensures r.None? ==> forall t: ProjectType :: ProjectTypeValue(t) != s
    ensures forall t: ProjectType :: ProjectTypeValue(t) == s ==> r == Some(t)
  {
    if s == "component" then Some(ComponentProject)
    else if s == "page" then Some(PageProject)
    else if s == "app" then Some(AppProject)
    else if s == "api" then Some(ApiProject)
    else None
  }
}
