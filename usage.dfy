/**
 * The usage tracker (lib/subscriptions/usage.ts). Its predicates and summaries
 * read a subscription record; its mutators change the passed-in record in place.
 * Each mutator is specified by a guard (when it succeeds) and an effect function
 * on the record's value; the manager is specified with the same functions.
 * `now` is the clock reading that `new Date()` takes, in milliseconds.
 */
module Usage {
  import opened Wrappers
  import opened Schemas
  import opened Tiers
  import CreditPackages
  import StatelessValidator

  /**
   * `hasCreditsRemaining` (the caller's default for `required` is 1): a
   * well-formed record always meets a demand of nothing, and a met demand can be
   * debited without the balance going negative.
   */
  predicate HasCreditsRemaining(s: SubscriptionState, required: real)
    ensures s.WellFormed() && required <= 0.0 ==> HasCreditsRemaining(s, required)
    ensures HasCreditsRemaining(s, required) ==> s.creditsRemaining - required >= 0.0
  {
    s.creditsRemaining >= required
  }

  /** The allotment test of `hasCompletionsRemaining`: -1 means unlimited. */
  predicate WithinAllotment(monthly: int, used: int) {
    monthly == Unlimited || used < monthly
  }

  /**
   * `hasCompletionsRemaining`. The free tier's allotment is 0, so only a negative
   * count passes there; every paid tier allows 300 a month.
   */
  predicate HasCompletionsRemaining(s: SubscriptionState)
    ensures s.tier == MCPFree ==> (HasCompletionsRemaining(s) <==> s.completionsUsed < 0)
    ensures s.tier != MCPFree ==> (HasCompletionsRemaining(s) <==> s.completionsUsed < 300)
  {
    WithinAllotment(ConfigOf(s.tier).monthlyCompletions, s.completionsUsed)
  }

  /** `canCreateProject`: -1 means unlimited, so only the free tier's 200 bind. */
  predicate CanCreateProject(s: SubscriptionState)
    ensures s.tier != MCPFree ==> CanCreateProject(s)
    ensures s.tier == MCPFree ==> (CanCreateProject(s) <==> s.projectsCreated < 200)
  {
    var limit := ConfigOf(s.tier).projectLimit;
    limit == Unlimited || s.projectsCreated < limit
  }

  /**
   * `canUseDualAI`, as written: the tier is compared with the strings 'pro' and
   * 'pro_byok', which are not values of the tier enum. Since no tier has those
   * values, dual AI comes from the record's flag alone.
   */
  predicate CanUseDualAI(s: SubscriptionState)
    ensures CanUseDualAI(s) <==> s.hasDualAI
  {
    s.hasDualAI || TierValue(s.tier) == "pro" || TierValue(s.tier) == "pro_byok"
  }

  /** The guard of `useCompletion`: an allotment of 0 refuses first, then `used < monthly`. */
  predicate CompletionGuard(monthly: int, used: int) {
    monthly != 0 && used < monthly
  }

  /** `useCompletion` succeeds on this record. */
  predicate CompletionAvailable(s: SubscriptionState) {
    CompletionGuard(ConfigOf(s.tier).monthlyCompletions, s.completionsUsed)
  }

  /**
   * The two completion tests differ on the -1 sentinel: `hasCompletionsRemaining`
   * reports completions left while `useCompletion` refuses. For every allotment
   * other than -1 and a non-negative count they agree.
   */
  lemma CompletionTestsOnSentinel(monthly: int, used: int)
    requires used >= 0
    ensures monthly == Unlimited ==> WithinAllotment(monthly, used) && !CompletionGuard(monthly, used)
    ensures monthly != Unlimited ==> (WithinAllotment(monthly, used) <==> CompletionGuard(monthly, used))
  {
  }

  /** The record after `useCredits(amount)` succeeded: the balance drops by exactly `amount`. */
  function Debited(s: SubscriptionState, amount: real, now: int): (r: SubscriptionState)
    requires HasCreditsRemaining(s, amount)
    ensures r.creditsRemaining == s.creditsRemaining - amount && r.creditsRemaining >= 0.0
    ensures r == s.(creditsRemaining := r.creditsRemaining, lastActivity := Some(now))
    ensures s.WellFormed() ==> r.WellFormed()
  {
    s.(creditsRemaining := s.creditsRemaining - amount, lastActivity := Some(now))
  }

  /** The record after `useCompletion` succeeded: one more completion, still within the allotment. */
  function CompletionCounted(s: SubscriptionState, now: int): (r: SubscriptionState)
    requires CompletionAvailable(s)
    ensures r.completionsUsed == s.completionsUsed + 1 <= ConfigOf(s.tier).monthlyCompletions
    ensures r == s.(completionsUsed := r.completionsUsed, lastActivity := Some(now))
    ensures s.WellFormed() ==> r.WellFormed()
  {
    s.(completionsUsed := s.completionsUsed + 1, lastActivity := Some(now))
  }

  /** The record after `createProject` succeeded: one more project, within a finite limit. */
  function ProjectCounted(s: SubscriptionState, now: int): (r: SubscriptionState)
    requires CanCreateProject(s)
    ensures r.projectsCreated == s.projectsCreated + 1
    ensures ConfigOf(s.tier).projectLimit != Unlimited ==> r.projectsCreated <= ConfigOf(s.tier).projectLimit
    ensures r == s.(projectsCreated := r.projectsCreated, lastActivity := Some(now))
    ensures s.WellFormed() ==> r.WellFormed()
  {
    s.(projectsCreated := s.projectsCreated + 1, lastActivity := Some(now))
  }

  /**
   * The record after `resetMonthlyUsage`: no completion used, and the tier's
   * monthly credits added to (not written over) the balance.
   */
  function MonthReset(s: SubscriptionState, now: int): (r: SubscriptionState)
    ensures r.completionsUsed == 0
    ensures r.creditsRemaining == s.creditsRemaining + ConfigOf(s.tier).monthlyCredits as real
    ensures r.creditsRemaining > s.creditsRemaining
    ensures r == s.(completionsUsed := 0, creditsRemaining := r.creditsRemaining, lastActivity := Some(now))
    ensures s.WellFormed() ==> r.WellFormed()
  {
    s.(completionsUsed := 0,
       creditsRemaining := s.creditsRemaining + ConfigOf(s.tier).monthlyCredits as real,
       lastActivity := Some(now))
  }

  /**
   * The record after `purchaseCreditPackage`: the package's credits added, dual AI
   * unlocked whatever it was before; the package's `completions` are not credited.
   */
  function Purchased(s: SubscriptionState, key: CreditPackages.PackageKey, now: int): (r: SubscriptionState)
    ensures r.creditsRemaining == s.creditsRemaining + CreditPackages.PackageOf(key).credits as real
    ensures r.hasDualAI
    ensures r.tier == s.tier && r.completionsUsed == s.completionsUsed && r.projectsCreated == s.projectsCreated
    ensures r == s.(creditsRemaining := r.creditsRemaining, hasDualAI := true, lastActivity := Some(now))
    ensures s.WellFormed() ==> r.WellFormed()
  {
    var package := CreditPackages.PackageOf(key);
    s.(creditsRemaining := s.creditsRemaining + package.credits as real,
       hasDualAI := true,
       lastActivity := Some(now))
  }

  /** `useCredits`. */
  method UseCredits(user: UserSubscription, amount: real, now: int) returns (ok: bool)
    modifies user
    ensures ok == HasCreditsRemaining(old(user.Value()), amount)
    ensures user.Value() == if ok then Debited(old(user.Value()), amount, now) else old(user.Value())
  {
    if user.creditsRemaining >= amount {
      user.creditsRemaining := user.creditsRemaining - amount;
      user.lastActivity := Some(now);
      return true;
    }
    return false;
  }

  /** `useCompletion`. */
  method UseCompletion(user: UserSubscription, now: int) returns (ok: bool)
    modifies user
    ensures ok == CompletionAvailable(old(user.Value()))
    ensures user.Value() == if ok then CompletionCounted(old(user.Value()), now) else old(user.Value())
  {
    var config := ConfigOf(user.tier);
    if config.monthlyCompletions == 0 {
      return false;
    }
    if user.completionsUsed < config.monthlyCompletions {
      user.completionsUsed := user.completionsUsed + 1;
      user.lastActivity := Some(now);
      return true;
    }
    return false;
  }

  /** `createProject` (the project name is accepted and ignored). */
  method CreateProject(user: UserSubscription, projectName: Option<string>, now: int) returns (ok: bool)
    modifies user
    ensures ok == CanCreateProject(old(user.Value()))
    ensures user.Value() == if ok then ProjectCounted(old(user.Value()), now) else old(user.Value())
  {
    if !CanCreateProject(user.Value()) {
      return false;
    }
    user.projectsCreated := user.projectsCreated + 1;
    user.lastActivity := Some(now);
    return true;
  }

  /** `resetMonthlyUsage`. */
  method ResetMonthlyUsage(user: UserSubscription, now: int)
    modifies user
    ensures user.Value() == MonthReset(old(user.Value()), now)
  {
    var config := ConfigOf(user.tier);
    user.completionsUsed := 0;
    user.creditsRemaining := user.creditsRemaining + config.monthlyCredits as real;
    user.lastActivity := Some(now);
  }

  /** `purchaseCreditPackage`: always reports success. */
  method PurchaseCreditPackage(user: UserSubscription, key: CreditPackages.PackageKey, now: int)
    returns (ok: bool)
    modifies user
    ensures ok
    ensures user.Value() == Purchased(old(user.Value()), key, now)
  {
    var package := CreditPackages.PackageOf(key);
    user.creditsRemaining := user.creditsRemaining + package.credits as real;
    if !user.hasDualAI {
      user.hasDualAI := true;
    }
    user.lastActivity := Some(now);
    return true;
  }

  /** The record `getProjectUsage` returns. */
  datatype ProjectUsage = ProjectUsage(used: int, limit: int, canCreate: bool)

  /** `getProjectUsage`: the count, the tier's limit, and whether one more project is allowed. */
  function GetProjectUsage(s: SubscriptionState): (r: ProjectUsage)
    ensures r.used == s.projectsCreated && r.limit == ConfigOf(s.tier).projectLimit
    ensures r.canCreate <==> CanCreateProject(s)
    ensures r.canCreate <==> r.limit == Unlimited || r.used < r.limit
  {
    ProjectUsage(s.projectsCreated, ConfigOf(s.tier).projectLimit, CanCreateProject(s))
  }

  /** The record `getUsageSummary` returns. */
  datatype UsageSummary = UsageSummary(
    tier: Tier,
    creditsRemaining: real,
    monthlyCredits: int,
    completionsUsed: int,
    completionsLimit: int,
    projectsCreated: int,
    projectLimit: int,
    hasDualAI: bool,
    requiresOwnKeys: bool)

  /**
   * `getUsageSummary`: the record's counters beside its tier's limits; the dual-AI
   * feature is `canUseDualAI`, so it is the record's flag, and only BYOK requires keys.
   */
  function GetUsageSummary(s: SubscriptionState): (r: UsageSummary)
    ensures r.tier == s.tier && r.creditsRemaining == s.creditsRemaining
    ensures r.completionsUsed == s.completionsUsed && r.projectsCreated == s.projectsCreated
    ensures r.monthlyCredits == ConfigOf(s.tier).monthlyCredits
    ensures r.completionsLimit == ConfigOf(s.tier).monthlyCompletions
    ensures r.projectLimit == ConfigOf(s.tier).projectLimit
    ensures r.hasDualAI <==> CanUseDualAI(s)
    ensures r.hasDualAI <==> s.hasDualAI
    ensures r.requiresOwnKeys <==> s.tier == MCPProByok
  {
    var config := ConfigOf(s.tier);
    UsageSummary(s.tier, s.creditsRemaining, config.monthlyCredits, s.completionsUsed,
                 config.monthlyCompletions, s.projectsCreated, config.projectLimit,
                 CanUseDualAI(s), config.requiresOwnKeys)
  }

  /**
   * The stored record and the stateless snapshot apply the same rules: the
   * snapshot of a record has a completion left exactly when the tracker says so,
   * and for every tier of the catalog `useCompletion` then succeeds.
   */
  lemma TrackerAgreesWithValidator(s: SubscriptionState)
    requires s.completionsUsed >= 0
    ensures var left := StatelessValidator.CompletionsRemaining(ConfigOf(s.tier).monthlyCompletions, s.completionsUsed);
      (StatelessValidator.Positive(left) <==> HasCompletionsRemaining(s))
      && (HasCompletionsRemaining(s) <==> CompletionAvailable(s))
  {
    CompletionTestsOnSentinel(ConfigOf(s.tier).monthlyCompletions, s.completionsUsed);
  }
}
