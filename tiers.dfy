/**
 * The subscription tier catalog (lib/subscriptions/tiers/): one constant config
 * per tier and `SubscriptionConfigs`, the object literal keyed by the tier enum's
 * string values. `-1` stands for "unlimited" in `projectLimit` and
 * `monthlyCompletions`, as in the source.
 */
module Tiers {
  import opened Schemas

  /** The "unlimited" sentinel of the config limits. */
  const Unlimited: int := -1

  /**
   * A tier configuration. `price` and `monthlyCredits` are US dollars. The
   * `features` arrays of the source are display text and are not modelled.
   */
  datatype TierConfig = TierConfig(
    tier: Tier,
    price: int,
    monthlyCredits: int,
    projectLimit: int,
    monthlyCompletions: int,
    hasDualAI: bool,
    requiresOwnKeys: bool)

  /** FREE_TIER_CONFIG: no completions, so every AI action is paid in credits. */
  function FreeTierConfig(): (c: TierConfig)
    ensures c.tier == MCPFree && c.price == 0
    ensures c.projectLimit != Unlimited && c.projectLimit > 0
    ensures c.monthlyCompletions == 0 && c.monthlyCredits > 0
    ensures !c.hasDualAI && !c.requiresOwnKeys
  {
    TierConfig(MCPFree, 0, 5, 200, 0, false, false)
  }

  /** PRO_TIER_CONFIG: unlimited projects, dual AI, the service's own keys. */
  function ProTierConfig(): (c: TierConfig)
    ensures c.tier == MCPPro && c.price > 0
    ensures c.projectLimit == Unlimited && c.monthlyCompletions > 0
    ensures c.hasDualAI && !c.requiresOwnKeys
  {
    TierConfig(MCPPro, 20, 20, Unlimited, 300, true, false)
  }

  /**
   * PRO_BYOK_TIER_CONFIG. Its `tier` property is written `SubscriptionTier.PRO_BYOK`,
   * which is not a member of the enum (lib/subscriptions/tiers/byok.ts:4); it is
   * read here as the evident MCP_PRO_BYOK. Half the Pro price, the same credits and
   * allotments as Pro, and the user's own provider keys are required.
   */
  function ProByokTierConfig(): (c: TierConfig)
    ensures c.tier == MCPProByok
    ensures 2 * c.price == ProTierConfig().price
    ensures c.monthlyCredits == ProTierConfig().monthlyCredits
    ensures c.projectLimit == Unlimited && c.monthlyCompletions == ProTierConfig().monthlyCompletions
    ensures c.hasDualAI && c.requiresOwnKeys
  {
    TierConfig(MCPProByok, 10, 20, Unlimited, 300, true, true)
  }

  /** SUBSCRIPTION_CONFIGS, keyed by the enum's string values. */
  const SubscriptionConfigs: map<string, TierConfig> :=
    map[
      TierValue(MCPFree) := FreeTierConfig(),
      TierValue(MCPPro) := ProTierConfig(),
      TierValue(MCPProByok) := ProByokTierConfig()
    ]

  /**
   * `SUBSCRIPTION_CONFIGS[tier]` for an actual enum value: always defined, it is
   * the config of that tier, and only the BYOK tier requires the user's own keys.
   */
  function ConfigOf(t: Tier): (c: TierConfig)
    ensures TierValue(t) in SubscriptionConfigs && SubscriptionConfigs[TierValue(t)] == c
    ensures c.tier == t
    ensures c.requiresOwnKeys <==> t == MCPProByok
    ensures c.hasDualAI <==> t != MCPFree
    ensures c.monthlyCredits > 0 && c.monthlyCompletions >= 0
    ensures c.projectLimit == Unlimited || c.projectLimit >= 0
  {
    SubscriptionConfigs[TierValue(t)]
  }

  /** The table has exactly three entries, one per enum member. */
  lemma ConfigsTotal()
    ensures SubscriptionConfigs.Keys == {"mcp_free", "mcp_pro", "mcp_pro_byok"}
    ensures forall s :: s in SubscriptionConfigs <==> TierFromValue(s).Some?
  {
  }
}
