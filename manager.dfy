/**
 * The stateful subscription manager (lib/subscriptions/manager.ts). It owns a
 * JS `Map` from user id to `UserSubscription` object, creates a record lazily on
 * the first lookup of an id, and delegates every usage rule to the tracker;
 * the tracker updates the stored object in place. `order` is the Map's
 * insertion order, which `getAllUsers` follows. `now` is the clock reading that
 * `new Date()` and `Date.now()` take, in milliseconds.
 *
 * The source writes `SubscriptionTier.FREE` (lines 14, 15) and
 * `SubscriptionTier.PRO_BYOK` (line 111), neither of which is a member of the
 * enum; they are read as MCP_FREE and MCP_PRO_BYOK.
 */
module Manager {
  import opened Wrappers
  import opened Schemas
  import opened Tiers
  import CreditPackages
  import Usage

  /** 30 days in milliseconds, the length of a subscription period. */
  const ThirtyDaysMs: int := 30 * 24 * 60 * 60 * 1000

  /** The record created for an id seen for the first time. */
  function NewUserState(userId: string, now: int): (s: SubscriptionState)
    ensures s.userId == userId && s.tier == MCPFree
    ensures s.creditsRemaining == ConfigOf(MCPFree).monthlyCredits as real
    ensures s.completionsUsed == 0 && s.projectsCreated == 0 && !s.hasDualAI
    ensures s.apiKeys.None? && s.subscriptionStart.None? && s.subscriptionEnd.None?
    ensures s.WellFormed()
  {
    SubscriptionState(userId, MCPFree, ConfigOf(MCPFree).monthlyCredits as real, 0, 0, false,
                      None, None, Some(now), None)
  }

  /** The record `getUserSubscription(userId)` returns, given the stored records. */
  function Lookup(m: map<string, SubscriptionState>, userId: string, now: int): SubscriptionState {
    if userId in m then m[userId] else NewUserState(userId, now)
  }

  /** The stored records after `getUserSubscription(userId)`: at most the one new entry. */
  function AfterLookup(m: map<string, SubscriptionState>, userId: string, now: int)
    : (r: map<string, SubscriptionState>)
    ensures r.Keys == m.Keys + {userId}
    ensures r[userId] == Lookup(m, userId, now)
    ensures forall k | k in m :: r[k] == m[k]
  {
    m[userId := Lookup(m, userId, now)]
  }

  /** A second lookup of the same id returns the record of the first and creates nothing. */
  lemma LookupIsIdempotent(m: map<string, SubscriptionState>, userId: string, t1: int, t2: int)
    ensures AfterLookup(AfterLookup(m, userId, t1), userId, t2) == AfterLookup(m, userId, t1)
    ensures Lookup(AfterLookup(m, userId, t1), userId, t2) == Lookup(m, userId, t1)
  {
  }

  /** Changing the looked-up record is changing the entry of `userId`. */
  lemma SetAfterLookup(m: map<string, SubscriptionState>, userId: string, now: int, x: SubscriptionState)
    ensures AfterLookup(m, userId, now)[userId := x] == m[userId := x]
  {
  }

  /** A JS-falsy key: absent or the empty string. */
  predicate Falsy(key: Option<string>) {
    key.None? || key.value == ""
  }

  /** `!apiKeys?.v0ApiKey || !apiKeys?.claudeApiKey`. */
  predicate ByokKeysMissing(keys: Option<ApiKeys>) {
    keys.None? || Falsy(keys.value.v0ApiKey) || Falsy(keys.value.claudeApiKey)
  }

  /** Why `upgradeSubscription` throws. */
  datatype UpgradeError = MissingByokKeys

  /**
   * The record after a successful `upgradeSubscription`: the new tier, its monthly
   * credits added to the balance, its dual-AI flag (which can clear a purchased
   * unlock), a 30-day period from `now`, and the supplied keys when there are any.
   */
  function Upgraded(s: SubscriptionState, newTier: Tier, keys: Option<ApiKeys>, now: int)
    : (r: SubscriptionState)
    ensures r.tier == newTier
    ensures r.creditsRemaining == s.creditsRemaining + ConfigOf(newTier).monthlyCredits as real
    ensures r.hasDualAI == ConfigOf(newTier).hasDualAI
    ensures r.subscriptionStart == Some(now) && r.subscriptionEnd == Some(now + ThirtyDaysMs)
    ensures r.apiKeys == if keys.Some? then keys else s.apiKeys
    ensures r.userId == s.userId && r.completionsUsed == s.completionsUsed
    ensures r.projectsCreated == s.projectsCreated && r.lastActivity == Some(now)
    ensures s.WellFormed() ==> r.WellFormed()
  {
    s.(tier := newTier,
       creditsRemaining := s.creditsRemaining + ConfigOf(newTier).monthlyCredits as real,
       hasDualAI := ConfigOf(newTier).hasDualAI,
       subscriptionStart := Some(now),
       subscriptionEnd := Some(now + ThirtyDaysMs),
       lastActivity := Some(now),
       apiKeys := if keys.Some? then keys else s.apiKeys)
  }

  /** The field updates of a successful `upgradeSubscription`, applied to the stored object. */
  method ApplyUpgrade(user: UserSubscription, newTier: Tier, apiKeys: Option<ApiKeys>, now: int)
    modifies user
    ensures user.Value() == Upgraded(old(user.Value()), newTier, apiKeys, now)
  {
    var config := ConfigOf(newTier);
    user.tier := newTier;
    user.creditsRemaining := user.creditsRemaining + config.monthlyCredits as real;
    user.hasDualAI := config.hasDualAI;
    user.subscriptionStart := Some(now);
    user.subscriptionEnd := Some(now + ThirtyDaysMs);
    user.lastActivity := Some(now);
    if apiKeys.Some? {
      user.apiKeys := apiKeys;
    }
  }

  /** Upgrading to the free tier takes away a dual-AI unlock bought with a credit package. */
  lemma UpgradeCanRevokePurchasedUnlock(s: SubscriptionState, keys: Option<ApiKeys>, now: int)
    requires s.hasDualAI
    ensures !Upgraded(s, MCPFree, keys, now).hasDualAI
    ensures Upgraded(s, MCPPro, keys, now).hasDualAI
  {
  }

  /** No id occurs twice. */
  predicate Distinct(s: seq<string>) {
    forall i, j | 0 <= i < j < |s| :: s[i] != s[j]
  }

  /** `r` can be obtained from `s` by dropping elements, keeping the rest in order. */
  predicate SubsequenceOf(r: seq<string>, s: seq<string>)
    decreases |s|
  {
    r == [] || (|s| > 0 && if r[0] == s[0] then SubsequenceOf(r[1..], s[1..]) else SubsequenceOf(r, s[1..]))
  }

  /** `s` with every occurrence of `x` removed, the rest in order (the Map's `delete`). */
  function Without(s: seq<string>, x: string): (r: seq<string>)
    ensures forall y :: y in r <==> y in s && y != x
    ensures SubsequenceOf(r, s)
    ensures Distinct(s) ==> Distinct(r)
    ensures x !in s ==> r == s
    decreases |s|
  {
    if s == [] then []
    else if s[0] == x then Without(s[1..], x)
    else
      var rest := Without(s[1..], x);
      assert Distinct(s) ==> s[0] !in s[1..];
      assert ([s[0]] + rest)[1..] == rest;
      [s[0]] + rest
  }

  class SubscriptionManager {
    var users: map<string, UserSubscription>
    var order: seq<string>

    /**
     * Every record sits under its own user id and is well formed (no negative
     * balance or counter); `order` lists each stored id once.
     */
    ghost predicate Valid()
      reads this, users.Values
    {
      && (forall k | k in users :: users[k].userId == k && users[k].Value().WellFormed())
      && (forall k :: k in users <==> k in order)
      && Distinct(order)
    }

    /** The stored records' values. */
    ghost function Records(): map<string, SubscriptionState>
      reads this, users.Values
    {
      map k | k in users :: users[k].Value()
    }

    /**
     * The Map after a lookup of `userId` that found the records `oldUsers`: the
     * same objects under the same ids, plus possibly a new entry for `userId`
     * appended to the insertion order.
     */
    ghost predicate KeptAfterLookup(oldUsers: map<string, UserSubscription>, oldOrder: seq<string>,
                                    userId: string)
      reads this
    {
      && users.Keys == oldUsers.Keys + {userId}
      && (forall k | k in oldUsers :: users[k] == oldUsers[k])
      && order == if userId in oldUsers then oldOrder else oldOrder + [userId]
    }

    /** Storing a fresh, well-formed record under a new id keeps the invariant. */
    twostate lemma InsertedKeepsValid(new u: UserSubscription)
      requires old(Valid()) && u.userId !in old(users)
      requires users == old(users)[u.userId := u] && order == old(order) + [u.userId]
      requires u.Value().WellFormed()
      requires forall k | k in old(users) :: unchanged(old(users)[k])
      ensures Valid()
    {
      assert forall k | k in old(users) :: users[k] == old(users[k]) && users[k].Value() == old(users[k].Value());
      forall i, j | 0 <= i < j < |order| ensures order[i] != order[j] {
        if j == |order| - 1 {
          assert order[i] in old(order);
        }
      }
    }

    /** Storing a record under a new id adds its value and changes no other. */
    twostate lemma InsertedRecords(new u: UserSubscription)
      requires u.userId !in old(users) && users == old(users)[u.userId := u]
      requires forall k | k in old(users) :: unchanged(old(users)[k])
      ensures Records() == old(Records())[u.userId := u.Value()]
    {
      assert forall k | k in old(users) :: users[k] == old(users[k]) && users[k].Value() == old(users[k].Value());
    }

    constructor ()
      ensures Valid() && users == map[] && order == []
    {
      users := map[];
      order := [];
    }

    /**
     * `getUserSubscription`: the stored object for a known id, unchanged and by
     * identity; for an unseen id a fresh free-tier record, stored under that id.
     */
    method GetUserSubscription(userId: string, now: int) returns (u: UserSubscription)
      requires Valid()
      modifies this
      ensures Valid() && KeptAfterLookup(old(users), old(order), userId)
      ensures userId in users && u == users[userId] && u.userId == userId
      ensures userId in old(users) ==> u == old(users[userId]) && users == old(users)
      ensures userId !in old(users) ==> fresh(u) && u.Value() == NewUserState(userId, now)
      ensures Records() == AfterLookup(old(Records()), userId, now)
      ensures u.Value() == Lookup(old(Records()), userId, now)
    {
      if userId !in users {
        var newUser := new UserSubscription(NewUserState(userId, now));
        users := users[userId := newUser];
        order := order + [userId];
        InsertedKeepsValid(newUser);
        InsertedRecords(newUser);
      }
      u := users[userId];
    }

    /**
     * `updateUser`: `users.set(user.userId, user)`. Given the object already
     * stored under its id, as every caller in the source does after changing the
     * object the lookup returned, it changes nothing at all (the last ensures);
     * the methods below therefore leave that call out.
     */
    method UpdateUser(u: UserSubscription)
      requires Valid() && u.Value().WellFormed()
      modifies this
      ensures Valid()
      ensures users == old(users)[u.userId := u]
      ensures order == if u.userId in old(users) then old(order) else old(order) + [u.userId]
      ensures u.userId in old(users) && old(users[u.userId]) == u ==> unchanged(this)
    {
      if u.userId !in users {
        order := order + [u.userId];
      }
      assert u.userId in users && users[u.userId] == u ==> users[u.userId := u] == users;
      users := users[u.userId := u];
    }

    /** `canUseDualAI(userId)`. */
    method CanUseDualAI(userId: string, now: int) returns (b: bool)
      requires Valid()
      modifies this
      ensures Valid() && KeptAfterLookup(old(users), old(order), userId)
      ensures Records() == AfterLookup(old(Records()), userId, now)
      ensures b == Usage.CanUseDualAI(Lookup(old(Records()), userId, now))
    {
      var user := GetUserSubscription(userId, now);
      b := Usage.CanUseDualAI(user.Value());
    }

    /** `canCreateProject(userId)`. */
    method CanCreateProject(userId: string, now: int) returns (b: bool)
      requires Valid()
      modifies this
      ensures Valid() && KeptAfterLookup(old(users), old(order), userId)
      ensures Records() == AfterLookup(old(Records()), userId, now)
      ensures b == Usage.CanCreateProject(Lookup(old(Records()), userId, now))
    {
      var user := GetUserSubscription(userId, now);
      b := Usage.CanCreateProject(user.Value());
    }

    /** `hasCreditsRemaining(userId, requiredCredits)`; callers pass 1 for the default. */
    method HasCreditsRemaining(userId: string, requiredCredits: real, now: int) returns (b: bool)
      requires Valid()
      modifies this
      ensures Valid() && KeptAfterLookup(old(users), old(order), userId)
      ensures Records() == AfterLookup(old(Records()), userId, now)
      ensures b == Usage.HasCreditsRemaining(Lookup(old(Records()), userId, now), requiredCredits)
    {
      var user := GetUserSubscription(userId, now);
      b := Usage.HasCreditsRemaining(user.Value(), requiredCredits);
    }

    /** `hasCompletionsRemaining(userId)`. */
    method HasCompletionsRemaining(userId: string, now: int) returns (b: bool)
      requires Valid()
      modifies this
      ensures Valid() && KeptAfterLookup(old(users), old(order), userId)
      ensures Records() == AfterLookup(old(Records()), userId, now)
      ensures b == Usage.HasCompletionsRemaining(Lookup(old(Records()), userId, now))
    {
      var user := GetUserSubscription(userId, now);
      b := Usage.HasCompletionsRemaining(user.Value());
    }

    /** `getProjectUsage(userId)`. */
    method GetProjectUsage(userId: string, now: int) returns (r: Usage.ProjectUsage)
      requires Valid()
      modifies this
      ensures Valid() && KeptAfterLookup(old(users), old(order), userId)
      ensures Records() == AfterLookup(old(Records()), userId, now)
      ensures r == Usage.GetProjectUsage(Lookup(old(Records()), userId, now))
    {
      var user := GetUserSubscription(userId, now);
      r := Usage.GetProjectUsage(user.Value());
    }

    /** `getUsageSummary(userId)`. */
    method GetUsageSummary(userId: string, now: int) returns (r: Usage.UsageSummary)
      requires Valid()
      modifies this
      ensures Valid() && KeptAfterLookup(old(users), old(order), userId)
      ensures Records() == AfterLookup(old(Records()), userId, now)
      ensures r == Usage.GetUsageSummary(Lookup(old(Records()), userId, now))
    {
      var user := GetUserSubscription(userId, now);
      r := Usage.GetUsageSummary(user.Value());
    }

    /** `getUserApiKeys(userId)`: the stored keys, or none (`null`). */
    method GetUserApiKeys(userId: string, now: int) returns (keys: Option<ApiKeys>)
      requires Valid()
      modifies this
      ensures Valid() && KeptAfterLookup(old(users), old(order), userId)
      ensures Records() == AfterLookup(old(Records()), userId, now)
      ensures keys == Lookup(old(Records()), userId, now).apiKeys
    {
      var user := GetUserSubscription(userId, now);
      keys := user.apiKeys;
    }

    /**
     * `useCredits(userId, amount)`: the tracker's answer, and only this user's
     * record changes, by the tracker's rule.
     */
    method UseCredits(userId: string, amount: real, now: int) returns (ok: bool)
      requires Valid()
      modifies this, users.Values
      ensures Valid() && KeptAfterLookup(old(users), old(order), userId)
      ensures var before := Lookup(old(Records()), userId, now);
        && ok == Usage.HasCreditsRemaining(before, amount)
        && Records() == old(Records())[userId := if ok then Usage.Debited(before, amount, now) else before]
    {
      var user := GetUserSubscription(userId, now);
      label Looked:
      ok := Usage.UseCredits(user, amount, now);
      OnlyThisRecordChanged@Looked(user);
      SetAfterLookup(old(Records()), userId, now, user.Value());
    }

    /** `useCompletion(userId)`. */
    method UseCompletion(userId: string, now: int) returns (ok: bool)
      requires Valid()
      modifies this, users.Values
      ensures Valid() && KeptAfterLookup(old(users), old(order), userId)
      ensures var before := Lookup(old(Records()), userId, now);
        && ok == Usage.CompletionAvailable(before)
        && Records() == old(Records())[userId := if ok then Usage.CompletionCounted(before, now) else before]
    {
      var user := GetUserSubscription(userId, now);
      label Looked:
      ok := Usage.UseCompletion(user, now);
      OnlyThisRecordChanged@Looked(user);
      SetAfterLookup(old(Records()), userId, now, user.Value());
    }

    /** `createProject(userId, projectName)`. */
    method CreateProject(userId: string, projectName: Option<string>, now: int) returns (ok: bool)
      requires Valid()
      modifies this, users.Values
      ensures Valid() && KeptAfterLookup(old(users), old(order), userId)
      ensures var before := Lookup(old(Records()), userId, now);
        && ok == Usage.CanCreateProject(before)
        && Records() == old(Records())[userId := if ok then Usage.ProjectCounted(before, now) else before]
    {
      var user := GetUserSubscription(userId, now);
      label Looked:
      ok := Usage.CreateProject(user, projectName, now);
      OnlyThisRecordChanged@Looked(user);
      SetAfterLookup(old(Records()), userId, now, user.Value());
    }

    /** `purchaseCreditPackage(userId, packageKey)`: always succeeds. */
    method PurchaseCreditPackage(userId: string, key: CreditPackages.PackageKey, now: int)
      returns (ok: bool)
      requires Valid()
      modifies this, users.Values
      ensures Valid() && KeptAfterLookup(old(users), old(order), userId)
      ensures ok
      ensures Records() == old(Records())[userId := Usage.Purchased(Lookup(old(Records()), userId, now), key, now)]
    {
      var user := GetUserSubscription(userId, now);
      label Looked:
      ok := Usage.PurchaseCreditPackage(user, key, now);
      OnlyThisRecordChanged@Looked(user);
      SetAfterLookup(old(Records()), userId, now, user.Value());
    }

    /**
     * `upgradeSubscription`: throws before changing any field when the BYOK tier is
     * asked for without both keys (the lookup has already stored a new record for
     * an unseen id); otherwise applies `Upgraded` to this user's record only.
     */
    method UpgradeSubscription(userId: string, newTier: Tier, apiKeys: Option<ApiKeys>, now: int)
      returns (r: Result<bool, UpgradeError>)
      requires Valid()
      modifies this, users.Values
      ensures Valid() && KeptAfterLookup(old(users), old(order), userId)
      ensures newTier == MCPProByok && ByokKeysMissing(apiKeys) ==>
        r == Failure(MissingByokKeys) && Records() == AfterLookup(old(Records()), userId, now)
      ensures !(newTier == MCPProByok && ByokKeysMissing(apiKeys)) ==>
        && r == Success(true)
        && Records() == old(Records())[userId := Upgraded(Lookup(old(Records()), userId, now), newTier, apiKeys, now)]
    {
      var user := GetUserSubscription(userId, now);
      label Looked:
      if newTier == MCPProByok {
        if ByokKeysMissing(apiKeys) {
          return Failure(MissingByokKeys);
        }
      }

      ApplyUpgrade(user, newTier, apiKeys, now);
      OnlyThisRecordChanged@Looked(user);
      SetAfterLookup(old(Records()), userId, now, user.Value());
      return Success(true);
    }

    /** `resetMonthlyUsage(userId)`: the tracker's reset, on this user's record only. */
    method ResetMonthlyUsage(userId: string, now: int)
      requires Valid()
      modifies this, users.Values
      ensures Valid() && KeptAfterLookup(old(users), old(order), userId)
      ensures Records() == old(Records())[userId := Usage.MonthReset(Lookup(old(Records()), userId, now), now)]
    {
      var user := GetUserSubscription(userId, now);
      label Looked:
      Usage.ResetMonthlyUsage(user, now);
      OnlyThisRecordChanged@Looked(user);
      SetAfterLookup(old(Records()), userId, now, user.Value());
    }

    /**
     * `getAllUsers`: every stored record exactly once, in insertion order.
     */
    method GetAllUsers() returns (all: seq<UserSubscription>)
      requires Valid()
      ensures |all| == |order| && |all| == |users|
      ensures forall i | 0 <= i < |all| :: order[i] in users && all[i] == users[order[i]]
      ensures forall u :: u in all <==> u in users.Values
      ensures forall i, j | 0 <= i < j < |all| :: all[i] != all[j]
    {
      all := [];
      var i := 0;
      while i < |order|
        invariant 0 <= i <= |order|
        invariant |all| == i
        invariant forall j | 0 <= j < i :: order[j] in users && all[j] == users[order[j]]
      {
        all := all + [users[order[i]]];
        i := i + 1;
      }
      forall u | u in users.Values ensures u in all {
        var k :| k in users && users[k] == u;
        var j :| 0 <= j < |order| && order[j] == k;
        assert all[j] == u;
      }
      forall i, j | 0 <= i < j < |all| ensures all[i] != all[j] {
        assert all[i].userId == order[i] && all[j].userId == order[j];
      }
      DistinctKeysCount(order, users.Keys);
    }

    /** `deleteUser(userId)`: removes the entry; reports whether there was one. */
    method DeleteUser(userId: string) returns (present: bool)
      requires Valid()
      modifies this
      ensures Valid()
      ensures present == (userId in old(users))
      ensures users == old(users) - {userId} && order == Without(old(order), userId)
      ensures Records() == old(Records()) - {userId}
    {
      present := userId in users;
      users := users - {userId};
      order := Without(order, userId);
      RemovedKeepsValid(userId);
      RemovedRecords(userId);
    }

    /** Removing an id and its record keeps the invariant. */
    twostate lemma RemovedKeepsValid(userId: string)
      requires old(Valid())
      requires users == old(users) - {userId} && order == Without(old(order), userId)
      requires forall k | k in users :: unchanged(users[k])
      ensures Valid()
    {
      assert forall k | k in users :: users[k] == old(users[k]) && users[k].Value() == old(users[k].Value());
    }

    /** Removing an id removes its record's value and no other. */
    twostate lemma RemovedRecords(userId: string)
      requires users == old(users) - {userId}
      requires forall k | k in users :: unchanged(users[k])
      ensures Records() == old(Records()) - {userId}
    {
      assert forall k | k in users :: users[k] == old(users[k]) && users[k].Value() == old(users[k].Value());
    }

    /**
     * After the tracker changed `u`, the stored record `users[u.userId]`, no other
     * stored record has changed, and the invariant holds again if `u` is well formed.
     */
    twostate lemma OnlyThisRecordChanged(u: UserSubscription)
      requires old(Valid()) && u.userId in old(users) && old(users[u.userId]) == u
      requires unchanged(this)
      requires forall k | k in old(users) && k != u.userId :: unchanged(old(users)[k])
      ensures Records() == old(Records())[u.userId := u.Value()]
      ensures u.Value().WellFormed() ==> Valid()
    {
      forall k | k in users && k != u.userId ensures users[k] != u && unchanged(users[k]) {
        assert users[k].userId == k;
      }
    }
  }

  /** A sequence of distinct ids that lists exactly the keys of a map has as many entries. */
  lemma {:induction false} DistinctKeysCount(s: seq<string>, keys: set<string>)
    requires Distinct(s)
    requires forall k :: k in keys <==> k in s
    ensures |s| == |keys|
    decreases |s|
  {
    if s != [] {
      var rest := s[1..];
      assert Distinct(rest);
      assert s[0] !in rest;
      forall k ensures k in keys - {s[0]} <==> k in rest {
        if k in s && k != s[0] {
          var j :| 0 <= j < |s| && s[j] == k;
          assert j > 0 && rest[j - 1] == k;
        }
      }
      DistinctKeysCount(rest, keys - {s[0]});
    }
  }
}
