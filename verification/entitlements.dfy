/**
 * Plan entitlements: the two fixed capability records (Free and Pro), the
 * plan-to-record lookup, the line-item limit check and the upsell message.
 * Pro's unlimited line-item count is `None` (no limit).
 */
module Entitlements {
  import opened Wrappers

  datatype Plan = Free | Pro

  datatype Entitlement = Entitlement(
    plan: Plan,
    maxLineItems: Option<nat>,   // None = no limit
    canExport: bool,
    canSaveCalculations: bool,
    canUsePrivateShares: bool,
    canCompareProvinces: bool,
    shareExpiryHours: nat)

  const FreeLineItemLimit: nat := 5

  function FreeEntitlements(): Entitlement {
    Entitlement(Free, Some(FreeLineItemLimit), false, false, false, false, 24)
  }

  function ProEntitlements(): Entitlement {
    Entitlement(Pro, None, true, true, true, true, 24 * 30)
  }

  /** All four capability flags hold at once (or fail at once). */
  predicate AllCapabilities(e: Entitlement) {
    e.canExport && e.canSaveCalculations && e.canUsePrivateShares && e.canCompareProvinces
  }

  predicate NoCapabilities(e: Entitlement) {
    !e.canExport && !e.canSaveCalculations && !e.canUsePrivateShares && !e.canCompareProvinces
  }

  /** The record granted to a plan: Pro for Pro, Free for everything else. */
  function GetEntitlements(plan: Plan): (e: Entitlement)
    ensures e.plan == plan
    ensures plan == Pro ==> AllCapabilities(e) && e.maxLineItems.None? && e.shareExpiryHours == 30 * 24
    ensures plan == Free ==> NoCapabilities(e) && e.maxLineItems == Some(5) && e.shareExpiryHours == 24
  {
    if plan == Pro then ProEntitlements() else assert FreeEntitlements().plan == Free; FreeEntitlements()
  }

  /** True when one more line item fits under the plan's limit. */
  function CanAddLineItem(currentCount: int, e: Entitlement): (ok: bool)
    ensures e.maxLineItems.None? ==> ok
    ensures e.maxLineItems.Some? ==> (ok <==> currentCount < e.maxLineItems.value)
  {
    match e.maxLineItems
    case None => true
    case Some(limit) => currentCount < limit
  }

  /** The check is downward closed: any smaller count is also allowed. */
  lemma CanAddDownwardClosed(n: int, m: int, e: Entitlement)
    requires CanAddLineItem(n, e) && m < n
    ensures CanAddLineItem(m, e)
  {
  }

  /** A Pro record accepts every count, however large. */
  lemma ProAlwaysAllows(n: int)
    ensures CanAddLineItem(n, GetEntitlements(Pro))
  {
  }

  /** The Free record accepts exactly the counts below five. */
  lemma FreeLimitIsFive(n: int)
    ensures CanAddLineItem(n, GetEntitlements(Free)) <==> n < 5
  {
  }

  lemma LimitExamples()
    ensures CanAddLineItem(3, FreeEntitlements()) && CanAddLineItem(4, FreeEntitlements())
    ensures !CanAddLineItem(5, FreeEntitlements()) && !CanAddLineItem(10, FreeEntitlements())
    ensures CanAddLineItem(100, ProEntitlements()) && CanAddLineItem(1000, ProEntitlements())
  {
  }

  const UpgradeLead: string := " is available with Pro"
  const UpgradeTail: string := ". Upgrade to unlock unlimited calculations, exports, and more!"

  /** The upsell text: the feature name, then a sentence naming the Pro plan. */
  function GetUpgradeMessage(feature: string): (msg: string)
    ensures |msg| > |feature| + 22
    ensures msg[..|feature|] == feature
    ensures msg[|feature| + 19..|feature| + 22] == "Pro"
  {
    var msg := feature + UpgradeLead + UpgradeTail;
    assert |UpgradeLead| == 22 && UpgradeLead[19..] == "Pro";
    assert msg[|feature| + 19..|feature| + 22] == UpgradeLead[19..];
    msg
  }
}
