/** The tiers of subscriptions.py and the policy each one buys. */
module Subscriptions {
  import opened Wrappers

  datatype Tier = Free | Standard | Premium

  datatype BackupPolicy = BackupPolicy(intervalDays: nat, retainCount: nat)

  const SECONDS_PER_DAY := 86400

  function PolicyFor(tier: Tier): (policy: BackupPolicy)
    ensures policy.retainCount >= 1
  {
    match tier
    case Free => BackupPolicy(30, 1)
    case Standard => BackupPolicy(7, 4)
    case Premium => BackupPolicy(1, 30)
  }

  /** Seconds between scheduled rollups. The override comes from the settings, which put no bound
      on it. */
  function Interval(overrideSeconds: Option<int>, tier: Tier): (seconds: int)
    ensures overrideSeconds.Some? ==> seconds == overrideSeconds.value
    ensures overrideSeconds.None? ==>
              && (tier.Free? ==> seconds == 2592000)
              && (tier.Standard? ==> seconds == 604800)
              && (tier.Premium? ==> seconds == 86400)
  {
    match overrideSeconds
    case Some(seconds) => seconds
    case None => PolicyFor(tier).intervalDays * SECONDS_PER_DAY
  }

  function Retain(tier: Tier): (count: nat)
    ensures tier.Free? ==> count == 1
    ensures tier.Standard? ==> count == 4
    ensures tier.Premium? ==> count == 30
  {
    PolicyFor(tier).retainCount
  }
}
