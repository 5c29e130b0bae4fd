/** The loyalty page (src/pages/LoyaltyProgram.tsx): the tier table, the
    current and next tier for a points balance, and which rewards can be
    redeemed. */
module Loyalty {
  import opened Wrappers

  datatype Tier = Tier(name: string, threshold: int, benefits: seq<string>)

  datatype Reward = Reward(id: string, name: string, points: int)

  const TierSystem: seq<Tier> := [
    Tier("Bronze", 0, ["Access to exclusive offers", "Birthday gift"]),
    Tier("Silver", 500, ["5% discount on all services", "Priority support", "Free shipping"]),
    Tier("Gold", 1000, ["10% discount on all services", "VIP support", "Free shipping",
                        "Early access to new services"]),
    Tier("Platinum", 2000, ["15% discount on all services", "Dedicated account manager", "Free shipping",
                            "Exclusive services"])
  ]

  const Rewards: seq<Reward> := [
    Reward("reward-1", "10% Off Coupon", 200),
    Reward("reward-2", "Free Service Upgrade", 500),
    Reward("reward-3", "$25 Service Credit", 1000)
  ]

  /** The balance the page starts with, both as spendable and as tier points. */
  const InitialPoints: int := 750

  /** The highest tier at or below index `i` whose threshold `points` reaches,
      or the first tier when none is reached. */
  function ReachedFrom(points: int, i: nat): (r: nat)
    requires i < |TierSystem|
    ensures r <= i
    ensures r == 0 || TierSystem[r].threshold <= points
    ensures forall j :: r < j <= i ==> TierSystem[j].threshold > points
  {
    if TierSystem[i].threshold <= points then i
    else if i == 0 then 0
    else ReachedFrom(points, i - 1)
  }

  /** The index of the tier `getCurrentTier` picks. */
  function CurrentTierIndex(points: int): (r: nat)
    ensures r < |TierSystem|
  {
    ReachedFrom(points, |TierSystem| - 1)
  }

  /** `getCurrentTier`: scan the table from the top and stop at the first tier
      whose threshold the points reach; the first tier is the default. */
  method GetCurrentTier(points: int) returns (currentTier: Tier)
    ensures currentTier == TierSystem[CurrentTierIndex(points)]
  {
    currentTier := TierSystem[0];
    var i := |TierSystem| - 1;
    while i >= 0
      invariant -1 <= i < |TierSystem|
      invariant currentTier == TierSystem[0]
      invariant forall j :: i < j < |TierSystem| ==> TierSystem[j].threshold > points
    {
      if points >= TierSystem[i].threshold {
        currentTier := TierSystem[i];
        break;
      }
      i := i - 1;
    }
  }

  /** The tier reached is the one with the highest threshold not above the
      points; any non-negative balance reaches at least Bronze. */
  lemma CurrentTierIsHighestReached(points: int)
    requires points >= 0
    ensures TierSystem[CurrentTierIndex(points)].threshold <= points
    ensures forall j :: CurrentTierIndex(points) < j < |TierSystem| ==> TierSystem[j].threshold > points
  {
  }

  /** More points never give a lower tier. */
  lemma CurrentTierMonotone(p1: int, p2: int)
    requires p1 <= p2
    ensures CurrentTierIndex(p1) <= CurrentTierIndex(p2)
  {
  }

  /** `tierSystem.findIndex(tier => tier.name === name)`, -1 when absent. */
  function FindTierIndex(name: string): (r: int)
    ensures -1 <= r < |TierSystem|
    ensures r == -1 <==> forall k :: 0 <= k < |TierSystem| ==> TierSystem[k].name != name
    ensures r >= 0 ==> TierSystem[r].name == name && forall k :: 0 <= k < r ==> TierSystem[k].name != name
  {
    FindTierFrom(name, 0)
  }

  function FindTierFrom(name: string, k: nat): (r: int)
    requires k <= |TierSystem|
    ensures -1 <= r < |TierSystem|
    ensures r == -1 <==> forall j :: k <= j < |TierSystem| ==> TierSystem[j].name != name
    ensures r >= 0 ==> k <= r && TierSystem[r].name == name && forall j :: k <= j < r ==> TierSystem[j].name != name
    decreases |TierSystem| - k
  {
    if k == |TierSystem| then -1
    else if TierSystem[k].name == name then k
    else FindTierFrom(name, k + 1)
  }

  /** `getNextTier`: the tier after the current one, looked up by name. It is
      the following row of the table, absent exactly at the top tier, and its
      threshold lies above the balance. */
  function GetNextTier(points: int): (r: Option<Tier>)
    ensures r.None? <==> CurrentTierIndex(points) == |TierSystem| - 1
    ensures r.Some? ==> r.value == TierSystem[CurrentTierIndex(points) + 1] && r.value.threshold > points
  {
    assert FindTierIndex(TierSystem[CurrentTierIndex(points)].name) == CurrentTierIndex(points);
    var currentTierIndex := FindTierIndex(TierSystem[CurrentTierIndex(points)].name);
    if currentTierIndex < |TierSystem| - 1 then Some(TierSystem[currentTierIndex + 1]) else None
  }

  /** `pointsToNextTier`: positive while a next tier exists, else 0. */
  function PointsToNextTier(points: int): (r: int)
    ensures r >= 0
    ensures r > 0 <==> GetNextTier(points).Some?
  {
    match GetNextTier(points)
    case Some(next) => next.threshold - points
    case None => 0
  }

  /** Only a balance of 2000 points or more, the Platinum threshold, leaves no
      tier to reach; below it the points still needed are positive. */
  lemma NextTierSpec(points: int)
    ensures GetNextTier(points).None? <==> points >= 2000
    ensures points < 2000 ==> PointsToNextTier(points) > 0
  {
  }

  /** The page's own balance: Silver, Gold next, 250 points to go. */
  lemma InitialBalanceTiers()
    ensures TierSystem[CurrentTierIndex(InitialPoints)].name == "Silver"
    ensures GetNextTier(InitialPoints) == Some(TierSystem[2]) && TierSystem[2].name == "Gold"
    ensures PointsToNextTier(InitialPoints) == 250
  {
    NextTierSpec(InitialPoints);
  }

  /** The reward button: disabled with "Not Enough Points" below the reward's
      price, otherwise enabled with "Redeem". */
  function RewardButton(currentPoints: int, reward: Reward): (r: (bool, string))
    ensures !r.0 <==> currentPoints >= reward.points
    ensures r.1 == "Redeem" <==> !r.0
  {
    (currentPoints < reward.points, if currentPoints >= reward.points then "Redeem" else "Not Enough Points")
  }

  /** With the page's balance the first two rewards are redeemable and the
      third is not. */
  lemma InitialBalanceRewards()
    ensures !RewardButton(InitialPoints, Rewards[0]).0 && !RewardButton(InitialPoints, Rewards[1]).0
    ensures RewardButton(InitialPoints, Rewards[2]).0
  {
  }
}
