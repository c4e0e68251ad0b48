/** The reward service (reward.service.ts): buying goods appends a reward
    row; the reward list of a child comes with the candy it used in total. */
module Rewards {
  import opened Common

  datatype Reward = Reward(id: nat, childId: int, goodsName: string, usedCandy: int)

  function RewardId(r: Reward): int { r.id }
  function UsedCandy(r: Reward): int { r.usedCandy }

  function IsRewardOf(childId: int): Reward -> bool {
    (r: Reward) => r.childId == childId
  }

  /** `{ rewards, totalUsedCandy }`. */
  datatype RewardList = RewardList(rewards: seq<Reward>, totalUsedCandy: int)

  /** getRewards on the rows of the reward table. */
  function RewardsOf(rows: seq<Reward>, childId: int): (r: RewardList)
    ensures forall x :: x in r.rewards <==> x in rows && x.childId == childId
    ensures r.rewards == [] ==> r.totalUsedCandy == 0
  {
    var mine := Filter(rows, IsRewardOf(childId));
    RewardList(mine, SumOf(mine, UsedCandy))
  }

  /** A purchase of `usedCandy` by `childId` raises that child's total by
      exactly `usedCandy` and leaves every other child's total alone. */
  lemma PurchaseAddsToTotal(rows: seq<Reward>, purchase: Reward, childId: int)
    ensures RewardsOf(rows + [purchase], childId).totalUsedCandy
         == RewardsOf(rows, childId).totalUsedCandy + (if purchase.childId == childId then purchase.usedCandy else 0)
  {
    FilterAppend(rows, purchase, IsRewardOf(childId));
    assert IsRewardOf(childId)(purchase) == (purchase.childId == childId);
    var before := Filter(rows, IsRewardOf(childId));
    assert RewardsOf(rows, childId).totalUsedCandy == SumOf(before, UsedCandy);
    if purchase.childId == childId {
      SumOfAppend(before, purchase, UsedCandy);
      assert RewardsOf(rows + [purchase], childId).totalUsedCandy == SumOf(before + [purchase], UsedCandy);
    } else {
      assert Filter(rows + [purchase], IsRewardOf(childId)) == before;
    }
  }

  class RewardTable {
    var rows: seq<Reward>

    ghost predicate Valid()
      reads this
    {
      Numbered(rows, RewardId)
    }

    constructor (rows: seq<Reward>)
      requires Numbered(rows, RewardId)
      ensures Valid() && this.rows == rows
    {
      this.rows := rows;
    }
  }

  class RewardService {
    const rewards: RewardTable

    constructor (rewards: RewardTable)
      ensures this.rewards == rewards
    {
      this.rewards := rewards;
    }

    /** buyGoods: appends one reward row; no candy balance is checked or
        debited here, since this service holds no user table. */
    method BuyGoods(childId: int, goodsName: string, usedCandy: int) returns (r: Reward)
      requires rewards.Valid()
      modifies rewards
      ensures rewards.Valid()
      ensures r == Reward(|old(rewards.rows)| + 1, childId, goodsName, usedCandy)
      ensures rewards.rows == old(rewards.rows) + [r]
      ensures GetRewards(childId).totalUsedCandy == old(GetRewards(childId).totalUsedCandy) + usedCandy
    {
      r := Reward(|rewards.rows| + 1, childId, goodsName, usedCandy);
      NumberedAppend(rewards.rows, r, RewardId);
      PurchaseAddsToTotal(rewards.rows, r, childId);
      rewards.rows := rewards.rows + [r];
    }

    /** getRewards: the child's rewards (in table order) and the sum of their usedCandy. */
    function GetRewards(childId: int): (r: RewardList)
      reads rewards
      ensures forall x :: x in r.rewards <==> x in rewards.rows && x.childId == childId
      ensures r.totalUsedCandy == SumOf(r.rewards, UsedCandy)
    {
      RewardsOf(rewards.rows, childId)
    }
  }
}
