/** The user service (user.service.ts): linking and unlinking children,
    crediting and spending candy, and the read-only views of a user's
    purchases, rewards and children. */
module UserServices {
  import opened Common
  import opened Entities
  import CandyTransactions

  /** The index of the first user row whose email is `email` (`findOne({ where: { email } })`). */
  function FirstWithEmail(rows: seq<User>, email: string): (r: Option<nat>)
    ensures r.Some? ==> r.value < |rows| && rows[r.value].email == Some(email)
    ensures r.Some? ==> forall j :: 0 <= j < r.value ==> rows[j].email != Some(email)
    ensures r.None? <==> forall u :: u in rows ==> u.email != Some(email)
    decreases |rows|
  {
    if rows == [] then None
    else if rows[0].email == Some(email) then Some(0)
    else
      match FirstWithEmail(rows[1..], email)
      case None => assert rows == [rows[0]] + rows[1..]; None
      case Some(k) => Some(k + 1)
  }

  function IsSpendOf(userId: int): CandyTransaction -> bool {
    (t: CandyTransaction) => t.userId == userId && t.kind == Spend
  }

  /** The statistics block of getChildRewards. */
  datatype RewardStats = RewardStats(totalAttempts: nat, correctCount: nat, totalCandyEarned: int)

  /** What getChildRewards returns (the month filter and the question title are not modelled). */
  datatype ChildRewards = ChildRewards(attempts: seq<QuizAttempt>, rewardAttempts: seq<QuizAttempt>, stats: RewardStats)

  function IsCorrectAttempt(a: QuizAttempt): bool { a.isCorrect }
  function EarnedReward(a: QuizAttempt): bool { a.rewardCandy > 0 }
  function RewardOf(a: QuizAttempt): int { a.rewardCandy }

  function IsAttemptOf(childId: int): QuizAttempt -> bool {
    (a: QuizAttempt) => a.childId == childId
  }

  /** The getChildRewards result for a child whose attempts, newest first, are `attempts`. */
  function RewardsSummary(attempts: seq<QuizAttempt>): (r: ChildRewards)
    ensures r.attempts == attempts
    ensures r.stats.totalAttempts == |attempts|
    ensures r.stats.correctCount == |Filter(attempts, IsCorrectAttempt)| <= r.stats.totalAttempts
    ensures forall a :: a in attempts && a.isCorrect ==> r.stats.correctCount > 0
    ensures r.stats.totalCandyEarned == SumOf(attempts, RewardOf)
    ensures forall a :: a in r.rewardAttempts <==> a in attempts && a.rewardCandy > 0
    ensures (forall a :: a in attempts ==> a.rewardCandy >= 0) ==> r.stats.totalCandyEarned >= 0
  {
    SumOfNonNegative(attempts, RewardOf);
    ChildRewards(
      attempts,
      Filter(attempts, EarnedReward),
      RewardStats(|attempts|, |Filter(attempts, IsCorrectAttempt)|, SumOf(attempts, RewardOf)))
  }

  /** Earned candy is additive: one more attempt adds exactly its reward to the total. */
  lemma EarnedAdds(attempts: seq<QuizAttempt>, a: QuizAttempt)
    ensures RewardsSummary(attempts + [a]).stats.totalCandyEarned
         == RewardsSummary(attempts).stats.totalCandyEarned + a.rewardCandy
  {
    SumOfAppend(attempts, a, RewardOf);
  }

  /** rewardAttempts keeps the order of the attempts it keeps. */
  lemma RewardAttemptsInOrder(attempts: seq<QuizAttempt>)
    requires StrictlyDecreasing(attempts, AttemptId)
    ensures StrictlyDecreasing(RewardsSummary(attempts).rewardAttempts, AttemptId)
  {
    var f := Filter(attempts, EarnedReward);
    forall i, j | 0 <= i < j < |f| ensures AttemptId(f[i]) > AttemptId(f[j]) {
      FilterOrderDecreasing(attempts, EarnedReward, i, j);
    }
  }

  lemma {:induction false} FilterOrderDecreasing(s: seq<QuizAttempt>, p: QuizAttempt -> bool, i: int, j: int)
    requires StrictlyDecreasing(s, AttemptId)
    requires 0 <= i < j < |Filter(s, p)|
    ensures AttemptId(Filter(s, p)[i]) > AttemptId(Filter(s, p)[j])
    decreases |s|
  {
    var init, last := s[..|s| - 1], s[|s| - 1];
    var f := Filter(init, p);
    if j < |f| {
      FilterOrderDecreasing(init, p, i, j);
    } else {
      var x := f[i];
      assert x in init;
      var k :| 0 <= k < |init| && init[k] == x;
      assert s[k] == x;
    }
  }

  class UserService {
    const users: UserTable
    const transactions: TransactionTable
    const attempts: AttemptTable

    ghost predicate Valid()
      reads users, transactions, attempts
    {
      users.Valid() && transactions.Valid() && attempts.Valid()
    }

    constructor (users: UserTable, attempts: AttemptTable, transactions: TransactionTable)
      ensures this.users == users && this.attempts == attempts && this.transactions == transactions
    {
      this.users := users;
      this.attempts := attempts;
      this.transactions := transactions;
    }

    /** addChild: the user with that email becomes a CHILD of `parentId`; the
        row as it was before the update is returned. */
    method AddChild(parentId: int, childEmail: string) returns (r: Result<User>)
      requires Valid()
      modifies users
      ensures Valid()
      ensures FirstWithEmail(old(users.rows), childEmail).None? ==>
        r == Err(ChildNotFound) && users.rows == old(users.rows)
      ensures FirstWithEmail(old(users.rows), childEmail).Some? ==>
        var k := FirstWithEmail(old(users.rows), childEmail).value;
        && r == Ok(old(users.rows)[k])
        && users.rows == old(users.rows)[k := old(users.rows)[k].(parentId := Some(parentId), role := Child)]
    {
      var found := FirstWithEmail(users.rows, childEmail);
      if found.None? {
        return Err(ChildNotFound);
      }
      var child := users.rows[found.value];
      // update(child.id, ...) touches the row whose id is child.id, i.e. row child.id - 1
      assert child.id == found.value + 1;
      var linked := child.(parentId := Some(parentId), role := Child);
      NumberedUpdate(users.rows, child.id - 1, linked, UserId);
      users.rows := users.rows[child.id - 1 := linked];
      r := Ok(child);
    }

    /** removeChild: only a child linked to this parent is unlinked; the role is kept. */
    method RemoveChild(parentId: int, childId: int) returns (r: Result<Ack>)
      requires Valid()
      modifies users
      ensures Valid()
      ensures var linked := exists u :: u in old(users.rows) && u.id == childId && u.parentId == Some(parentId);
        && (!linked ==> r == Err(ChildNotFound) && users.rows == old(users.rows))
        && (linked ==>
              && r == Ok(Ack(true))
              && users.rows == old(users.rows)[childId - 1 := old(users.rows)[childId - 1].(parentId := None)])
    {
      var found := users.Find(childId);
      if found.None? || found.value.parentId != Some(parentId) {
        return Err(ChildNotFound);
      }
      var unlinked := found.value.(parentId := None);
      NumberedUpdate(users.rows, childId - 1, unlinked, UserId);
      users.rows := users.rows[childId - 1 := unlinked];
      r := Ok(Ack(true));
    }

    /** incrementCandy: `UPDATE ... SET candy = candy + amount WHERE id = userId`;
        an unknown id matches no row and is not an error. */
    method IncrementCandy(userId: int, amount: int) returns (r: int)
      requires users.Valid()
      modifies users
      ensures users.Valid()
      ensures r == amount
      ensures |users.rows| == |old(users.rows)|
      ensures forall i :: 0 <= i < |users.rows| ==>
        users.rows[i] == if users.rows[i].id == userId
                         then old(users.rows[i]).(candy := old(users.rows[i]).candy + amount)
                         else old(users.rows[i])
    {
      if 1 <= userId <= |users.rows| {
        var u := users.rows[userId - 1];
        var credited := u.(candy := u.candy + amount);
        NumberedUpdate(users.rows, userId - 1, credited, UserId);
        users.rows := users.rows[userId - 1 := credited];
      }
      r := amount;
    }

    /** spendCandy (user.service.ts), the second copy of the ledger rule. */
    method SpendCandy(userId: int, amount: int, itemName: string) returns (r: Result<CandyTransactions.SpendReceipt>)
      requires Valid()
      modifies users, transactions
      ensures Valid()
      ensures CandyTransactions.SpendEffect(old(users.rows), users.rows, old(transactions.rows), transactions.rows,
                                            userId, amount, itemName, r)
    {
      r := CandyTransactions.ApplySpend(users, transactions, userId, amount, itemName);
    }

    /** getPurchaseHistory: the user's 'spend' transactions, newest first. */
    function GetPurchaseHistory(userId: int): (r: seq<CandyTransaction>)
      reads transactions
      requires transactions.Valid()
      ensures forall t :: t in r <==> t in transactions.rows && t.userId == userId && t.kind == Spend
      ensures StrictlyDecreasing(r, TransactionId)
    {
      var mine := Filter(transactions.rows, IsSpendOf(userId));
      NumberedIncreasing(transactions.rows, TransactionId);
      FilterKeepsOrder(transactions.rows, IsSpendOf(userId), TransactionId);
      ReverseFlipsOrder(mine, TransactionId);
      Reverse(mine)
    }

    /** getChildRewards without the month filter: all of the child's attempts, newest first, and their statistics. */
    function GetChildRewards(childId: int): (r: ChildRewards)
      reads attempts
      requires attempts.Valid()
      ensures forall a :: a in r.attempts <==> a in attempts.rows && a.childId == childId
      ensures StrictlyDecreasing(r.attempts, AttemptId)
      ensures forall a :: a in r.rewardAttempts <==> a in r.attempts && a.rewardCandy > 0
      ensures StrictlyDecreasing(r.rewardAttempts, AttemptId)
      ensures r.stats.totalAttempts == |r.attempts|
      ensures r.stats.correctCount == |Filter(r.attempts, IsCorrectAttempt)| <= r.stats.totalAttempts
      ensures r.stats.totalCandyEarned == SumOf(r.attempts, RewardOf)
    {
      var mine := Filter(attempts.rows, IsAttemptOf(childId));
      NumberedIncreasing(attempts.rows, AttemptId);
      FilterKeepsOrder(attempts.rows, IsAttemptOf(childId), AttemptId);
      ReverseFlipsOrder(mine, AttemptId);
      RewardAttemptsInOrder(Reverse(mine));
      RewardsSummary(Reverse(mine))
    }

    /** getChildrenCount: the number of CHILD-role users linked to `userId`. */
    function GetChildrenCount(userId: int): (r: nat)
      reads users
      ensures r == |ChildrenOf(users.rows, userId)|
      ensures r <= |users.rows|
      ensures r == 0 <==> forall u :: u in users.rows ==> !IsChildOf(u, userId)
    {
      var c := ChildrenOf(users.rows, userId);
      assert c != [] ==> c[0] in c;
      |c|
    }
  }
}
