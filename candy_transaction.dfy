/** The candy ledger (candy-transaction.service.ts): a spend checks the
    balance, debits it and logs a 'spend' transaction; a balance query reads
    the user's candy. The rule and its effect are stated once here; the copy
    of spendCandy in the user service is held to the same effect. */
module CandyTransactions {
  import opened Common
  import opened Entities

  /** `{ success, remainingCandy }`. */
  datatype SpendReceipt = SpendReceipt(success: bool, remainingCandy: int)

  /** The balance check of spendCandy: the balance after the spend, or why
      the spend is refused. No lower bound is put on `amount`. */
  function SpendCheck(users: seq<User>, userId: int, amount: int): (r: Result<int>)
    requires Numbered(users, UserId)
    ensures r.Ok? || r.error == UserNotFound || r.error == InsufficientCandy
    ensures r == Err(UserNotFound) <==> forall u :: u in users ==> u.id != userId
    ensures r == Err(InsufficientCandy) <==> exists u :: u in users && u.id == userId && u.candy < amount
    ensures r.Ok? ==> 1 <= userId <= |users| && r.value == users[userId - 1].candy - amount
    ensures r.Ok? ==> r.value >= 0
  {
    if !(1 <= userId <= |users|) then
      assert forall u :: u in users ==> u.id != userId by {
        forall u | u in users ensures u.id != userId {
          var i :| 0 <= i < |users| && users[i] == u;
        }
      }
      Err(UserNotFound)
    else if users[userId - 1].candy < amount then
      Err(InsufficientCandy)
    else
      assert forall u :: u in users && u.id == userId ==> u == users[userId - 1] by {
        forall u | u in users && u.id == userId ensures u == users[userId - 1] {
          var i :| 0 <= i < |users| && users[i] == u;
        }
      }
      Ok(users[userId - 1].candy - amount)
  }

  /** The whole effect of one spendCandy call on the user rows and the
      transaction log, with `r` its outcome. */
  ghost predicate SpendEffect(
    users0: seq<User>, users1: seq<User>,
    log0: seq<CandyTransaction>, log1: seq<CandyTransaction>,
    userId: int, amount: int, itemName: string, r: Result<SpendReceipt>)
    requires Numbered(users0, UserId)
  {
    match SpendCheck(users0, userId, amount)
    case Err(e) => r == Err(e) && users1 == users0 && log1 == log0
    case Ok(balance) =>
      && r == Ok(SpendReceipt(true, balance))
      && users1 == users0[userId - 1 := users0[userId - 1].(candy := balance)]
      && log1 == log0 + [CandyTransaction(|log0| + 1, userId, Spend, amount, Some(itemName))]
  }

  /** What a spend does, spelled out: a refused spend changes nothing; an
      accepted one lowers exactly that user's balance by `amount`, reports the
      new balance, and appends exactly one 'spend' record. */
  lemma SpendEffectMeaning(
    users0: seq<User>, users1: seq<User>,
    log0: seq<CandyTransaction>, log1: seq<CandyTransaction>,
    userId: int, amount: int, itemName: string, r: Result<SpendReceipt>)
    requires Numbered(users0, UserId)
    requires SpendEffect(users0, users1, log0, log1, userId, amount, itemName, r)
    ensures r.Err? ==> users1 == users0 && log1 == log0
    ensures r.Err? <==> !(1 <= userId <= |users0|) || users0[userId - 1].candy < amount
    ensures Numbered(users1, UserId) && |users1| == |users0|
    ensures forall i :: 0 <= i < |users0| && i != userId - 1 ==> users1[i] == users0[i]
    ensures r.Ok? ==>
      && users1[userId - 1].candy == users0[userId - 1].candy - amount
      && r.value.success
      && r.value.remainingCandy == users1[userId - 1].candy >= 0
    ensures r.Ok? ==>
      && |log1| == |log0| + 1 && log1[..|log0|] == log0
      && log1[|log0|].kind == Spend && log1[|log0|].userId == userId
      && log1[|log0|].amount == amount && log1[|log0|].itemName == Some(itemName)
    ensures Numbered(log0, TransactionId) ==> Numbered(log1, TransactionId)
  {
  }

  /** Debits `amount` from the user's candy and logs the spend. */
  method ApplySpend(users: UserTable, transactions: TransactionTable, userId: int, amount: int, itemName: string)
    returns (r: Result<SpendReceipt>)
    requires users.Valid() && transactions.Valid()
    modifies users, transactions
    ensures users.Valid() && transactions.Valid()
    ensures SpendEffect(old(users.rows), users.rows, old(transactions.rows), transactions.rows, userId, amount, itemName, r)
  {
    var found := users.Find(userId);
    if found.None? {
      return Err(UserNotFound);
    }
    var user := found.value;
    if user.candy < amount {
      return Err(InsufficientCandy);
    }
    user := user.(candy := user.candy - amount);
    NumberedUpdate(users.rows, userId - 1, user, UserId);
    users.rows := users.rows[userId - 1 := user];
    var entry := CandyTransaction(|transactions.rows| + 1, userId, Spend, amount, Some(itemName));
    NumberedAppend(transactions.rows, entry, TransactionId);
    transactions.rows := transactions.rows + [entry];
    r := Ok(SpendReceipt(true, user.candy));
  }

  class CandyTransactionService {
    const transactions: TransactionTable
    const users: UserTable

    ghost predicate Valid()
      reads transactions, users
    {
      transactions.Valid() && users.Valid()
    }

    constructor (transactions: TransactionTable, users: UserTable)
      ensures this.transactions == transactions && this.users == users
    {
      this.transactions := transactions;
      this.users := users;
    }

    /** spendCandy (candy-transaction.service.ts). */
    method SpendCandy(userId: int, amount: int, itemName: string) returns (r: Result<SpendReceipt>)
      requires Valid()
      modifies users, transactions
      ensures Valid()
      ensures SpendEffect(old(users.rows), users.rows, old(transactions.rows), transactions.rows, userId, amount, itemName, r)
    {
      r := ApplySpend(users, transactions, userId, amount, itemName);
    }

    /** getCandyBalance: the stored balance, or UserNotFound. */
    function GetCandyBalance(userId: int): (r: Result<int>)
      reads users
      requires users.Valid()
      ensures r.Ok? <==> exists u :: u in users.rows && u.id == userId
      ensures r.Ok? ==> exists u :: u in users.rows && u.id == userId && r.value == u.candy
      ensures r.Err? ==> r.error == UserNotFound
    {
      match users.Find(userId)
      case None => Err(UserNotFound)
      case Some(u) => Ok(u.candy)
    }
  }
}
