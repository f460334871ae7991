/**
 * The rental ledger (`BillingSystem`): an append-only list of transactions. A user's balance
 * is the sum of the costs of that user's transactions.
 */
module Billing {
  import opened Users

  /** A rental: who, which GPU, when it started (seconds of the caller's clock), for how long, at what cost. */
  datatype Transaction = Transaction(userId: Uuid, gpuId: nat, startTime: int, durationSecs: nat, cost: real)

  /** `get_user_balance`: the transactions of `userId`, their costs, summed. */
  function Balance(transactions: seq<Transaction>, userId: Uuid): real {
    if transactions == [] then 0.0
    else (if transactions[0].userId == userId then transactions[0].cost else 0.0) + Balance(transactions[1..], userId)
  }

  /** With no transaction of the user on the ledger, the balance is 0. */
  lemma {:induction false} BalanceWithoutTransactions(transactions: seq<Transaction>, userId: Uuid)
    requires forall k :: 0 <= k < |transactions| ==> transactions[k].userId != userId
    ensures Balance(transactions, userId) == 0.0
  {
    if transactions != [] {
      BalanceWithoutTransactions(transactions[1..], userId);
    }
  }

  /** The balance of a ledger made of two parts is the sum of the parts' balances. */
  lemma {:induction false} BalanceOfConcat(a: seq<Transaction>, b: seq<Transaction>, userId: Uuid)
    ensures Balance(a + b, userId) == Balance(a, userId) + Balance(b, userId)
  {
    if a == [] {
      assert a + b == b;
    } else {
      assert (a + b)[1..] == a[1..] + b;
      BalanceOfConcat(a[1..], b, userId);
    }
  }

  /** Appending `t` raises the balance of `t.userId` by `t.cost` and leaves every other balance unchanged. */
  lemma BalanceAfterAppend(transactions: seq<Transaction>, t: Transaction, userId: Uuid)
    ensures Balance(transactions + [t], userId)
         == Balance(transactions, userId) + (if t.userId == userId then t.cost else 0.0)
  {
    BalanceOfConcat(transactions, [t], userId);
  }

  /** When no cost on the ledger is negative, no balance is. */
  lemma {:induction false} BalanceNonNegative(transactions: seq<Transaction>, userId: Uuid)
    requires forall k :: 0 <= k < |transactions| ==> transactions[k].cost >= 0.0
    ensures Balance(transactions, userId) >= 0.0
  {
    if transactions != [] {
      assert forall k :: 0 <= k < |transactions[1..]| ==> transactions[1..][k] == transactions[k + 1];
      BalanceNonNegative(transactions[1..], userId);
    }
  }

  /** The two facts `GetUserBalance` promises, in one call: 0 with none of the user's transactions, never negative while no cost is. */
  lemma BalanceFacts(transactions: seq<Transaction>, userId: Uuid)
    ensures (forall k :: 0 <= k < |transactions| ==> transactions[k].userId != userId) ==> Balance(transactions, userId) == 0.0
    ensures (forall k :: 0 <= k < |transactions| ==> transactions[k].cost >= 0.0) ==> Balance(transactions, userId) >= 0.0
  {
    if forall k :: 0 <= k < |transactions| ==> transactions[k].userId != userId {
      BalanceWithoutTransactions(transactions, userId);
    }
    if forall k :: 0 <= k < |transactions| ==> transactions[k].cost >= 0.0 {
      BalanceNonNegative(transactions, userId);
    }
  }

  class BillingSystem {
    var transactions: seq<Transaction>

    /** `BillingSystem::new`: an empty ledger. */
    constructor ()
      ensures transactions == []
    {
      transactions := [];
    }

    /** `add_transaction`: appends at the end; earlier entries stay as they were. */
    method AddTransaction(t: Transaction)
      modifies this
      ensures transactions == old(transactions) + [t]
      ensures forall u :: GetUserBalance(u) == old(GetUserBalance(u)) + (if t.userId == u then t.cost else 0.0)
    {
      BalanceAfterAppendAll(transactions, t);
      transactions := transactions + [t];
    }

    /** `get_user_balance`: 0 for a user with no transactions, and never negative while no cost is. */
    function GetUserBalance(userId: Uuid): (r: real)
      reads this
      ensures (forall k :: 0 <= k < |transactions| ==> transactions[k].userId != userId) ==> r == 0.0
      ensures (forall k :: 0 <= k < |transactions| ==> transactions[k].cost >= 0.0) ==> r >= 0.0
    {
      BalanceFacts(transactions, userId);
      Balance(transactions, userId)
    }
  }

  lemma BalanceAfterAppendAll(transactions: seq<Transaction>, t: Transaction)
    ensures forall u :: Balance(transactions + [t], u)
                      == Balance(transactions, u) + (if t.userId == u then t.cost else 0.0)
  {
    forall u {
      BalanceAfterAppend(transactions, t, u);
    }
  }
}
