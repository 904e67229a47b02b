/**
 * The mock account service: deposits, withdrawals and transfers over an id -> Account
 * map held in memory. Every operation dereferences the account it looks up without a
 * null check, so the ids it touches must be present; `transfer` only touches the
 * destination when the source may be debited (Java's `&&` short-circuits).
 */
module MockServices {
  import opened Model
  import Ledger

  class MockAccountService {
    var modelMap: map<int, Account>

    constructor (modelMap: map<int, Account>)
      ensures this.modelMap == modelMap
    {
      this.modelMap := modelMap;
    }

    /** Distinct ids hold distinct account objects. */
    ghost predicate DistinctAccounts()
      reads this
    {
      forall i, j :: i in modelMap && j in modelMap && i != j ==> modelMap[i] != modelMap[j]
    }

    /** The balance held under each id. */
    ghost function Balances(): (m: map<int, int>)
      reads this, modelMap.Values
      ensures m.Keys == modelMap.Keys
    {
      map k | k in modelMap :: modelMap[k].balance
    }

    /** The admission test of `transfer`; the destination is only consulted when the
        source may be debited. */
    predicate Admits(srcId: int, dstId: int, amount: int)
      reads this, modelMap.Values
      requires srcId in modelMap && (modelMap[srcId].CanDebit(amount) ==> dstId in modelMap)
    {
      modelMap[srcId].CanDebit(amount) && modelMap[dstId].CanCredit(amount)
    }

    /** The account stored under `id`, or null when there is none. */
    method Get(id: int) returns (account: Account?)
      ensures id in modelMap ==> account == modelMap[id]
      ensures id !in modelMap ==> account == null
    {
      account := if id in modelMap then modelMap[id] else null;
    }

    /** Credits `amount` to the account under `id`; no other account changes. */
    method Deposit(id: int, amount: int)
      requires id in modelMap
      modifies modelMap[id]
      ensures modelMap[id].balance == old(modelMap[id].balance) + amount
      ensures modelMap[id].customer == old(modelMap[id].customer)
      ensures DistinctAccounts() ==> Balances() == Ledger.Credit(old(Balances()), id, amount)
    {
      ghost var before := Balances();
      modelMap[id].Credit(amount);
      if DistinctAccounts() {
        var expected := Ledger.Credit(before, id, amount);
        forall k | k in modelMap ensures Balances()[k] == expected[k] {
          if k != id {
            assert modelMap[k] != modelMap[id];
          }
        }
        assert Balances() == expected;
      }
    }

    /** Debits `amount` from the account under `id` when its `CanWithdraw()` holds, without
        consulting `CanDebit`; otherwise does nothing. */
    method Withdraw(id: int, amount: int)
      requires id in modelMap
      modifies modelMap[id]
      ensures modelMap[id].customer == old(modelMap[id].customer)
      ensures old(modelMap[id].CanWithdraw()) ==> modelMap[id].balance == old(modelMap[id].balance) - amount
      ensures !old(modelMap[id].CanWithdraw()) ==> modelMap[id].balance == old(modelMap[id].balance)
      ensures DistinctAccounts() ==>
        Balances() == Ledger.Withdraw(old(Balances()), id, amount, old(modelMap[id].CanWithdraw()))
    {
      var account := modelMap[id];
      if !account.CanWithdraw() {
        return;
      }
      ghost var before := Balances();
      modelMap[id].Debit(amount);
      if DistinctAccounts() {
        var expected := Ledger.Withdraw(before, id, amount, true);
        forall k | k in modelMap ensures Balances()[k] == expected[k] {
          if k != id {
            assert modelMap[k] != modelMap[id];
          }
        }
        assert Balances() == expected;
      }
    }

    /** Debits the source and then credits the destination when the source may be debited
        and the destination credited; otherwise does nothing. */
    method Transfer(srcId: int, dstId: int, amount: int)
      requires srcId in modelMap && (modelMap[srcId].CanDebit(amount) ==> dstId in modelMap)
      modifies modelMap[srcId], if dstId in modelMap then {modelMap[dstId]} else {}
      ensures modelMap[srcId].customer == old(modelMap[srcId].customer)
      ensures dstId in modelMap ==> modelMap[dstId].customer == old(modelMap[dstId].customer)
      ensures !old(Admits(srcId, dstId, amount)) ==> modelMap[srcId].balance == old(modelMap[srcId].balance)
      ensures old(Admits(srcId, dstId, amount)) && modelMap[srcId] != modelMap[dstId] ==>
        modelMap[srcId].balance == old(modelMap[srcId].balance) - amount &&
        modelMap[dstId].balance == old(modelMap[dstId].balance) + amount
      ensures dstId in modelMap && modelMap[srcId] == modelMap[dstId] ==>
        modelMap[srcId].balance == old(modelMap[srcId].balance)
      ensures dstId in modelMap ==>
        modelMap[srcId].balance + modelMap[dstId].balance == old(modelMap[srcId].balance + modelMap[dstId].balance)
      ensures DistinctAccounts() ==>
        Balances() == Ledger.Transfer(old(Balances()), srcId, dstId, amount, old(Admits(srcId, dstId, amount)))
    {
      var srcAccount := modelMap[srcId];
      if srcAccount.CanDebit(amount) {
        var dstAccount := modelMap[dstId];
        if dstAccount.CanCredit(amount) {
          ghost var before := Balances();
          srcAccount.Debit(amount);
          dstAccount.Credit(amount);
          if DistinctAccounts() {
            var expected := Ledger.Transfer(before, srcId, dstId, amount, true);
            forall k | k in modelMap ensures Balances()[k] == expected[k] {
              if k != srcId && k != dstId {
                assert modelMap[k] != srcAccount && modelMap[k] != dstAccount;
              }
            }
            assert Balances() == expected;
          }
        }
      }
    }
  }

  /** Two unconstrained accounts holding 100 and 0: transferring 50 leaves 50 in each. */
  method TransferBetweenUnconstrainedAccounts() returns (srcBalance: int, dstBalance: int)
    ensures srcBalance == 50 && dstBalance == 50
  {
    var src := new Account((b: int, a: int) => true, (b: int, a: int) => true, (b: int) => true);
    var dst := new Account((b: int, a: int) => true, (b: int, a: int) => true, (b: int) => true);
    src.Credit(100);
    var service := new MockAccountService(map[1 := src, 2 := dst]);
    service.Transfer(1, 2, 50);
    srcBalance, dstBalance := src.balance, dst.balance;
  }
}
