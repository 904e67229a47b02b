/**
 * The balances held by the account service, seen as a value: a map from account id
 * to balance. The service's operations are specified against the functions below,
 * and the lemmas here say what each operation does to the bank's total money.
 *
 * `credit(amount)` adds `amount` to a balance and `debit(amount)` subtracts it; these
 * additive semantics are an ASSUMPTION of the model (the Account classes are not part
 * of it), matching an account credited with 100 from a zero balance reading back 100.
 */
module Ledger {

  /** Sum of all balances. */
  ghost function Total(m: map<int, int>): int
    decreases |m|
  {
    if |m| == 0 then 0
    else
      var k := Pick(m);
      m[k] + Total(m - {k})
  }

  /** Some id of a non-empty map, the one `Total` starts from. */
  ghost function Pick(m: map<int, int>): (k: int)
    requires |m| != 0
    ensures k in m
  {
    HasKey(m);
    var k :| k in m;
    k
  }

  lemma HasKey(m: map<int, int>)
    requires |m| != 0
    ensures exists k :: k in m
  {
    if !exists k :: k in m { assert false; }
  }

  /** The total does not depend on which key the sum starts from. */
  lemma {:induction false} TotalWithout(m: map<int, int>, k: int)
    requires k in m
    ensures Total(m) == m[k] + Total(m - {k})
    decreases |m|
  {
    var j := Pick(m);
    if j != k {
      TotalWithout(m - {j}, k);
      TotalWithout(m - {k}, j);
      assert m - {j} - {k} == m - {k} - {j};
    }
  }

  /** Overwriting one balance changes the total by the difference. */
  lemma TotalUpdate(m: map<int, int>, k: int, v: int)
    requires k in m
    ensures Total(m[k := v]) == Total(m) - m[k] + v
  {
    TotalWithout(m, k);
    TotalWithout(m[k := v], k);
    assert m[k := v] - {k} == m - {k};
  }

  /** `credit(amount)` on the account under `id` (what `deposit(id, amount)` does):
      only that balance grows, by exactly `amount`. */
  function Credit(m: map<int, int>, id: int, amount: int): (r: map<int, int>)
    requires id in m
    ensures r.Keys == m.Keys
    ensures r[id] == m[id] + amount
    ensures forall k :: k in m && k != id ==> r[k] == m[k]
    ensures Total(r) == Total(m) + amount
  {
    TotalUpdate(m, id, m[id] + amount);
    m[id := m[id] + amount]
  }

  /** `debit(amount)` on the account under `id`: only that balance shrinks, by exactly
      `amount`. No admission rule is consulted. */
  function Debit(m: map<int, int>, id: int, amount: int): (r: map<int, int>)
    requires id in m
    ensures r.Keys == m.Keys
    ensures r[id] == m[id] - amount
    ensures forall k :: k in m && k != id ==> r[k] == m[k]
    ensures Total(r) == Total(m) - amount
  {
    TotalUpdate(m, id, m[id] - amount);
    m[id := m[id] - amount]
  }

  /** `withdraw(id, amount)`: debit the account under `id` when `allowed` (its
      `canWithdraw()` held), otherwise nothing. */
  function Withdraw(m: map<int, int>, id: int, amount: int, allowed: bool): (r: map<int, int>)
    requires id in m
    ensures !allowed ==> r == m
    ensures r.Keys == m.Keys
    ensures allowed ==> r[id] == m[id] - amount
    ensures forall k :: k in m && k != id ==> r[k] == m[k]
    ensures Total(r) == Total(m) - (if allowed then amount else 0)
  {
    if allowed then Debit(m, id, amount) else m
  }

  /** `transfer(src, dst, amount)`: when `admitted` (src can debit and dst can credit),
      debit src and then credit dst; otherwise nothing. The destination is only looked
      at when the source can debit, so it need only exist when the transfer is admitted. */
  function Transfer(m: map<int, int>, src: int, dst: int, amount: int, admitted: bool): (r: map<int, int>)
    requires src in m && (admitted ==> dst in m)
    ensures !admitted ==> r == m
    ensures src == dst ==> r == m
    ensures r.Keys == m.Keys
    ensures admitted && src != dst ==> r[src] == m[src] - amount && r[dst] == m[dst] + amount
    ensures forall k :: k in m && k != src && k != dst ==> r[k] == m[k]
    ensures Total(r) == Total(m)
  {
    if admitted then
      var r := Credit(Debit(m, src, amount), dst, amount);
      assert src == dst ==> r == m by {
        if src == dst {
          assert forall k :: k in m ==> r[k] == m[k];
        }
      }
      r
    else m
  }

  /** A transfer between two different accounts is all-or-nothing: for a non-zero amount,
      the source changes exactly when the destination does, and their sum is kept. */
  lemma TransferAllOrNothing(m: map<int, int>, src: int, dst: int, amount: int, admitted: bool)
    requires src in m && dst in m && src != dst && amount != 0
    ensures var r := Transfer(m, src, dst, amount, admitted);
      (r[src] == m[src] <==> r[dst] == m[dst]) && r[src] + r[dst] == m[src] + m[dst]
  {
  }
}
