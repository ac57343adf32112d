/**
 * The part of an ERC20 ledger that the ZAI migration reads and writes:
 * per-account balances kept in a map (a missing key means a zero balance)
 * and the total supply, which always equals the sum of all balances.
 */
module Ledger {

  /** An EVM account address: 20 bytes. */
  type Address = a: nat | a < 0x1_0000_0000_0000_0000_0000_0000_0000_0000_0000_0000

  /** Balances (or allowances) by account; an absent account holds 0. */
  type Balances = map<Address, nat>

  /** The `balanceOf` query: what the ledger reports for an account. */
  function BalanceOf(m: Balances, a: Address): nat
  {
    if a in m then m[a] else 0
  }

  /** Sum of every balance in the ledger: what `totalSupply` must report. */
  ghost function Total(m: Balances): nat
    decreases |m|
  {
    if m == map[] then 0
    else
      var a :| a in m;
      assert |m - {a}| < |m| by { assert (m - {a}).Keys == m.Keys - {a}; }
      m[a] + Total(m - {a})
  }

  /** Any account's balance can be split off the total, whichever key the sum picked first. */
  lemma {:induction false} TotalRemove(m: Balances, a: Address)
    requires a in m
    ensures Total(m) == m[a] + Total(m - {a})
    decreases |m|
  {
    var k :| k in m && Total(m) == m[k] + Total(m - {k});
    if k != a {
      var rest := m - {k};
      assert a in rest;
      assert rest.Keys == m.Keys - {k};
      TotalRemove(rest, a);
      var other := m - {a};
      assert k in other;
      assert other.Keys == m.Keys - {a};
      TotalRemove(other, k);
      assert rest - {a} == other - {k};
    }
  }

  /** Overwriting one account's balance moves the total by exactly the difference. */
  lemma TotalUpdate(m: Balances, a: Address, v: nat)
    ensures BalanceOf(m, a) <= Total(m)
    ensures Total(m[a := v]) + BalanceOf(m, a) == Total(m) + v
  {
    var m' := m[a := v];
    TotalRemove(m', a);
    if a in m {
      TotalRemove(m, a);
      assert m' - {a} == m - {a};
    } else {
      assert m' - {a} == m;
    }
  }

  /** Issuing `v` to `a` (the ERC20 `_mint` bookkeeping): only `a` gains, and the total grows by `v`. */
  function Credit(m: Balances, a: Address, v: nat): (r: Balances)
    ensures BalanceOf(r, a) == BalanceOf(m, a) + v
    ensures forall b :: b != a ==> BalanceOf(r, b) == BalanceOf(m, b)
    ensures Total(r) == Total(m) + v
  {
    TotalUpdate(m, a, BalanceOf(m, a) + v);
    m[a := BalanceOf(m, a) + v]
  }

  /**
   * Destroying `v` of `a`'s balance (the ERC20 `_burn` bookkeeping). The ledger
   * refuses a debit above the balance, so callers check that first.
   */
  function Debit(m: Balances, a: Address, v: nat): (r: Balances)
    requires v <= BalanceOf(m, a)
    ensures BalanceOf(r, a) == BalanceOf(m, a) - v
    ensures forall b :: b != a ==> BalanceOf(r, b) == BalanceOf(m, b)
    ensures v <= Total(m) && Total(r) == Total(m) - v
  {
    TotalUpdate(m, a, BalanceOf(m, a) - v);
    m[a := BalanceOf(m, a) - v]
  }
}
