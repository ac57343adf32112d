/**
 * The `burnAndSwap` scenarios of the ZaiV2 test suite, replayed against the
 * model. Each method builds fresh ledgers, sets them up as the scenario's
 * `beforeEach` does and returns what the scenario observes; its
 * postcondition is what the scenario expects.
 */
module ZaiV2Scenarios {
  import opened Ledger
  import opened ZaiV2

  /** The account that holds and migrates legacy ZAI. */
  const USER: Address := 1

  /** The sender of calls made without an explicit `from`. */
  const DEFAULT_SENDER: Address := 2

  /** The whale's legacy holding: one more than the cap. */
  const AMOUNT: nat := MAX_OLD_ZAI + 1

  /** Fresh ledgers in which USER holds `amount` legacy ZAI and nothing else exists. */
  method Funded(amount: nat) returns (m: Migration)
    ensures fresh(m) && m.Valid()
    ensures BalanceOf(m.legacyBalances, USER) == amount && m.legacySupply == amount
    ensures m.legacyAllowances == map[] && m.balances == map[] && m.supply == 0
    ensures m.burned == 0 && m.log == []
  {
    m := new Migration();
    m.MintLegacy(USER, amount);
  }

  /** Small time, without approval: the call reverts with the no-approval message. */
  method SmallTimeWithoutApproval() returns (r: Outcome)
    ensures r == Reverted(NoApproval)
    ensures r.reason.Message() == "gotta burn if you wanna earn..."
  {
    var m := Funded(100);
    r := m.BurnAndSwap(DEFAULT_SENDER, USER);
  }

  /** Small time, allowance 100 of 100: one event burning 100 and minting 1; supplies go 100 -> 0 and 0 -> 1. */
  method SmallTimeWithApproval() returns (r: Outcome, log: seq<BurnAndSwapEvent>, legacySupply: nat, supply: nat)
    ensures r == Swapped(BurnAndSwapEvent(USER, 100, 1))
    ensures log == [BurnAndSwapEvent(USER, 100, 1)]
    ensures legacySupply == 0 && supply == 1
  {
    var m := Funded(100);
    m.Approve(USER, 100);
    r := m.BurnAndSwap(USER, USER);
    log, legacySupply, supply := m.log, m.legacySupply, m.supply;
  }

  /** Small time, allowance 101 over a balance of 100: the legacy ledger's balance error. */
  method SmallTimeTooMuchApproval() returns (r: Outcome)
    ensures r == Reverted(ExceedsBalance)
    ensures r.reason.Message() == "ERC20: transfer amount exceeds balance"
  {
    var m := Funded(100);
    m.Approve(USER, 101);
    r := m.BurnAndSwap(DEFAULT_SENDER, USER);
  }

  /** Possible whale: allowance MAX_OLD_ZAI of a MAX_OLD_ZAI + 1 balance burns exactly the cap and leaves 1 legacy ZAI. */
  method PossibleWhale() returns (r: Outcome, legacySupply: nat, supply: nat)
    ensures r == Swapped(BurnAndSwapEvent(USER, MAX_OLD_ZAI, MAX_OLD_ZAI / SWAP_RATE))
    ensures legacySupply == 1 && supply == MAX_OLD_ZAI / SWAP_RATE
  {
    var m := Funded(AMOUNT);
    m.Approve(USER, MAX_OLD_ZAI);
    r := m.BurnAndSwap(USER, USER);
    legacySupply, supply := m.legacySupply, m.supply;
  }

  /** Impossible whale: approving all MAX_OLD_ZAI + 1 reverts on the cap and nothing moves. */
  method ImpossibleWhale() returns (r: Outcome, legacyBalance: nat, balance: nat, legacySupply: nat, supply: nat)
    ensures r == Reverted(CapExceeded)
    ensures r.reason.Message() == "where did all that ZAI come from..."
    ensures legacyBalance == AMOUNT && balance == 0
    ensures legacySupply == AMOUNT && supply == 0
  {
    var m := Funded(AMOUNT);
    m.Approve(USER, AMOUNT);
    r := m.BurnAndSwap(USER, USER);
    legacyBalance, balance := BalanceOf(m.legacyBalances, USER), BalanceOf(m.balances, USER);
    legacySupply, supply := m.legacySupply, m.supply;
  }

  /** Multi whale: burns of AMOUNT - 200 and then 100 succeed; a further 100 crosses the cap and reverts. */
  method MultiWhale() returns (first: Outcome, second: Outcome, third: Outcome)
    ensures first == Swapped(BurnAndSwapEvent(USER, AMOUNT - 200, (AMOUNT - 200) / SWAP_RATE))
    ensures second == Swapped(BurnAndSwapEvent(USER, 100, 1))
    ensures third == Reverted(CapExceeded)
  {
    var m := Funded(AMOUNT);
    m.Approve(USER, AMOUNT - 200);
    first := m.BurnAndSwap(USER, USER);
    m.Approve(USER, 100);
    second := m.BurnAndSwap(USER, USER);
    m.Approve(USER, 100);
    third := m.BurnAndSwap(USER, USER);
  }
}
