/**
 * The ZaiV2 migration step `burnAndSwap(account)`: it burns the legacy ZAI
 * that `account` has approved to the ZaiV2 contract, mints new ZAI at 100
 * legacy to 1 new, and never lets the legacy amount burned over the
 * contract's lifetime exceed MAX_OLD_ZAI.
 */
module ZaiV2 {
  import opened Ledger

  /** The most legacy ZAI that may ever be burned through the migration. */
  const MAX_OLD_ZAI: nat := 395407172763503943977588203

  /** Legacy units burned per new unit minted. */
  const SWAP_RATE: nat := 100

  /** Why a `burnAndSwap` call reverts. */
  datatype Reason =
    | NoApproval      // the account approved nothing to ZaiV2
    | ExceedsBalance  // the legacy ledger cannot take more than the account holds
    | CapExceeded     // the burn would take the lifetime total past MAX_OLD_ZAI
  {
    /**
     * The revert string the call fails with. Only the balance error comes
     * from the legacy ERC20 ledger; the other two are ZaiV2's own.
     */
    function Message(): (m: string)
      ensures 6 <= |m| && (m[..6] == "ERC20:" <==> this == ExceedsBalance)
    {
      match this
      case NoApproval =>
        var m := "gotta burn if you wanna earn...";
        assert m[0] == 'g' && m[..6][0] != "ERC20:"[0];
        m
      case ExceedsBalance => "ERC20: transfer amount exceeds balance"
      case CapExceeded =>
        var m := "where did all that ZAI come from...";
        assert m[0] == 'w' && m[..6][0] != "ERC20:"[0];
        m
    }
  }

  /** Each revert reason has its own string, so a caller can tell the reasons apart by it. */
  lemma MessagesDistinct(a: Reason, b: Reason)
    ensures a.Message() == b.Message() ==> a == b
  {
  }

  /** The `BurnAndSwap` event a successful call emits. */
  datatype BurnAndSwapEvent = BurnAndSwapEvent(from: Address, burnAmount: nat, mintAmount: nat)

  /** A call either commits and emits its event, or reverts with a reason and changes nothing. */
  datatype Outcome = Swapped(event: BurnAndSwapEvent) | Reverted(reason: Reason)

  /** New ZAI minted for a burn: the burn divided by the rate, rounded down; the remainder is lost. */
  function MintAmount(burnAmount: nat): (m: nat)
    ensures m * SWAP_RATE <= burnAmount < m * SWAP_RATE + SWAP_RATE
  {
    burnAmount / SWAP_RATE
  }

  /**
   * What a call decides for `account`, given its allowance to ZaiV2, its legacy
   * balance and the amount burned so far. The amount burned is the allowance,
   * not the balance. A zero allowance is refused first, then the legacy
   * ledger's balance check, then the lifetime cap.
   */
  function Decide(account: Address, allowance: nat, balance: nat, burned: nat): (r: Outcome)
    ensures r == Reverted(NoApproval) <==> allowance == 0
    ensures r == Reverted(ExceedsBalance) <==> 0 < allowance && balance < allowance
    ensures r == Reverted(CapExceeded) <==> 0 < allowance <= balance && MAX_OLD_ZAI < burned + allowance
    ensures r.Swapped? <==> 0 < allowance <= balance && burned + allowance <= MAX_OLD_ZAI
    ensures r.Swapped? ==>
      && r.event.from == account
      && r.event.burnAmount == allowance
      && r.event.mintAmount * SWAP_RATE <= allowance < r.event.mintAmount * SWAP_RATE + SWAP_RATE
  {
    if allowance == 0 then Reverted(NoApproval)
    else if balance < allowance then Reverted(ExceedsBalance)
    else if MAX_OLD_ZAI < burned + allowance then Reverted(CapExceeded)
    else Swapped(BurnAndSwapEvent(account, allowance, MintAmount(allowance)))
  }

  /** An event a successful call can emit: a positive burn and the mint the rate gives for it. */
  predicate Sound(e: BurnAndSwapEvent)
  {
    0 < e.burnAmount && e.mintAmount == MintAmount(e.burnAmount)
  }

  /** Legacy ZAI burned over a history of events. */
  function TotalBurned(log: seq<BurnAndSwapEvent>): nat
  {
    if log == [] then 0 else TotalBurned(log[..|log| - 1]) + log[|log| - 1].burnAmount
  }

  /** New ZAI minted over a history of events. */
  function TotalMinted(log: seq<BurnAndSwapEvent>): nat
  {
    if log == [] then 0 else TotalMinted(log[..|log| - 1]) + log[|log| - 1].mintAmount
  }

  /** Over any history of sound events, every new unit minted is backed by SWAP_RATE legacy units burned. */
  lemma {:induction false} MintedIsBacked(log: seq<BurnAndSwapEvent>)
    requires forall i :: 0 <= i < |log| ==> Sound(log[i])
    ensures TotalMinted(log) * SWAP_RATE <= TotalBurned(log)
  {
    if log != [] {
      MintedIsBacked(log[..|log| - 1]);
    }
  }

  /**
   * The legacy ZAI ledger (only what the migration touches) together with the
   * ZaiV2 contract: its balances, its supply, the lifetime burn counter and the
   * events it has emitted.
   */
  class Migration {
    var legacyBalances: Balances
    /** Allowance each legacy holder has given to the ZaiV2 contract. */
    var legacyAllowances: Balances
    var legacySupply: nat
    var balances: Balances
    var supply: nat
    /** Legacy ZAI burned by all successful calls, across all accounts. */
    var burned: nat
    /** `BurnAndSwap` events emitted so far, oldest first. */
    var log: seq<BurnAndSwapEvent>

    ghost predicate Valid()
      reads this
    {
      && legacySupply == Total(legacyBalances)
      && supply == Total(balances)
      && burned <= MAX_OLD_ZAI
      && burned == TotalBurned(log)
      && supply == TotalMinted(log)
      && (forall i :: 0 <= i < |log| ==> Sound(log[i]))
    }

    /** Both ledgers start empty; nothing has been burned. */
    constructor ()
      ensures Valid()
      ensures legacyBalances == map[] && legacyAllowances == map[] && legacySupply == 0
      ensures balances == map[] && supply == 0 && burned == 0 && log == []
    {
      legacyBalances, legacyAllowances, legacySupply := map[], map[], 0;
      balances, supply, burned, log := map[], 0, 0, [];
    }

    /** Legacy-side issuance, used to give an account legacy ZAI before it migrates. */
    method MintLegacy(to: Address, amount: nat)
      requires Valid()
      modifies this
      ensures Valid()
      ensures legacyBalances == Credit(old(legacyBalances), to, amount)
      ensures legacySupply == old(legacySupply) + amount
      ensures legacyAllowances == old(legacyAllowances)
      ensures balances == old(balances) && supply == old(supply)
      ensures burned == old(burned) && log == old(log)
    {
      legacyBalances := Credit(legacyBalances, to, amount);
      legacySupply := legacySupply + amount;
    }

    /** `owner` sets its legacy allowance to the ZaiV2 contract. */
    method Approve(owner: Address, amount: nat)
      requires Valid()
      modifies this
      ensures Valid()
      ensures legacyAllowances == old(legacyAllowances)[owner := amount]
      ensures legacyBalances == old(legacyBalances) && legacySupply == old(legacySupply)
      ensures balances == old(balances) && supply == old(supply)
      ensures burned == old(burned) && log == old(log)
    {
      legacyAllowances := legacyAllowances[owner := amount];
    }

    /**
     * `burnAndSwap(account)` sent by `sender`. The sender plays no part: the
     * authority to burn is the account's own allowance to ZaiV2. Every check
     * is made before anything is written, so a revert leaves the whole state
     * as it was.
     */
    method BurnAndSwap(sender: Address, account: Address) returns (r: Outcome)
      requires Valid()
      modifies this
      ensures Valid()
      ensures r == Decide(account, old(BalanceOf(legacyAllowances, account)),
                          old(BalanceOf(legacyBalances, account)), old(burned))
      ensures r.Reverted? ==> unchanged(this)
      ensures r.Swapped? ==>
        && legacyBalances == Debit(old(legacyBalances), account, r.event.burnAmount)
        && legacySupply == old(legacySupply) - r.event.burnAmount
        && balances == Credit(old(balances), account, r.event.mintAmount)
        && supply == old(supply) + r.event.mintAmount
        && burned == old(burned) + r.event.burnAmount
        && log == old(log) + [r.event]
        && (forall b :: b != account ==> BalanceOf(legacyAllowances, b) == old(BalanceOf(legacyAllowances, b)))
    {
      var amount := BalanceOf(legacyAllowances, account);
      if amount == 0 {
        return Reverted(NoApproval);
      }
      if BalanceOf(legacyBalances, account) < amount {
        return Reverted(ExceedsBalance);
      }
      var newBurned := burned + amount;
      if MAX_OLD_ZAI < newBurned {
        return Reverted(CapExceeded);
      }
      var mint := MintAmount(amount);
      var event := BurnAndSwapEvent(account, amount, mint);

      // the legacy transfer spends the allowance and destroys the tokens
      legacyAllowances := legacyAllowances[account := 0];
      legacyBalances := Debit(legacyBalances, account, amount);
      legacySupply := legacySupply - amount;
      burned := newBurned;
      balances := Credit(balances, account, mint);
      supply := supply + mint;
      assert (log + [event])[..|log|] == log;
      log := log + [event];
      r := Swapped(event);
    }

    /** Every new ZAI in existence is backed by SWAP_RATE burned legacy ZAI, and the burns stay under the cap. */
    lemma SupplyIsBacked()
      requires Valid()
      ensures supply * SWAP_RATE <= burned <= MAX_OLD_ZAI
    {
      MintedIsBacked(log);
    }
  }
}
