# ZaiV2 burn-and-swap migration, modelled in Dafny

ZaiV2 is the new ZAI token. It replaces a legacy ZAI token through a single
operation, `burnAndSwap(account)`. The call takes the legacy ZAI that `account`
has approved to the ZaiV2 contract, burns it, and mints new ZAI to `account` at
100 legacy to 1 new, rounding down. Over the contract's lifetime it never burns
more than `MAX_OLD_ZAI = 395407172763503943977588203` legacy units in total.
A call that fails reverts, and nothing it did is kept.

The Solidity contract is not part of this model. Its behaviour is taken from
its test suite, `protocol/test/token/ZaiV2.test.js`. The tests fix the
constants, the revert reasons, the event fields they check and the two total
supplies. Everything else the model states is a modelling choice, listed below.

Files:

- `ledger.dfy` (module `Ledger`): ERC20 balances as a map from address to
  amount. It defines the sum of all balances, which total supply must equal.
  It also defines the balance bookkeeping of a mint (`Credit`) and a burn
  (`Debit`).
- `zai_v2.dfy` (module `ZaiV2`): the constants, the revert reasons, the
  `BurnAndSwap` event and the pure decision `Decide`. It also holds the class
  `Migration`, which has the legacy balances, the allowances to ZaiV2, both
  supplies, the lifetime burn counter and the event log. `Migration.Valid()`
  holds after every operation:
  - each supply equals the sum of its balances;
  - the counter is at most `MAX_OLD_ZAI` and equals the sum of the logged burns;
  - the new supply equals the sum of the logged mints;
  - every logged event has a positive burn and a mint equal to the burn
    divided by 100, rounded down.
- `zai_v2_scenarios.dfy` (module `ZaiV2Scenarios`): each `describe` block of
  the test suite, replayed against the class. Each scenario's postcondition is
  what that test expects.

Modelling decisions:

- **The amount burned is the account's allowance to ZaiV2, not its balance.**
  With a balance of `MAX_OLD_ZAI + 1` and an allowance of `MAX_OLD_ZAI`, the
  call burns `MAX_OLD_ZAI` and leaves 1 in the legacy supply
  (`ZaiV2.test.js:111-136`). So the allowance, not the balance, sets the
  amount.
- **Error order.** The checks run in this order:
  1. A zero allowance is refused first.
  2. Next comes the legacy ledger's balance check, which fails when the
     allowance is above the balance.
  3. The cap check is last.

  The tests never make both the balance check and the cap check fail at once.
  The legacy `transferFrom`'s balance check is taken to run before the cap
  check, so when both would fail the model reverts with `ExceedsBalance`.
- **Rollback.** The method makes every check before it writes anything. A
  revert therefore leaves the whole state unchanged, as the EVM's rollback does.
- **Error text.** The balance error is modelled as
  `ERC20: transfer amount exceeds balance`. The test expects
  `' ERC20: transfer amount exceeds balance.'`, with a leading space and a
  trailing period, and matches it as a substring of the node's full revert
  text, which repeats the reason after "Reason given:".
- **Who is credited.** Every successful call in the tests is sent by the
  account itself, and after a success the tests read only the two total
  supplies. That the new ZAI goes to `account` (not the sender), that the
  event's `from` is `account`, and that the legacy balance and the counter
  move by the burn are modelling choices the tests agree with but do not pin
  down.
- **Small burns.** An allowance from 1 to 99 succeeds and mints 0; the burned
  legacy ZAI still counts against the cap. The tests never try it.
- **Spent allowance.** A successful call sets the account's allowance to 0,
  as an ERC20 transfer of the whole allowance would. The tests never read it.
- **One global counter.** Every test uses a single account, so the tests
  cannot tell a counter shared by all accounts from one kept per account. The
  model keeps one counter for all accounts by choice: the name `MAX_OLD_ZAI`
  reads as a ceiling on all legacy ZAI ever migrated, not on any one holder's.
- **Test comments.** The comments in the "multi whale" test say "at the limit"
  and "over the limit". The amounts the test actually uses are
  `MAX_OLD_ZAI - 199` and then 100, which makes the counter `MAX_OLD_ZAI - 99`.
  A third burn of 100 then crosses the cap. The model uses those amounts.

## Model

| member | source | states |
|---|---|---|
| `Ledger.Credit` | protocol/test/token/ZaiV2.test.js:32-39 | Issuing to one account raises only that account's balance. The sum of all balances, the total supply, grows by exactly the amount issued. |
| `Ledger.Debit` | protocol/test/token/ZaiV2.test.js:73-75 | Burning at most an account's balance lowers only that account. The total supply falls by exactly the amount burned, which never exceeds the supply. |
| `ZaiV2.Reason.Message` | protocol/test/token/ZaiV2.test.js:43-91 | The three revert strings: "gotta burn if you wanna earn..." (test line 47), "ERC20: transfer amount exceeds balance" (line 89 expects `' ERC20: transfer amount exceeds balance.'` as a substring of the full revert text) and "where did all that ZAI come from..." (lines 151 and 195). Only the balance error carries the ERC20 ledger's prefix. |
| `ZaiV2.MessagesDistinct` | protocol/test/token/ZaiV2.test.js:43-91 | Two reasons with the same revert string are the same reason, so the tests' string matches tell the three reverts apart. |
| `ZaiV2.MintAmount` | protocol/test/token/ZaiV2.test.js:126-132 | The mint is the burn divided by SWAP_RATE, rounded down. Exactly: mint * 100 <= burn < mint * 100 + 100. |
| `ZaiV2.Decide` | protocol/test/token/ZaiV2.test.js:43-163 | Reverts with NoApproval exactly when the allowance is 0. Reverts with ExceedsBalance exactly when a positive allowance is above the balance. Reverts with CapExceeded exactly when an allowance within the balance would take the lifetime total over MAX_OLD_ZAI (the cap is inclusive). On success the event is from the account, burns the allowance and mints floor(allowance / 100). A zero burn never succeeds. |
| `ZaiV2.MintedIsBacked` | protocol/test/token/ZaiV2.test.js:166-197 | Over any history of successful calls, total minted * 100 <= total burned. |
| `ZaiV2.Migration.constructor` | protocol/test/token/ZaiV2.test.js:21-27 | A freshly deployed pair of ledgers: no balances, no allowances, both supplies 0, nothing burned, no events. |
| `ZaiV2.Migration.MintLegacy` | protocol/test/token/ZaiV2.test.js:32-39 | The setup mint on the legacy token credits the account and the legacy supply by the amount. The allowances, the new ledger, the counter and the log are unchanged. |
| `ZaiV2.Migration.Approve` | protocol/test/token/ZaiV2.test.js:53-57 | Sets the owner's allowance to ZaiV2 to the given value. Nothing else changes. |
| `ZaiV2.Migration.BurnAndSwap` | protocol/test/token/ZaiV2.test.js:59-76 | The outcome is `Decide` applied to the account's allowance, its legacy balance and the counter before the call; the sender plays no part. A revert changes nothing. On success: the legacy balance and supply fall by the burn; the new balance and supply rise by the mint; the counter rises by exactly the burn; exactly one event is appended; no other account's allowance changes. The invariant, including counter <= MAX_OLD_ZAI, is preserved. |
| `ZaiV2.Migration.SupplyIsBacked` | protocol/test/token/ZaiV2.test.js:166-197 | In every reachable state, new supply * 100 <= lifetime burned <= MAX_OLD_ZAI. |
| `ZaiV2Scenarios.Funded` | protocol/test/token/ZaiV2.test.js:99-109 | After the setup mint, the user holds the amount, the legacy supply equals it, and the new supply is 0. |
| `ZaiV2Scenarios.SmallTimeWithoutApproval` | protocol/test/token/ZaiV2.test.js:43-49 | With no approval the call reverts with "gotta burn if you wanna earn...". |
| `ZaiV2Scenarios.SmallTimeWithApproval` | protocol/test/token/ZaiV2.test.js:52-76 | Balance 100 and allowance 100. The call emits exactly one event, BurnAndSwap(user, 100, 1): the log afterwards holds only it. The new supply goes to 1 and the legacy supply to 0. |
| `ZaiV2Scenarios.SmallTimeTooMuchApproval` | protocol/test/token/ZaiV2.test.js:79-91 | Allowance 101 over a balance of 100. The call reverts with the ERC20 "transfer amount exceeds balance" error. |
| `ZaiV2Scenarios.PossibleWhale` | protocol/test/token/ZaiV2.test.js:111-136 | Balance MAX_OLD_ZAI + 1 and allowance MAX_OLD_ZAI. The call burns exactly MAX_OLD_ZAI and mints MAX_OLD_ZAI / 100. The legacy supply is left at 1. |
| `ZaiV2Scenarios.ImpossibleWhale` | protocol/test/token/ZaiV2.test.js:139-163 | Allowance MAX_OLD_ZAI + 1. The call reverts with "where did all that ZAI come from...". Both of the user's balances and both supplies are unchanged. |
| `ZaiV2Scenarios.MultiWhale` | protocol/test/token/ZaiV2.test.js:166-197 | Burns of MAX_OLD_ZAI - 199 and then 100 succeed. A further 100 reverts on the cap. |

## Left out

- The ZaiV2 Solidity source is not part of this model. The behaviour comes only from its test suite.
- Test-harness plumbing is left out: deployment, gas, async calls and chai matchers. None of it is behaviour.
- The rest of the ERC20 machinery is left out: `transfer`, general `transferFrom`, allowances to spenders other than ZaiV2, and the Transfer and Approval events. The migration never reads them.
- uint256 width is not modelled; amounts are unbounded naturals. The counter never exceeds MAX_OLD_ZAI, which is far below 2^256. A SafeMath overflow revert on an absurdly large allowance is not distinguished from the cap revert: both revert and change nothing.
- `ZaiV2.Migration.BurnAndSwap`: the postcondition does not say what the account's own allowance is after a successful call. The tests re-approve before every call and never read it. The body spends it to 0, as an ERC20 transfer of the full allowance would.
- Re-entrancy and concurrency are not modelled. Each call is one atomic step, and the tests show no other kind.
- Sharing the cap across different accounts is not stated as a separate property; the tests use a single account.
