# Stellar reward bot: reward selection and batched distribution

A Dafny model of the two parts of the Stellar reward bot (`stellar-reward-bot/bot.js`) that have behaviour of their own:

- **Reward selection** (`calculateRewards`), module `Rewards` in `rewards.dfy`. For each holder record of the configured asset, the bot skips the distributor's own account. It then looks for the first balance line that is a `credit_alphanum4` or `credit_alphanum12` line of the configured code and issuer, and skips the holder if there is none. Otherwise it computes balance × rate and skips rewards below `MIN_PAYMENT`. Each remaining holder becomes `{address, amount}`, in input order. The model follows the same `map`, `find` and `filter(Boolean)` pipeline: `HolderReward` is the map callback, `FindTarget` is the `find`, `Present` is the filter and `CalculateRewards` is the whole pipeline.
- **One distribution cycle** (`distributeRewards`), module `Distribution` in `distribution.dfy`. The cycle has the early returns for an empty holder list and an empty payment list. It has the guard against a payment to the distributor, and it loads the distributor account. The loop steps through the payments 100 at a time and submits each slice as one transaction. The cycle is modelled with the corrected error handler, which logs a failed batch and goes on to the next one; as written, a failure that carries no response abandons the loop (see ## Findings), and only `RunBatchesAsWritten` models that.

Amounts are integers in stroops: one stroop is 10^-7 of a unit, the precision of ledger balances. `MIN_PAYMENT` (0.0000001) is one stroop. The reward rate is a fixed-point fraction with seven decimals: a rate `r` stands for r / 10^7, so 0.01 is 100000. The reward balance × rate is kept exact, at 10^-7 stroop (`ScaledReward`). It is compared with `MIN_PAYMENT` before any rounding, as the source compares the number before formatting it. `toFixed(7)` becomes rounding to the nearest stroop (`ToStroops`).

The network is a parameter of the cycle:
- the outcome of the holder listing is `Option<seq<Holder>>`, where `None` means the listing threw;
- loading the distributor account is a flag;
- the ledger's answer to the k-th batch (counting from 0) is `ledger(k)`: `Accepted`, `Rejected` (a failure carrying a Horizon response) or `NoResponse` (a failure with no response, such as a timeout or a reset connection).

## Model

| member | source | states |
|---|---|---|
| `Rewards.FindTarget` | stellar-reward-bot/bot.js:48-55 | `find` returns the first balance line that is a credit line (alphanum4 or alphanum12) of the configured code and issuer; no line before it matches. It returns nothing exactly when no line matches. |
| `Rewards.FirstTargetIsUnique` | stellar-reward-bot/bot.js:48-55 | Whatever position is the first matching line is the one `find` returns. When several lines match, the first one is used. |
| `Rewards.ToStroops` | stellar-reward-bot/bot.js:64-73 | The amount is the exact reward rounded to the nearest stroop, halves up: the exact reward is at most half a stroop below the amount and less than half a stroop above it. A reward that is not below `MIN_PAYMENT` gives an amount of at least one stroop. |
| `Rewards.HolderReward` | stellar-reward-bot/bot.js:40-74 | A holder that yields a payment is not the distributor. The payment goes to the holder's own id, for at least `MIN_PAYMENT`. |
| `Rewards.IsTargetAsset` | stellar-reward-bot/bot.js:49-51 | The predicate handed to `find`: a `credit_alphanum4` or `credit_alphanum12` line of the configured code and issuer. It has no contract of its own; `Rewards.FindTarget` states its use. |
| `Rewards.ScaledReward` | stellar-reward-bot/bot.js:63 | The exact product balance × rate. It has no contract of its own; `Rewards.ToStroops`, `Rewards.PaymentHasEligibleSource` and `Rewards.EligibleHolderIsPaid` state its use. |
| `Rewards.BelowMinimum` | stellar-reward-bot/bot.js:66 | `reward < MIN_PAYMENT` on the exact reward. It has no contract of its own; `Rewards.ToStroops` and `Rewards.IneligibleHolderIsSkipped` state its use. |
| `Rewards.Outcomes` | stellar-reward-bot/bot.js:39 | `holders.map(...)`: one optional payment per holder. It has no contract of its own; `Rewards.CalculateRewardsIsOrderedSelection` states its properties. |
| `Rewards.Present` | stellar-reward-bot/bot.js:75 | `filter(Boolean)` keeps exactly the present values and never lengthens the list. |
| `Rewards.CalculateRewards` | stellar-reward-bot/bot.js:37-76 | The output is never longer than the holder list. No payment goes to the distributor, and none is below `MIN_PAYMENT`. |
| `Rewards.PresentIsOrderedSelection` | stellar-reward-bot/bot.js:75 | The j-th kept value is the value at the j-th present position, so the filter keeps input order. |
| `Rewards.CalculateRewardsIsOrderedSelection` | stellar-reward-bot/bot.js:39-75 | The output is the subsequence of holders for which the callback yields a payment, at strictly increasing positions, each paid at its own id. Every holder that yields a payment is in it. |
| `Rewards.PaymentHasEligibleSource` | stellar-reward-bot/bot.js:41-74 | Every payment comes from a holder that is not the distributor and has a first matching balance line. The reward from that line is not below `MIN_PAYMENT`, and the amount is that reward rounded. |
| `Rewards.EligibleHolderIsPaid` | stellar-reward-bot/bot.js:48-74 | A holder other than the distributor whose first matching line earns at least `MIN_PAYMENT` is paid exactly that reward, and its own position is among the selected ones. |
| `Rewards.IneligibleHolderIsSkipped` | stellar-reward-bot/bot.js:41-69 | A holder is skipped if it is the distributor, if it has no matching line, or if the reward from its first matching line is below `MIN_PAYMENT`. |
| `Rewards.LargeBalanceIsPaid` | stellar-reward-bot/bot.js:62-74 | A balance of 1,000,000 at rate 0.01 is paid 10000.0000000. A native line before the asset line does not interfere. |
| `Rewards.DustBalanceIsSkipped` | stellar-reward-bot/bot.js:62-69 | A balance of 0.000001 at rate 0.01 earns less than `MIN_PAYMENT` and is skipped. |
| `Distribution.BatchesPartition` | stellar-reward-bot/bot.js:106-107 | N payments make ceil(N/100) batches. Each batch is non-empty and holds at most 100; all but the last hold exactly 100. Concatenated, the batches are the payments. |
| `Distribution.BatchAt` | stellar-reward-bot/bot.js:106-107 | The k-th batch is `payments.slice(100k, 100k + 100)`, and 100k is inside the list. |
| `Distribution.Batches` | stellar-reward-bot/bot.js:106-107 | The payments in consecutive groups of 100. It has no contract of its own; `Distribution.BatchesPartition` and `Distribution.BatchAt` state its properties. |
| `Distribution.Attempts` | stellar-reward-bot/bot.js:106-131 | Every batch with the ledger's answer to it, in order. It has no contract of its own; `Distribution.RunBatches` is proved equal to it. |
| `Distribution.AsWrittenAttempts` | stellar-reward-bot/bot.js:106-131 | The attempts up to and including the first batch that gets no response. It has no contract of its own; `Distribution.RunBatchesAsWritten` is proved equal to it and `Distribution.UnansweredBatchStrandsTheRest` evaluates it. |
| `Distribution.FirstUnanswered` | stellar-reward-bot/bot.js:126-131 | The position of the first batch that gets no response, or the number of batches if none does. |
| `Distribution.RunBatches` | stellar-reward-bot/bot.js:106-132 | Every batch is submitted in order, ceil(N/100) of them, each once, whatever the ledger answered to the earlier ones (the corrected error handler). Together the submitted batches are the payments. |
| `Distribution.RunBatchesAsWritten` | stellar-reward-bot/bot.js:106-132 | As written, the loop stops after the first batch that gets no response. It is abandoned exactly when some batch gets none. |
| `Distribution.SubmitPayments` | stellar-reward-bot/bot.js:96-132 | A payment list that pays the distributor is refused before anything is submitted. Otherwise a failed account load ends the cycle with nothing submitted. Otherwise every batch is submitted (with the corrected error handler, see ## Findings). |
| `Distribution.DistributeRewards` | stellar-reward-bot/bot.js:78-136 | A failed listing, an empty holder list or an empty payment list ends the cycle before the account is loaded, with nothing submitted. Otherwise the batches of the computed payments are submitted (with the corrected error handler, see ## Findings). The distributor guard never fires. |
| `Distribution.UnansweredBatchStrandsTheRest` | stellar-reward-bot/bot.js:126-131 | 250 payments make batches of 100, 100 and 50. If the second batch gets no response, the loop as written submits two batches. The corrected loop submits all three, and the third is accepted. |

## Findings

| source | as written | input that shows it | evidently intended | confidence | as-written member | corrected member |
|---|---|---|---|---|---|---|
| stellar-reward-bot/bot.js:129-131 | The handler of a failed submission reads `error.response.data`. An error with no `response` makes the handler itself throw, and that exception leaves the batch loop for the outer handler. | 250 payments where the submission of the second batch fails with no HTTP response (a timeout or a reset connection): the third batch is never submitted. | Log the failure and go on to the next batch, so every batch is attempted. | medium, not executed | `Distribution.RunBatchesAsWritten` | `Distribution.RunBatches` |

`DistributeRewards` uses the corrected loop.

## Left out

- Holder listing: the pagination in `fetchHolders` (pages of 200, `records.next()`) is network I/O. The cycle takes its result, or its failure, as a parameter.
- Building and signing transactions (`TransactionBuilder`, `Operation.payment`, `setTimeout(30)`, `build`, `sign`, sequence numbers) happens in the SDK, and `submitTransaction` and `loadAccount` call the network. A submission is the abstract answer `ledger(k)`, and an account load is a flag. An exception thrown while building or signing a batch would also end the loop; the SDK's code is not part of this model, so that is not modelled.
- Floating point: `parseFloat` of balances and of `REWARD_RATE`, the product balance × rate and the decimal formatting of `toFixed(7)` are replaced by exact integer arithmetic. Rates are limited to seven decimals, and a negative or non-numeric rate is not represented.
- `Rewards.ToStroops`: rounds the exact reward half up. It does not reproduce the rounding of a binary floating-point number.
- Configuration from the environment, console logging, and the cron schedule (its comment says every 15 minutes, but the expression fires every minute) are plumbing.
- Overlapping cycles, when a tick comes before the previous cycle has finished, are a concurrency matter with no lock in the code.
- The uncaught-error path of `distributeRewards` is modelled only for the holder listing and the account load, the two network calls before the loop.
