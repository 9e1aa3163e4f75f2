# VeilVM in Dafny

VeilVM's consensus state is one key-value store changed by nineteen actions. Each action either commits or
is rolled back. This project models that state machine and proves what it keeps, over single steps and over
whole runs that start at a valid genesis.

## How the model is built

| file | what it holds |
|---|---|
| `Words`, `Nonlinear`, `Wire` | machine words with explicit checks and wrap-around, facts about products, big-endian bytes |
| `Balances`, `IntegerRoot` | account maps and their totals, the Newton square root on 64-bit words |
| `Amm`, `Economy`, `Clearing` | what each action computes, as functions on values |
| `Envelope`, `Preimage`, `Verifier`, `ShieldedCircuit` | proof envelopes, hash preimages, verifier dispatch, circuit constraints |
| `Genesis`, `Chain` | the genesis state, one step (`Execute`), one committed step (`Apply`), a run (`Run`) |
| `Store` | a class with one field per kind of key and one method per action, proved to refine `Chain`, with rollback |
| `StorageKeys`, `StorageCodecs`, `ByteStore` | byte keys, byte values, and the refinement of typed maps by bytes |
| `StateKeys`, `StateReads` | the state key by key, and that actions write and read nothing but the keys they declare |
| `StateBytes`, `ByteMachine` | runs as histories of byte writes, and the state machine that runs on bytes alone |
| `PoolProofs`, `LedgerProofs`, `EconomyProofs`, `BoardProofs`, `MarketProofs` | what every step keeps, and run-level inductions |
| `Effects`, `Outcomes` | what every action does to every account, and leaves in every other field |
| `Progress`, `Verdicts` | exact success conditions, and which error every action returns when |
| `Layouts` | every byte by position: words, preimages, envelopes, keys, stored values, the whole store |
| `Theorems` | theorems over every run from genesis |
| `Limits`, `Witnesses` | where treasury and mint arithmetic wraps and exactly what is accepted then, with inputs from valid genesis files |

Three things come in as parameters. SHA-256 is a function from byte strings to 32 bytes. The two proof systems
are predicates. Each transaction carries its block timestamp and the verifier installed when it runs. No
theorem assumes that SHA-256 is injective, which no 32-byte hash can be: where hash binding matters, the
conclusion is "equal, or the canonical preimages of these two clears collide".

Behaviour inherited from the platform: actions run one after another, and an action that returns an error
leaves no writes. The second point is a method here (`Store.Store.Submit`). The time-rate theorems assume
positive, non-decreasing block timestamps (`Timed`).

## Findings

Each entry names the lemma that shows it at an input and the lemma that gives the exact condition.

- `intSqrt` divides by zero at 2^64 - 1: the first `x + 1` wraps to zero. In the code this is a runtime panic, not an
  error return; the model returns an error in its place and rolls the action back. `Witnesses.DivisionByZeroReached`
  runs from a valid genesis to a covered first deposit of (3, 6148914691236517205) that faults. `IntegerRoot.IntSqrt` is
  the floor square root at every other word, so a first deposit faults exactly when its product is 2^64 - 1
  (`Progress.CoveredDepositIff`).
- A deposit can overflow although it is covered and would mint a small amount: both shares are computed as words, the
  larger, unused one too. `Witnesses.DepositOverflowReached` runs from a valid genesis to a pool where a covered deposit
  worth 512 LP tokens is refused; `Progress.AddIff` is the exact condition, `Progress.CoveredDepositIff` the exact error.
- Epoch deadlines are int64 sums. A deadline that does not fit is 2^64 less, before its own start
  (`EconomyProofs.DeadlineExact`), so there is no wait at all: the next release or a fresh mint epoch comes at the same
  timestamp. Genesis only asks for a positive epoch. `Witnesses.ReleaseTwiceAtOnce`
  releases twice at one time and `Witnesses.MintThriceAtOnce` mints three whole limits at one time, from valid genesis
  files; `Limits.ReleaseWaitIff`, `Limits.ReleaseAtOnceIff`, `Limits.EpochOverIff` and `Limits.MintAgainIff` are the exact
  conditions, and `Limits.MintsUnthrottled` shows that the window bound is then void.
- A proof deadline that overflows does the opposite: every proof of its window is too late
  (`BoardProofs.LongestDeadlineRejects`, exactly `BoardProofs.OnTimeIff`).
- The release cap's product is a 64-bit word. Wrapping never lets more out than the cap allows, but it can freeze the
  treasury for ever: `Witnesses.FrozenGenesis` locks 2^62 at four bips and no run releases anything. The cap is exact
  precisely when the product does not wrap (`LedgerProofs.CapExactIff`), and the treasury is frozen precisely when the
  wrapped product is below ten thousand (`Limits.FrozenIff`).
- The fee router's products are 64-bit words. The three shares still add up (`LedgerProofs.SharesAddUp`), but a share is
  the exact proportional part precisely when its product does not wrap (`LedgerProofs.ShareExactIff`).
  `Witnesses.FeeShareLost` routes 2^63 from a valid genesis that gives the first budget every bip: that budget gets
  nothing and operations get all of it.
- Even with exact deadlines, a sliding window as long as a mint epoch can mint up to twice the epoch limit minus one
  (`Theorems.MintRate`), and a run from genesis does reach that (`Limits.WindowBoundReached`).
- `PutPool` sorts the asset ids but not the reserves: a pool out of order reads back with each reserve under the other
  asset (`StorageCodecs.UnsortedPoolMisread`), and a pool reads back as written exactly when its assets are in order
  (`StorageCodecs.PoolRoundTrip`). Every reachable pool is.
- Records are write-once, and submission does not compare the hash with the canonical one. A node without a verifier
  that is not strict accepts a proof for an unknown circuit, and its window can never again be proved, nor cleared
  while proofs are required (`Witnesses.WindowBlockedReached`). Under an unchanged configuration and verifier a clear
  succeeds exactly when the accepted hash is canonical for its inputs (`BoardProofs.AcceptedProofClearsIff`).
- A revealed share can be written at the dispute index while a market is active, and a later dispute then replaces it
  for good, unless its bytes happen to be the same (`MarketProofs.ShareIsLost`, `MarketProofs.DisputeReplacesShare`;
  exactly `MarketProofs.OracleEntrySurvivesIff`). A filed dispute is never replaced (`MarketProofs.DisputeIsPermanent`).
- A digest vector with one entry never fixes the public-inputs hash: every digest shares its residue with another one
  (`Verifier.ResidueSibling`), so a vector fixes the digest exactly when it has 32 entries
  (`Verifier.DigestVectorBinds`). Clearing also compares the hash bytes.
- `CanDeduct` accepts a zero fee on an account that does not exist, and `Deduct` rejects it: at the genesis of
  `Witnesses.ZeroFeeRefused`, and exactly then (`Progress.DeductIff`).

## Model

| member | source | states |
|---|---|---|
| IntegerRoot.IntSqrt | actions/amm_common.go:115-126 | The Newton loop on wrapping 64-bit words terminates with the floor square root for every n below 2^64-1, and faults exactly at 2^64-1. |
| IntegerRoot.NewtonStaysAbove | actions/amm_common.go:121-124 | Each Newton step stays at or above the root, despite the two floor divisions. |
| Balances.TotalSplit | storage/storage.go:233-261 | The total of an account map does not depend on which account is counted first. |
| Balances.CreditTotal | storage/storage.go:233-243 | A credit raises the total of all balances by its amount, and succeeds whenever the new total fits a word. |
| Balances.DebitTotal | storage/storage.go:245-261 | A debit, including the removal of emptied accounts, lowers the total by its amount. |
| PoolProofs.DepositKeeps | actions/add_liquidity.go:104-143 | A deposit adds exactly the two amounts to the reserves, keeps the fee, reserve product >= LP supply squared and "no LP iff no reserves", and never lowers the product per squared LP share. |
| PoolProofs.WithdrawKeeps | actions/remove_liquidity.go:103-136 | The same for a withdrawal, which never fails in its subtractions and empties both reserves exactly when all LP is burned. |
| PoolProofs.SwapBound | actions/swap_exact_in.go:112-132 | A swap output is positive and strictly below the out-reserve, and the fee makes the reserve product strictly larger despite double rounding. |
| PoolProofs.TradeKeeps | actions/swap_exact_in.go:134-155 | A swap in either direction changes exactly the two reserves, by input and output, keeps the pool invariant, LP supply and fee, and strictly raises the share value. |
| PoolProofs.RoundTripNoProfit | actions/add_liquidity.go:111-143 | Withdrawing the LP a deposit just minted pays at most the deposited amount of each asset. |
| Effects.FirstDepositMintsRoot | actions/add_liquidity.go:105-110 | A first deposit mints m with m^2 <= x*y < (m+1)^2, and is refused exactly when the product is 2^64-1 or overflows. |
| Effects.LaterDepositMintsMost | actions/add_liquidity.go:111-124 | A later deposit mints the largest number of LP tokens that dilutes neither reserve. |
| Effects.AccountsMove | actions/transfer.go:81-108 | Every successful step changes every account's VEIL and VAI holding by exactly an independently defined signed amount; all other accounts stay put, sender equal to receiver included. |
| Effects.SwapFunds | actions/swap_exact_in.go:108-159 | A swap takes exactly amountIn from the trader and pays exactly the floored constant-product output. |
| Effects.AddFunds | actions/add_liquidity.go:92-102 | A deposit takes exactly the two named amounts, in either asset order. |
| Effects.RemoveFunds | actions/remove_liquidity.go:103-149 | A withdrawal pays exactly the floored proportional part of each reserve. |
| Effects.LpMoves | actions/add_liquidity.go:145-150 | Every successful step changes every LP balance by exactly what the actor's deposit mints or withdrawal burns, and no other account's. |
| Effects.QuoteExact | actions/swap_exact_in.go:112-132 | The step-by-step word arithmetic of a swap, errors included, is the exact fee-reduced constant-product quote with one overflow test. |
| Effects.LpForExact | actions/add_liquidity.go:104-124 | The word arithmetic of a deposit mints the exact amount, exactly when no intermediate result overflows. |
| Effects.WithdrawalExact | actions/remove_liquidity.go:103-113 | The word arithmetic of a withdrawal pays the exact floored parts, and is refused exactly when one of them is nothing. |
| Outcomes.PoolMoves | actions/swap_exact_in.go:134-155 | In every successful step an existing pool keeps its pair and fee, each reserve moves by exactly what the actor gives or gets, the LP supply by what is minted or burned, and other actions leave the pool alone. |
| Outcomes.PoolTermsFixed | actions/swap_exact_in.go:134-155 | Over every run a pool keeps its pair and its fee. |
| Outcomes.CreatePoolIff | actions/create_pool.go:74-120 | A pool is created exactly by governance, once, for VEIL and VAI, with a fee of 1 to 1000 bips, and it stores that fee and is empty. |
| Outcomes.BankOutcome | actions/transfer.go:81-108 | Actions on accounts and pool leave economy and board alone; transfers and fees change VEIL balances only. |
| Outcomes.RouteFeesOutcome | actions/route_fees.go:96-119 | Each of the first two budgets grows by its own floored share wherever its product does not wrap, operations by the rest, and nothing but the budgets and the payer changes. |
| Outcomes.ReleaseOutcome | actions/release_col_tranche.go:109-123 | A release moves its amount from locked to live, adds it to released, stamps the time, and changes nothing else. |
| Outcomes.MintOutcome | actions/mint_vai.go:101-151 | A mint raises the debt, sets the epoch and its counter, credits VAI, and changes nothing else. |
| Outcomes.BurnOutcome | actions/burn_vai.go:83-97 | A burn lowers the debt and the burner's VAI, and changes nothing else. |
| Outcomes.UpdateReserveIff | actions/update_reserve_state.go:73-102 | Governance alone reports the reserve, which is stored as given. |
| Outcomes.SetRiskParamsIff | actions/set_risk_params.go:80-119 | Governance sets risk parameters exactly within their bounds, which are stored as given; errors in order. |
| Outcomes.CreateMarketIff | actions/create_market.go:85-128 | A market is created exactly when new, with two outcomes or more, a positive time, a covered bond and a short question, and stores exactly these terms, active and unresolved. |
| Outcomes.ResolveMarketIff | actions/resolve_market.go:77-116 | A market is resolved exactly while active with an outcome in range, which is stored, and keeps its terms. |
| Outcomes.DisputeIff | actions/dispute.go:80-127 | A dispute is filed exactly against a resolved market with a covered bond and evidence, takes the bond and stores bond and evidence at the dispute index. |
| Outcomes.CommitOrderIff | actions/commit_order.go:83-126 | An order is stored exactly within its bounds on an active market, commitment before envelope. |
| Outcomes.RevealBatchIff | actions/reveal_batch.go:81-122 | A share is stored exactly within its bounds on an active market, behind its window, under its index. |
| Outcomes.SetProofConfigIff | actions/set_proof_config.go:76-111 | Governance sets a proof configuration exactly within its bounds, which is stored as given; errors in order. |
| Outcomes.ClearOutcome | actions/clear_batch.go:197-201 | A clear stores price, volume and fills hash under its window, and nothing else. |
| Outcomes.SubmitOutcome | actions/submit_batch_proof.go:169-207 | A submission adds one record, blob and glyph and one to the prover's counters, every field as submitted and stamped with the time, and changes nothing else. |
| Outcomes.GlyphExact | actions/glyph.go:32-107 | Entropy hashes tag, transaction, market, window, prover, commitment and inputs in this order; class and rarity follow from its first three bytes. |
| Genesis.GenesisExact | genesis/genesis.go:79-165 | The genesis state holds every configured role, limit and share in its place, zero counters and empty records, and gives each account exactly its allocations. |
| Genesis.GenesisIff | genesis/genesis.go:270-344 | A genesis is accepted exactly within the stated bounds. |
| Balances.DebitExact | storage/storage.go:245-261 | A debit needs a covering account, takes from it alone, and removes it exactly when nothing is left. |
| Balances.CreditExact | storage/storage.go:233-243 | A credit needs a sum that fits a word and adds to one account, which is there afterwards. |
| EconomyProofs.ReportExact | vm/server.go:348-362 | The reported ratio is the floored quotient in bips, the largest word when that does not fit, and zero without debt. |
| Verdicts.TransferSays | actions/transfer.go:81-108 | Which error a transfer returns and when. |
| Verdicts.CreatePoolSays | actions/create_pool.go:74-120 | Which error a pool creation returns and when. |
| Verdicts.AddSays | actions/add_liquidity.go:73-160 | Which error a deposit returns and when, overflow and division by zero included. |
| Verdicts.RemoveSays | actions/remove_liquidity.go:73-164 | Which error a withdrawal returns and when. |
| Verdicts.SwapSays | actions/swap_exact_in.go:71-168 | Which error a swap returns and when. |
| Verdicts.RouteFeesSays | actions/route_fees.go:75-131 | Which error fee routing returns and when. |
| Verdicts.ReleaseSays | actions/release_col_tranche.go:74-131 | Which error a release returns and when, in exact arithmetic. |
| Verdicts.MintSays | actions/mint_vai.go:79-157 | Which error a mint returns and when, in exact arithmetic. |
| Verdicts.BurnSays | actions/burn_vai.go:72-103 | Which error a burn returns and when. |
| Verdicts.MarketSays | actions/create_market.go:85-128 | Which error creation, resolution and dispute of a market return and when. |
| Verdicts.OrderSays | actions/commit_order.go:83-126 | Which error an order and a share return and when. |
| Verdicts.SubmitSays | actions/submit_batch_proof.go:86-217 | Which error a submission returns and when, the verifier's included. |
| Verdicts.ClearSays | actions/clear_batch.go:89-209 | Which error a clear returns and when, the proof gate's and the verifier's included. |
| Verdicts.VerifierSays | actions/proof_verifier.go:108-135 | Which error consensus verification returns and when. |
| Store.RunSnoc | actions/transfer.go:81-108 | A run takes its transactions in order: one more transaction is one more step from where the run was. |
| LedgerProofs.TransferKeeps | actions/transfer.go:95-102 | A transfer keeps the holdings of both assets, also when sender and receiver are the same. |
| LedgerProofs.AddLiquidityKeeps | actions/add_liquidity.go:73-160 | The whole action keeps pool invariant, LP total and the holdings of both assets. |
| LedgerProofs.RemoveLiquidityKeeps | actions/remove_liquidity.go:73-164 | The whole action keeps pool invariant, LP total and the holdings of both assets. |
| LedgerProofs.SwapKeeps | actions/swap_exact_in.go:71-168 | The whole action keeps pool invariant, fee, LP supply and holdings, and strictly raises the reserve product. |
| LedgerProofs.SharesAddUp | actions/route_fees.go:101-103 | The three fee shares add up to the routed amount with no underflow, also when the 64-bit products wrap. |
| LedgerProofs.ShareExactIff | actions/route_fees.go:101-102 | A share is the floored proportional part exactly when its 64-bit product does not wrap. |
| Witnesses.FeeShareLost | actions/route_fees.go:96-119 | From a valid genesis with every bip for the first budget, routing 2^63 gives it nothing and operations everything. |
| LedgerProofs.CapExactIff | actions/release_col_tranche.go:105-108 | The release cap is the floored fraction exactly when its 64-bit product does not wrap. |
| LedgerProofs.StepKeepsLedger | actions/route_fees.go:75-131 | Every successful action keeps the ledger invariant and moves VEIL nowhere but into bonds and fees. |
| Theorems.GenesisOk | genesis/genesis.go:79-165 | A valid genesis satisfies every invariant, holds exactly the configured supply, and stores every configuration as given. |
| Theorems.RunKeepsLedger | storage/storage.go:233-261 | Over every run: VEIL in accounts, pool, budgets and vaults plus bonds and fees taken stays constant. |
| Theorems.Conservation | genesis/genesis.go:319-342 | In every reachable state: VEIL plus sinks equals the genesis total; VAI in accounts and pool equals the debt, within its ceiling; LP balances sum to the LP supply; reserve product >= LP supply squared. |
| Theorems.ShareValueNeverFalls | actions/remove_liquidity.go:103-136 | No run that keeps the pool liquid lowers reserve product per squared LP share. |
| Theorems.SwapsRaiseProduct | actions/swap_exact_in.go:112-152 | Over every run without deposits and withdrawals, each successful swap raises the reserve product by at least one. |
| Theorems.NoProfitableCycle | actions/swap_exact_in.go:112-152 | After one or more swaps, if one reserve is at or below its start, the other is strictly above its start. |
| Theorems.TraderNeverProfits | actions/swap_exact_in.go:108-159 | Over every run of swaps by one trader with at least one success, whoever ends with no less of one asset ends with strictly less of the other. |
| Theorems.DepositWithdrawNoProfit | actions/remove_liquidity.go:103-149 | A depositor who withdraws at once ends with no more of either asset, in whichever order the calls name the pair. |
| Theorems.ReachableValuesWritable | storage/storage.go:408-1139 | In every reachable state every stored value under every key, glyphs included, satisfies the rules under which its bytes read back unchanged. |
| Theorems.BytesOfEveryRun | storage/storage.go:184-1139 | Running every transaction on bytes alone from the bytes of genesis leaves bytes that read under any key as the state the run leaves. |
| Theorems.MintRate | actions/mint_vai.go:101-114 | In every run from genesis, any window as long as a mint epoch mints at most twice the limit minus one. |
| Theorems.ReleaseRate | actions/release_col_tranche.go:94-123 | In every run from genesis, n releases leave at least (1-cap)^n of the locked amount, lose nothing, and span at least n-1 epochs. |
| Theorems.BackingLost | actions/update_reserve_state.go:73-102 | A run that loses the backing floor loses it in a successful reserve or risk update by governance, and the lemma names that step. |
| Theorems.BoardSafety | actions/submit_batch_proof.go:157-207 | The record and market invariants hold in every reachable state. |
| Progress.TransferIff | actions/transfer.go:81-108 | On a sound ledger a transfer succeeds exactly when the value is positive, covered and the memo short; no credit overflows. |
| Progress.DeductIff | storage/balance_handler.go:22-51 | A fee that passes the check is deducted, unless it is zero and the account does not exist. |
| Witnesses.ZeroFeeRefused | storage/balance_handler.go:22-51 | In a genesis without accounts a zero fee passes the check and cannot be deducted. |
| Progress.BurnIff | actions/burn_vai.go:80-97 | A burn succeeds exactly when the amount is positive and covered; the debt-invariant error is unreachable. |
| Progress.RouteFeesIff | actions/route_fees.go:83-122 | Routing succeeds exactly when the amount is positive and covered; no budget overflows. |
| Progress.MintIff | actions/mint_vai.go:79-151 | A mint succeeds exactly when the authority mints a positive amount within ceiling, backing floor and what the epoch leaves; the credit never fails. |
| Progress.ReleaseIff | actions/release_col_tranche.go:82-119 | A release succeeds exactly on authority, the wait, what is locked and the wrapped cap product, all in exact arithmetic; no addition overflows. |
| Progress.SwapIff | actions/swap_exact_in.go:79-159 | A swap succeeds exactly when the pair is valid, the pool liquid, the trader covered, and the exact output positive and at least the minimum. |
| Progress.RemoveIff | actions/remove_liquidity.go:81-149 | A withdrawal succeeds exactly when the LP balance covers it and both floored parts are positive and at least the minimum of their asset: the LP debit and both credits cannot fail. |
| Progress.AddIff | actions/add_liquidity.go:81-150 | A deposit succeeds exactly when both assets are covered, no intermediate result overflows (first product below 2^64-1, later both shares within a word), and it mints enough. |
| Progress.CoveredDepositIff | actions/add_liquidity.go:92-150 | Past the two debits only overflow and slippage decide, and which error is returned. |
| Progress.LpSupplyFits | actions/add_liquidity.go:137-140 | The next LP supply fits a word whenever the next reserves do. |
| Progress.SubmitIff | actions/submit_batch_proof.go:86-217 | A proof submission succeeds exactly on its checks in exact arithmetic; no later write fails. |
| Progress.ClearIff | actions/clear_batch.go:89-209 | A clear succeeds exactly with a price and a 32-byte fills hash on an active market and, while proofs are required, by the authority with a timely record that commits to the inputs and still verifies. |
| Witnesses.DivisionByZeroReached | actions/amm_common.go:115-126 | From a valid genesis a run reaches a covered first deposit whose product is 2^64-1, and it divides by zero. |
| Witnesses.DepositOverflowReached | actions/add_liquidity.go:115-123 | From a valid genesis a run reaches a pool where a covered deposit that would mint 512 is refused with an overflow. |
| EconomyProofs.ReleaseStep | actions/release_col_tranche.go:102-120 | A release moves exactly its amount and at most the configured fraction, even when the cap's product wraps. |
| EconomyProofs.LockedDecay | actions/release_col_tranche.go:105-120 | Over every run, locked shrinks at most geometrically in the number of releases; locked+live and locked+released stay constant. |
| EconomyProofs.ReleasesSpaced | actions/release_col_tranche.go:98-101 | Over every run, successful releases are at least an epoch apart. |
| EconomyProofs.DeadlineExact | actions/release_col_tranche.go:98-101 | A 64-bit deadline after a start that is not negative is exact when it fits, and otherwise 2^64 less, before its own start. |
| Limits.ReleaseWaitIff | actions/release_col_tranche.go:98-101 | At every time from the last release on, exactly when the next one is accepted, overflowing deadlines included. |
| Limits.ReleaseAtOnceIff | actions/release_col_tranche.go:98-101 | A second release at the time of the last one is accepted exactly when the deadline overflows. |
| Limits.SomeReleaseIff | actions/release_col_tranche.go:105-111 | Past the deadline some amount can be released exactly when the wrapped cap product reaches ten thousand. |
| Limits.FrozenIff | actions/release_col_tranche.go:105-111 | The treasury stays the same over every run exactly when the wrapped cap product is below ten thousand. |
| Witnesses.ReleaseTwiceAtOnce | actions/release_col_tranche.go:98-101 | From a valid genesis two releases succeed at one ordinary timestamp. |
| Witnesses.FrozenGenesis | actions/release_col_tranche.go:105-111 | From a valid genesis with 2^62 locked at four bips no run releases anything. |
| EconomyProofs.MintedWithinAllowance | actions/mint_vai.go:101-151 | Over every run, mints in a window never exceed the allowance left by the current epoch. |
| EconomyProofs.MintedInEpoch | actions/mint_vai.go:101-114 | While one epoch lasts its counter is exactly what was minted, so an epoch mints at most its limit. |
| Limits.EpochOverIff | actions/mint_vai.go:104-107 | At every time from its start on, exactly when a mint epoch is over, overflowing ends included. |
| Limits.MintExact | actions/mint_vai.go:101-151 | Exactly when a mint is accepted and the state it leaves, in exact arithmetic. |
| Limits.MintAgainIff | actions/mint_vai.go:101-114 | An exhausted epoch accepts another mint at the time it began exactly when its end overflows or its length is zero in 64 bits. |
| Limits.MintsUnthrottled | actions/mint_vai.go:101-151 | From a time whose epoch end overflows, one window mints whatever ceiling and floor leave room for. |
| Witnesses.MintThriceAtOnce | actions/mint_vai.go:101-114 | From a valid genesis with limit 10, one window mints 30. |
| Limits.WindowBoundReached | actions/mint_vai.go:101-114 | From every genesis with room for two limits, a run of three mints reaches the window bound. |
| EconomyProofs.BackingStep | actions/mint_vai.go:130-142 | Only reserve and risk updates by governance can break the backing floor, and every mint leaves it satisfied. |
| EconomyProofs.ReportAgrees | vm/server.go:348-362 | The RPC's floored, saturating ratio test gives the mint's verdict in every state. |
| BoardProofs.RunExtendsRecords | actions/submit_batch_proof.go:157-185 | Over every run proof records are only added and recorded blobs never replaced. |
| BoardProofs.GatedClearsAgree | actions/clear_batch.go:139-201 | Two proof-gated clears of one window settle the same price, volume and fills whatever runs in between, or their canonical preimages collide. |
| BoardProofs.SettlementIsFinal | actions/clear_batch.go:139-201 | While proofs are required, over every run, what a gated clear stored never changes, unless a successful clear of that same run collides with it. |
| BoardProofs.GatedClearSettles | actions/clear_batch.go:139-201 | A gated clear stores its inputs under a record that commits to them. |
| BoardProofs.AcceptedProofClears | actions/clear_batch.go:113-201 | After an accepted canonical proof, in every later state with the same configuration and verifier and the market active, the authority's clear succeeds and stores those inputs. |
| BoardProofs.AcceptedProofClearsIff | actions/clear_batch.go:113-201 | In every later state with the same configuration and verifier and the market active, the authority's clear of the submitted window succeeds exactly when the accepted hash is canonical for its inputs. |
| BoardProofs.GatedClearIsCanonical | actions/clear_batch.go:166-196 | Whatever runs in between, a gated clear of a submitted window uses inputs for which the accepted hash is canonical. |
| BoardProofs.BlockedWindow | actions/submit_batch_proof.go:157-167 | After an accepted proof for an unsupported circuit its window is never proved again, nor cleared in any later state that requires proofs. |
| Witnesses.WindowBlockedReached | actions/proof_verifier.go:108-142 | From a valid genesis, without a verifier on a node that is not strict, such a proof is accepted and blocks its window. |
| BoardProofs.ProofGateIff | actions/clear_batch.go:139-196 | On a sound board the proof gate opens exactly for the authority when the record commits to the inputs, has the required type, was on time and still verifies. |
| BoardProofs.SubmittableIff | actions/submit_batch_proof.go:108-167 | The submission checks pass exactly on sizes, market, configuration, authority, window, deadline in exact arithmetic, fresh slot and accepted proof. |
| Verifier.AcceptsIff | actions/proof_verifier.go:108-142 | Consensus verification passes exactly for a readable blob of the required type that the installed key accepts for a supported circuit, or for any readable one without a verifier on a node that is not strict. |
| BoardProofs.OnTimeIff | actions/submit_batch_proof.go:148-155 | The 64-bit deadline test, exactly: a deadline that overflows rejects every proof of its window. |
| BoardProofs.LongestDeadlineRejects | actions/submit_batch_proof.go:152-155 | With the longest deadline a valid configuration can name, every submission is rejected. |
| BoardProofs.RunKeepsBoard | storage/storage.go:922-1023 | Over every run record, blob and glyph share their keys, commitments hash the blob, submission follows the close, and each prover's 64-bit counter is its number of records. |
| BoardProofs.RecordsGrow | actions/submit_batch_proof.go:186-195 | One more accepted proof is one more record for its prover and none for anybody else. |
| BoardProofs.ClearNeverFindsBadBlob | actions/clear_batch.go:166-177 | The commitment-mismatch, missing-blob and unreadable-blob errors are unreachable when clearing. |
| MarketProofs.RunEvolvesMarkets | actions/resolve_market.go:93-110 | Over every run status only moves forward, terms never change, the outcome is in range and frozen once resolved, and disputes are never overwritten. |
| MarketProofs.StepEvolvesMarkets | actions/reveal_batch.go:102-118 | One action moves a status by at most one, and a share written at the dispute index never touches a filed dispute. |
| MarketProofs.DisputeIsPermanent | actions/dispute.go:99-121 | After a dispute its bond and evidence stay at the dispute index in every later state. |
| MarketProofs.OracleEntrySurvivesIff | actions/reveal_batch.go:112-118 | An oracle entry survives a step exactly when the step neither shows other bytes at its slot nor disputes its market at the dispute index with other bytes. |
| MarketProofs.DisputeReplacesShare | actions/dispute.go:112-121 | A share at the dispute index is lost to a later dispute for good, exactly when the dispute's bytes differ. |
| MarketProofs.ShareIsLost | actions/dispute.go:99-121 | In every active market a share, a resolution and a dispute all succeed and leave the dispute in place of the share. |
| Envelope.IsValidCircuitId | actions/proof_verifier.go:236-250 | The scan accepts exactly non-empty ids of at most 63 lower-case, digit and -_. characters. |
| Envelope.ParseBuildV1 | actions/proof_verifier.go:52-71 | A built VZK1 envelope parses back to its parts. |
| Envelope.ParseBuildV2 | actions/proof_verifier.go:75-106 | A built VZK2 envelope parses back to its parts, with the circuit id trimmed. |
| Envelope.BuildParse | actions/proof_verifier.go:165-234 | A parsed envelope with a proof type, within the size limit, is rebuilt byte for byte. |
| Envelope.ParseInjective | actions/proof_verifier.go:144-163 | No two blobs parse to the same result, raw blobs included. |
| Envelope.TruncationRejected | actions/proof_verifier.go:173-219 | A proper truncation of an enveloped blob is rejected exactly when at least four bytes remain. |
| Preimage.FieldsInjective | actions/proof_hash.go:18-42 | The preimage fields determine all five inputs. |
| Preimage.DomainsDisjoint | actions/proof_hash.go:64-88 | A clear preimage never equals a shielded-ledger preimage. |
| Preimage.ExpectedPreimageInjective | actions/clear_batch.go:251-280 | Equal expected preimages come from equal inputs and the same circuit. |
| Preimage.ClearingAndVerifierAgree | zk/verifier.go:201-220 | Clearing supports exactly the circuits the verifier supports, picks the matching preimage, and both read a missing id as clear-hash. |
| Verifier.ValidateDigestVector | zk/verifier.go:235-259 | The check passes exactly for the packed digest modulo the field order or the 32 digest bytes. |
| Verifier.ResidueSibling | zk/verifier.go:222-245 | Every 32-byte digest shares its residue modulo the field order with a different one. |
| Verifier.DigestVectorBinds | zk/verifier.go:222-259 | An accepted digest vector fixes the digest exactly when it has 32 entries. |
| ShieldedCircuit.Define | zk/shielded_ledger_circuit.go:44-98 | The assertions succeed exactly on the stated shape and digest. |
| ShieldedCircuit.ByteSliceNonZero | zk/shielded_ledger_circuit.go:138-144 | The field sum of at most 32 bytes is zero only when all bytes are. |
| ShieldedCircuit.LiteralBytes | zk/shielded_ledger_circuit.go:128-136 | The byte-wise assertion holds exactly for equal strings. |
| ShieldedCircuit.SatisfiedIff | zk/shielded_ledger_circuit.go:44-98 | The constraints hold for a string exactly when it is the builder's output on five non-zero fields and hashes to the digest. |
| Genesis.ValidateTokenomics | genesis/genesis.go:270-344 | The loader's checks and running sum pass exactly on valid parameters whose supply fits and matches. |
| Genesis.CreditAllTotal | genesis/genesis.go:85-92 | Crediting allocations one by one, repeated addresses included, totals their sum. |
| StorageKeys.KeyBytesInjective | storage/storage.go:184-599 | Two keys of any kinds have the same bytes exactly when they mean the same; only the order of a pool's pair is forgotten. |
| StorageKeys.DisputeKeyAliases | storage/storage.go:357-368 | A dispute shares its key with the oracle slot at index 0xFFFFFFFF and with nothing else. |
| StorageCodecs.SplitOfConcat | storage/storage.go:601-630 | Fixed-width fields are recovered from their concatenation. |
| StorageCodecs.PoolRoundTrip | storage/storage.go:408-459 | A pool reads back as written exactly when its assets are in order. |
| StorageCodecs.UnsortedPoolMisread | storage/storage.go:408-459 | A pool out of order reads back with each reserve under the other asset. |
| StorageCodecs.MarketRoundTrip | storage/storage.go:273-297 | A market reads back as written. |
| StorageCodecs.TreasuryConfigRoundTrip | storage/storage.go:601-630 | A treasury configuration reads back as written. |
| StorageCodecs.TreasuryRoundTrip | storage/storage.go:632-659 | A treasury state reads back as written. |
| StorageCodecs.FeeConfigRoundTrip | storage/storage.go:661-690 | A fee configuration reads back as written when its shares are complete, and is refused on reading otherwise. |
| StorageCodecs.FeesRoundTrip | storage/storage.go:692-717 | Fee budgets read back as written. |
| StorageCodecs.VaiConfigRoundTrip | storage/storage.go:719-749 | A stablecoin configuration reads back as written. |
| StorageCodecs.VaiRoundTrip | storage/storage.go:751-776 | A stablecoin state reads back as written. |
| StorageCodecs.RiskRoundTrip | storage/storage.go:778-839 | An accepted risk configuration reads back as written. |
| StorageCodecs.ReserveRoundTrip | storage/storage.go:841-864 | A reserve state reads back as written. |
| StorageCodecs.ProofConfigRoundTrip | storage/storage.go:866-920 | An accepted proof configuration reads back as written. |
| StorageCodecs.RecordRoundTrip | storage/storage.go:922-993 | An accepted proof record with its two variable-length hashes reads back as written. |
| StorageCodecs.VellumRoundTrip | storage/storage.go:995-1023 | An accepted proof blob reads back as written. |
| StorageCodecs.SwornRoundTrip | storage/storage.go:1045-1072 | Prover counters read back as written. |
| StorageCodecs.GlyphRoundTrip | storage/storage.go:1096-1139 | An accepted glyph reads back as written. |
| ByteStore.EntryRoundTrip | storage/storage.go:408-1139 | Every kind of value the actions store is read back as written. |
| ByteStore.BytesRefineTyped | storage/storage.go:184-599 | After any history of inserts and removes, reading any key through the bytes gives what independent typed maps hold. |
| StateKeys.StepFrame | actions/add_liquidity.go:35-42 | No action changes a key that its StateKeys does not declare for writing. |
| StateReads.StepReads | actions/mint_vai.go:40-48 | An action reads nothing but the keys its StateKeys declares: on states that agree there it gives the same verdict and leaves states that agree there. |
| StateBytes.EntryLegal | storage/storage.go:408-1139 | Every value of a sound state is of its key's kind, accepted by its Put and read back by its Get. |
| StateBytes.StepRepresented | storage/storage.go:184-1139 | Legal byte writes to the declared keys turn a history for the state before an action into one for the state after it. |
| StateBytes.RunRepresented | storage/storage.go:184-1139 | Every run extends such a history by legal byte writes to one for the state it leaves. |
| StateBytes.GenesisRepresented | genesis/genesis.go:79-165 | Genesis is a legal history of byte writes that represents the genesis state. |
| ByteMachine.ByteExecuteCommutes | storage/storage.go:184-1139 | An action that decodes its declared keys from the bytes, computes and encodes what it writes fails with the same error as on the state, or leaves the bytes of the next state. |
| ByteMachine.ByteRunCommutes | storage/storage.go:184-1139 | A run on bytes leaves the bytes of the state that the run leaves. |
| StateBytes.BytesDetermine | storage/storage.go:184-1139 | Histories that leave the same bytes represent the same state. |
| Layouts.U16Bytes | storage/storage.go:184-190 | A 16-bit word is stored with its high byte first. |
| Layouts.U32Bytes | storage/storage.go:357-364 | A 32-bit word is stored with its most significant byte first. |
| Layouts.U64Bytes | storage/storage.go:229-231 | A 64-bit word is stored as its upper and then its lower half. |
| Layouts.I64Bytes | storage/storage.go:601-630 | A negative int64 is stored in two's complement. |
| Layouts.ClearPreimageAt | actions/proof_hash.go:18-42 | The clear preimage byte by byte: tag, market, window, price, volume, length of the fills hash, fills hash. |
| Layouts.ShieldedPreimageAt | actions/proof_hash.go:64-88 | The shielded-ledger preimage byte by byte. |
| Layouts.CircuitNames | zk/verifier.go:201-220 | The two circuit names byte by byte. |
| Layouts.EnvelopeV1At | actions/proof_verifier.go:52-71 | When a VZK1 envelope is built, and where each part is. |
| Layouts.EnvelopeV2At | actions/proof_verifier.go:75-106 | When a VZK2 envelope is built, and where each part is. |
| Layouts.RawProofs | actions/proof_verifier.go:144-163 | Everything without one of the two magics is a raw proof. |
| Layouts.CircuitIdIff | actions/proof_verifier.go:236-250 | The accepted characters and length of a circuit name, by character code. |
| Layouts.TrimExact | actions/proof_verifier.go:75-83 | Trimming cuts white space off both ends, and all of it. |
| Layouts.KeysAt | storage/storage.go:184-599 | Every kind of key has the stated prefix, parts in order and size hint. |
| Layouts.PoolAt | storage/storage.go:408-419 | Where each field of a stored pool is. |
| Layouts.MarketAt | storage/storage.go:273-281 | Where each field of a stored market is. |
| Layouts.TreasuryConfigAt | storage/storage.go:601-610 | Where each field of a stored treasury configuration is. |
| Layouts.TreasuryAt | storage/storage.go:632-641 | Where each field of a stored treasury state is. |
| Layouts.FeesAt | storage/storage.go:661-717 | Where each field of a stored fee configuration and of stored budgets is. |
| Layouts.VaiAt | storage/storage.go:719-776 | Where each field of a stored stablecoin configuration and state is. |
| Layouts.RiskAt | storage/storage.go:778-839 | Where each field of a stored risk configuration is. |
| Layouts.ReserveAt | storage/storage.go:841-864 | Where each field of a stored reserve state is. |
| Layouts.ProofConfigAt | storage/storage.go:866-920 | Where each field of a stored proof configuration is. |
| Layouts.RecordAt | storage/storage.go:922-993 | When a proof record is stored, and where each field is. |
| Layouts.VellumAt | storage/storage.go:995-1023 | When a blob is stored, and where its length and bytes are. |
| Layouts.SwornAt | storage/storage.go:1045-1072 | Where each prover counter is. |
| Layouts.GlyphAt | storage/storage.go:1096-1139 | When a glyph is stored, and where each field is. |
| Layouts.AmountAndResultAt | storage/storage.go:345-352 | A balance is one word; a batch result is price, volume and fills hash. |
| Layouts.StoreAt | storage/storage.go:184-1139 | A store that represents a state holds under every key exactly the bytes that the Put of that field gives. |
| Verifier.FieldOrder | zk/verifier.go:222-233 | The order of the BN254 scalar field. |
| Store.Store.constructor | storage/storage.go:82-180 | The store holds one field per kind of key. |
| Store.Store.InitializeState | genesis/genesis.go:79-165 | Initialization succeeds exactly for a valid genesis and leaves the genesis state, with every configuration and both vaults as given. |
| Store.Store.SubAssetBalance | actions/amm_common.go:62-77 | The stored balances become the specified debit and the balance left is returned, or the specified error. |
| Store.Store.AddAssetBalance | actions/amm_common.go:79-94 | The stored balances become the specified credit and the new balance is returned, or the specified error. |
| Store.Store.Transfer | actions/transfer.go:81-108 | The method refines the specified transfer, errors included. |
| Store.Store.DeductFee | storage/balance_handler.go:43-51 | The method refines the specified debit of the sponsor. |
| Store.Store.CreatePool | actions/create_pool.go:74-120 | The method refines the specified pool creation, errors included; success means there was no pool and the new one is empty and sound. |
| Store.Store.MintedFor | actions/add_liquidity.go:104-124 | The root and proportional branches compute the specified LP amount. |
| Store.Store.AddLiquidity | actions/add_liquidity.go:73-160 | The method refines the specified deposit and returns what the LP supply grew by. |
| Store.Store.RemoveLiquidity | actions/remove_liquidity.go:73-164 | The method refines the specified withdrawal and returns what the pool's holding of each named asset fell by. |
| Store.Store.SwapExactIn | actions/swap_exact_in.go:71-168 | The method refines the specified swap, keeps fee and LP supply, and returns what the pool's holding of the bought asset fell by. |
| Store.Store.RouteFees | actions/route_fees.go:75-131 | The method refines the specified routing, errors included, and adds each of the first two shares to its own budget. |
| Store.Store.ReleaseTranche | actions/release_col_tranche.go:74-131 | The method refines the specified release, errors included. |
| Store.Store.NextVai | actions/mint_vai.go:87-142 | The checks and updates of a mint give the specified stablecoin state or error. |
| Store.Store.MintVai | actions/mint_vai.go:79-157 | The method refines the specified mint, errors included. |
| Store.Store.BurnVai | actions/burn_vai.go:72-103 | The method refines the specified burn, errors included. |
| Store.Store.CreateMarket | actions/create_market.go:85-128 | The method refines the specified creation; success takes exactly the bond and adds exactly one active market that was not there. |
| Store.Store.ResolveMarket | actions/resolve_market.go:77-116 | The method refines the specified resolution; success changes one active market, keeps its terms and stores an outcome in range. |
| Store.Store.Dispute | actions/dispute.go:80-127 | The method refines the specified dispute; success takes exactly the bond and changes one market and the one oracle slot of the dispute. |
| Store.Store.CommitOrder | actions/commit_order.go:83-126 | The method refines the specified commitment; success needs an active market and changes the trader's slot alone. |
| Store.Store.RevealBatch | actions/reveal_batch.go:81-122 | The method refines the specified share; success needs an active market and changes the chosen slot alone. |
| Store.Store.ClearBatch | actions/clear_batch.go:89-209 | The method refines the specified clear, errors included; success stores price, volume and fills hash in its slot alone, failure nothing. |
| Store.Store.RecordProof | actions/submit_batch_proof.go:169-207 | Record, blob, counter and glyph are written together with the submitted fields and the time, and no other slot or prover changes. |
| Store.Store.SubmitBatchProof | actions/submit_batch_proof.go:86-217 | The method refines the specified submission, errors included; success fills a free slot with the time, the window close and the blob. |
| Store.Store.SetProofConfig | actions/set_proof_config.go:76-111 | The configuration changes exactly when governance sets a valid one. |
| Store.Store.DispatchEconomy | actions/set_risk_params.go:80-119 | The economy actions, reserve and risk updates included, refine their specification. |
| Store.Store.Submit | actions/swap_exact_in.go:108-159 | A transaction leaves the specified state on success and, after partial writes, the old state on failure. |
| Store.Store.SubmitAll | actions/transfer.go:81-108 | Running transactions in order leaves the state of the specified run. |

## Left out

- A genesis without a tokenomics section: the singletons are then never written and every action that reads one fails; the model starts from a genesis that has the section.
- Genesis defaults (`applyTokenomicsDefaults`) and JSON loading: each default replaces one zero field by a constant before validation; the model starts from the values after that.
- Platform code: fee market, mempool, state-key permissions other than which keys may be written, value size limits behind the chunk hints, action marshalling, result structs beyond the amounts the pool methods return.
- The first application prefix byte is defined by the platform; keys are modelled for every admissible value.
- Groth16 and PLONK verification, witness decoding and key loading: foreign libraries, kept as deterministic predicates.
- The inside of SHA-256 (section 6.2 of FIPS 180-4): a function parameter.
- The prover trust score (`scoreBloodswornTrust`): a report computed from the stored counters; no action reads it.
- `strings.TrimSpace` is modelled for ASCII white space; the other Unicode spaces are not, and no valid circuit id contains any.
- Process-local telemetry, RPC methods other than the reserve report, command-line tools and scripts.
- The pool map: only VEIL and VAI are supported, so it has one possible key and is an option; LP balances are keyed by account alone. The byte keys keep the pair.
- Errors of reading malformed stored bytes inside actions: the actions run on typed maps, and `Theorems.BytesOfEveryRun` shows that every stored value decodes to what the maps hold.
- The order of single Put and Remove calls inside one action on bytes: the methods of `Store` keep it on typed maps, while `ByteMachine` writes an action's keys after computing; failed actions write nothing in both.
