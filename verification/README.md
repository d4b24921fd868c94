# A verified model of the UdonFi lending contracts

This project models the core lending engine, the deployed lending pool and the liquidation engine in front of it, and
proves what they keep.

**The core lending engine** (`contracts/core`). One global ledger and many reserve records are kept in step by paired
primitives; amounts become shares by gcd-reduced multiplication and directed rounding; five flows prepare, post,
re-check and commit. Files: `Prelude`, `Rounding`, `Shares`, `AccountingModel`, `Primitives`, `Operations`, `Store`,
`Risk`, `Flows`, `Engine` (the flows as they run), then the theorems in `Sums`, `Totals`, `Runs`, `Positions`, `Drift`,
`Interest`, and a worked state in `CoreExample`; the versioned configuration engine is `ConfigModel` and `ConfigEngine`.

**The deployed lending pool** (`contracts/lending_pool` with its token contracts, bitmap and fixed-point library).
`Bitmap`, `PoolMath`, `ScaledToken` and `Pool` give the operations, `LendingPool` the contract as it runs, and
`PoolInvariant`, `PoolSafety`, `PoolOutcomes`, `PoolLiquidation`, `PoolLiquidationOutcomes`, `PoolRuns`,
`PoolCoverage` the theorems; `LiquidationEngine` is the contract that prepares and executes liquidations in front of
the pool, and `PoolExample` one run from the empty pool that exhibits what can go wrong.

Code that assigns fields or storage is a class whose methods are proved equal to a function on values; the properties
are lemmas about those functions, for every input and every run. Errors of the core engine are values of `LendingError`;
a failed call leaves storage as it was. Panics of the pool are the outcome `Panic`, and the host restores the storage.

## What the proofs found

- Pool interest never accrues, for any reserve with non-negative rate parameters. The comments speak of growing
  indices, but an index of at least one RAY times a multiplier of at least one RAY is at least 10^54, so `ray_mul`
  overflows and the code keeps the old index: both indices are exactly one RAY in every reachable state. Conservation
  of the pool is therefore exact, not approximate.
- A pool balance above about 1.7·10^11 units, times RAY, leaves 128 bits. Such a deposit can be neither withdrawn nor
  partly withdrawn and such a debt cannot be repaid: `PoolOutcomes` says exactly when a supply, withdrawal, borrow or
  repayment finishes. Such a debt also counts as nothing in the health factor, so its borrower can take all collateral
  out again, and it is written off without being recorded as a deficit. A debt also counts as nothing when its product
  with the price leaves 128 bits; with every debt in range the health check does cover the debt at its true value
  (`PoolCoverage`), except when the collateral is too large to be compared. `PoolExample` reaches all of this by a run
  from the empty pool in which every single amount is in range.
- The liquidation engine bounds a seizure by the deposit when a session is prepared and never again, and never bounds
  the cover by the debt. Two sessions on one borrower pay the same collateral out twice; the exact loss is proved.
- A core liquidation at a close factor of 10000 bps can leave a borrower with minus one debt share; the exact condition
  is proved, and `CoreExample` gives a whole state on which it happens.
- The configuration engine's timelock delays nothing: the delay and the expiry are both stated by the caller of the
  update itself, and a valid change of any risk is accepted at once.
- A deposit in the core engine records no user shares, so users' supply shares fall short of the reserve's by exactly
  what deposits minted.

## Model

| member | source | states |
|---|---|---|
| Shares.ComputeGcd | contracts/core/accounting/shares.rs:16-23 | the loop terminates and returns the Euclidean gcd |
| Shares.GcdDivides | contracts/core/accounting/shares.rs:16-23 | that value divides both arguments, the quotients are coprime, and it is an integer combination of them |
| Shares.GcdGreatest | contracts/core/accounting/shares.rs:16-23 | every common divisor divides it, so it is the greatest |
| Shares.ReduceMulDivInPlace | contracts/core/accounting/shares.rs:25-53 | the two in-place reductions return the fraction a·b/d in lowest terms, or the exact error; the overflow guard trips only when that numerator leaves 128 bits |
| Shares.TwoReductionsReachLowestTerms | contracts/core/accounting/shares.rs:36-53 | dividing out gcd(b, d) and then gcd(a, d1) is enough to reach lowest terms, for every a, b, d |
| Shares.MulDivDown | contracts/core/accounting/shares.rs:55-58 | a success is the floor of the true product over the denominator |
| Shares.MulDivUp | contracts/core/accounting/shares.rs:60-63 | a success is the ceiling of the true product over the denominator |
| Shares.MulDivOverflowsExactlyInLowestTerms | contracts/core/accounting/shares.rs:25-63 | both fail with overflow if and only if a·b/gcd(a·b, d) exceeds the 128-bit maximum, and both are symmetric in a and b |
| Shares.RoundTripFavoursPool | contracts/core/accounting/shares.rs:65-107 | converting to shares and back never pays out more supply nor forgives debt, and loses less than one share and one unit |
| Primitives.IncreaseLiquidity | contracts/core/accounting/balance.rs:97-118 | cash enters the reserve, its available part, the ledger liquidity and the ledger assets by one and the same entry |
| Primitives.IncreaseLiquidityInPlace | contracts/core/accounting/balance.rs:97-118 | the field assignments on both records make exactly that posting, and an error leaves both records untouched |
| Primitives.DecreaseLiquidity | contracts/core/accounting/balance.rs:120-144 | the mirror image leaves, and only within the available liquidity |
| Primitives.DecreaseLiquidityInPlace | contracts/core/accounting/balance.rs:120-144 | the field assignments on both records make exactly that posting, and an error leaves both records untouched |
| Primitives.IncreaseScaledSupply | contracts/core/accounting/balance.rs:146-171 | shares and deposits enter reserve, ledger shares and liabilities alike |
| Primitives.IncreaseScaledSupplyInPlace | contracts/core/accounting/balance.rs:146-171 | the field assignments on both records make exactly that posting, and an error leaves both records untouched |
| Primitives.DecreaseScaledSupply | contracts/core/accounting/balance.rs:173-198 | the mirror image of a supply increase |
| Primitives.DecreaseScaledSupplyInPlace | contracts/core/accounting/balance.rs:173-198 | the field assignments on both records make exactly that posting, and an error leaves both records untouched |
| Primitives.IncreaseScaledDebt | contracts/core/accounting/debt.rs:11-34 | shares and loans enter reserve, ledger shares and assets alike |
| Primitives.IncreaseScaledDebtInPlace | contracts/core/accounting/debt.rs:11-34 | the field assignments on both records make exactly that posting, and an error leaves both records untouched |
| Primitives.DecreaseScaledDebt | contracts/core/accounting/debt.rs:36-59 | the mirror image of a debt increase |
| Primitives.DecreaseScaledDebtInPlace | contracts/core/accounting/debt.rs:36-59 | the field assignments on both records make exactly that posting, and an error leaves both records untouched |
| Primitives.RecordBadDebt | contracts/core/accounting/bad_debt.rs:11-31 | bad debt rises in reserve and ledger alike |
| Primitives.RecordBadDebtInPlace | contracts/core/accounting/bad_debt.rs:11-31 | the field assignments on both records make exactly that posting, and an error leaves both records untouched |
| Primitives.ReduceBadDebt | contracts/core/accounting/bad_debt.rs:33-50 | bad debt falls in reserve and ledger alike |
| Primitives.ReduceBadDebtInPlace | contracts/core/accounting/bad_debt.rs:33-50 | the field assignments on both records make exactly that posting, and an error leaves both records untouched |
| Primitives.CoverBadDebt | contracts/core/accounting/bad_debt.rs:56-97 | insurance, bad debt and loans fall together, in reserve and ledger |
| Primitives.CoverBadDebtInPlace | contracts/core/accounting/bad_debt.rs:56-97 | the field assignments on both records make exactly that posting, and an error leaves both records untouched |
| Primitives.AccrueToTreasury | contracts/core/accounting/treasury.rs:25-44 | treasury and equity rise while no asset does: a posting that is not balanced |
| Primitives.AccrueToTreasuryInPlace | contracts/core/accounting/treasury.rs:25-44 | the field assignments on both records make exactly that posting, and an error leaves both records untouched |
| Primitives.WithdrawFromTreasury | contracts/core/accounting/treasury.rs:46-79 | treasury, equity and cash fall together |
| Primitives.WithdrawFromTreasuryInPlace | contracts/core/accounting/treasury.rs:46-79 | the field assignments on both records make exactly that posting, and an error leaves both records untouched |
| Primitives.AccrueToInsurance | contracts/core/accounting/insurance.rs:26-45 | insurance and equity rise while no asset does |
| Primitives.AccrueToInsuranceInPlace | contracts/core/accounting/insurance.rs:26-45 | the field assignments on both records make exactly that posting, and an error leaves both records untouched |
| Primitives.SetReserveIndices | contracts/core/accounting/reserve.rs:15-32 | an accepted update leaves every balance alone and lowers neither index, which both stay positive |
| Primitives.LaterIndicesWin | contracts/core/accounting/reserve.rs:15-32 | of two updates in a row only the later one shows; it is refused for falling below the first or for not being positive, and otherwise judged as if the first had not been |
| Primitives.SetReserveIndicesInPlace | contracts/core/accounting/reserve.rs:15-32 | only the two indices and the time change, or nothing at all |
| Operations.ApplyLiquidityIncrease | contracts/core/accounting/liquidity_accounting.rs:23-48 | a success is one balanced cash posting that passed both sets of checks |
| Operations.ApplyLiquidityIncreaseInPlace | contracts/core/accounting/liquidity_accounting.rs:23-48 | the same on the mutable records, with the same error in every failing case |
| Operations.ApplyLiquidityDecrease | contracts/core/accounting/liquidity_accounting.rs:50-75 | a success posts the cash out and leaves nothing negative |
| Operations.ApplyLiquidityDecreaseInPlace | contracts/core/accounting/liquidity_accounting.rs:50-75 | the same on the mutable records, with the same error in every failing case |
| Operations.ApplySupplyIncrease | contracts/core/accounting/supply_accounting.rs:28-58 | a success mints floor(amount·RAY/index) shares and posts them with the amount |
| Operations.ApplySupplyIncreaseInPlace | contracts/core/accounting/supply_accounting.rs:28-58 | the same on the mutable records, with the same error in every failing case |
| Operations.ApplySupplyDecrease | contracts/core/accounting/supply_accounting.rs:60-89 | a success burns floor(amount·RAY/index) shares and posts them with the amount |
| Operations.ApplySupplyDecreaseInPlace | contracts/core/accounting/supply_accounting.rs:60-89 | the same on the mutable records, with the same error in every failing case |
| Operations.ApplyDebtIncrease | contracts/core/accounting/debt_accounting.rs:29-59 | a success mints ceil(amount·RAY/index) debt shares and posts them with the amount |
| Operations.ApplyDebtIncreaseInPlace | contracts/core/accounting/debt_accounting.rs:29-59 | the same on the mutable records, with the same error in every failing case |
| Operations.ApplyDebtDecrease | contracts/core/accounting/debt_accounting.rs:61-90 | a success burns ceil(amount·RAY/index) debt shares and posts them with the amount |
| Operations.ApplyDebtDecreaseInPlace | contracts/core/accounting/debt_accounting.rs:61-90 | the same on the mutable records, with the same error in every failing case |
| Operations.ApplyBadDebtRecording | contracts/core/accounting/bad_debt_accounting.rs:31-60 | a success posts the bad debt and leaves nothing negative |
| Operations.ApplyBadDebtRecordingInPlace | contracts/core/accounting/bad_debt_accounting.rs:31-60 | the same on the mutable records, with the same error in every failing case |
| Operations.ApplyBadDebtCoverage | contracts/core/accounting/bad_debt_accounting.rs:62-94 | a success posts the coverage and leaves nothing negative |
| Operations.ApplyBadDebtCoverageInPlace | contracts/core/accounting/bad_debt_accounting.rs:62-94 | the same on the mutable records, with the same error in every failing case |
| Totals.PostingKeepsTotals | contracts/core/accounting/balance.rs:97-198 | writing back books moved by one entry keeps every ledger total equal to the sum over all reserves |
| Totals.ReserveEquationsImplyGlobal | contracts/core/accounting/validation.rs:10-32 | if every reserve equation holds and totals are sums, the global equation holds |
| Totals.SoundPassesFinalChecks | contracts/core/accounting/validation.rs:83-94 | on a sound state the closing ledger and reserve checks accept, their additions included |
| Totals.DepositNeverFailsItsFinalChecks | contracts/core/supply/flow.rs:57-109 | from a sound state a deposit whose postings succeed passes its closing checks and leaves a sound state |
| Totals.WithdrawNeverFailsItsFinalChecks | contracts/core/withdraw/flow.rs:102-182 | the same for a withdrawal |
| Totals.BorrowNeverFailsItsFinalChecks | contracts/core/borrow/flow.rs:60-125 | the same for a borrow; it can still refuse if and only if the user's own share addition overflows |
| Totals.RepayNeverFailsItsFinalChecks | contracts/core/repay/execution.rs:16-82 | the same for a repayment |
| Totals.LiquidationNeverFailsItsFinalChecks | contracts/core/liquidation/flow.rs:235-387 | the same for both liquidation branches; it can still refuse if and only if a share balance leaves 128 bits |
| Runs.RunKeepsMirrored | contracts/core/accounting/bad_debt.rs:11-97 | over every run of primitives, flows, listings and index updates, on any number of reserves, each global total is the sum over the reserves; failed steps change nothing |
| Runs.FlowRunKeepsEquations | contracts/core/accounting/validation.rs:10-32 | over every run of flows every reserve equation holds, and assets equal liabilities plus equity |
| Runs.RunMatchesShares | contracts/core/supply/flow.rs:57-109 | over every run of flows the users' debt shares add up to each reserve's, and reserve supply shares exceed the users' by exactly the shares minted in deposits |
| Runs.LiquidationKeepsShares | contracts/core/liquidation/flow.rs:256-282 | a liquidation takes the same shares from user and reserve, in one reserve or two |
| Engine.Env.ExecuteDeposit | contracts/core/supply/flow.rs:57-109 | working copies are updated step by step and storage is written last: the stored state becomes the specified one, or on the same error stays exactly as it was |
| Engine.Env.ExecuteWithdraw | contracts/core/withdraw/flow.rs:102-182 | working copies are updated step by step and storage is written last: the stored state becomes the specified one, or on the same error stays exactly as it was |
| Engine.Env.ExecuteBorrow | contracts/core/borrow/flow.rs:60-125 | working copies are updated step by step and storage is written last: the stored state becomes the specified one, or on the same error stays exactly as it was |
| Engine.Env.ExecuteRepay | contracts/core/repay/execution.rs:16-82 | working copies are updated step by step and storage is written last: the stored state becomes the specified one, or on the same error stays exactly as it was |
| Engine.Env.ExecuteLiquidation | contracts/core/liquidation/flow.rs:235-387 | working copies are updated step by step and storage is written last: the stored state becomes the specified one, or on the same error stays exactly as it was |
| Engine.Env.LiquidateSameReserve | contracts/core/liquidation/flow.rs:247-309 | the one-reserve branch: both burns on one record, its two writes equal to one |
| Engine.Env.LiquidateTwoReserves | contracts/core/liquidation/flow.rs:310-383 | the two-reserve branch: debt reserve and collateral reserve written back separately |
| Flows.ValidateUserBalance | contracts/core/withdraw/validation.rs:72-93 | an accepted withdrawal burns at least one share and no more than the user holds |
| Flows.PrepareLiquidation | contracts/core/liquidation/flow.rs:106-205 | an accepted liquidation covers a positive amount within the debt and the close factor, and seizes no more than the collateral and the bonus allow |
| Positions.RepayPreviewIsSafe | contracts/core/repay/validation.rs:78-114 | the underflow guard is dead; full repayment clears the shares exactly; a partial one lowers the recomputed debt by at least the payment and by less than the payment plus index/RAY plus one |
| Positions.WithdrawalWithinOneShare | contracts/core/withdraw/validation.rs:72-93 | one withdrawal reaches less than one share past the user's claim |
| Positions.WithdrawnPositionPassesRecheck | contracts/core/withdraw/flow.rs:36-182 | after any withdrawal, checked or not, the risk check on the stored position allows it whenever it returns a verdict |
| Risk.SaferPositionStaysAllowed | contracts/core/risk/model.rs:103-238 | more collateral or less debt never turns an allowed position into a refused one, through both roundings and both thresholds |
| Positions.BorrowedDebtBounds | contracts/core/borrow/flow.rs:74-97 | debt recomputed from minted shares is at least the projected debt and exceeds it by less than index/RAY plus one |
| Positions.BorrowRecomputesExactlyIff | contracts/core/borrow/flow.rs:74-97 | recomputed and projected debt agree for all balances and amounts if and only if the index divides one RAY |
| Positions.BorrowExample | contracts/core/borrow/flow.rs:74-97 | at an index of one and a half RAY borrowing one unit stores a debt of two |
| Positions.BorrowedPositionAgainstItsCheck | contracts/core/borrow/flow.rs:60-125 | those bounds hold of the stored position, and at index RAY it always gets the very verdict that approved the borrow |
| Positions.SeizureWithinBonus | contracts/core/liquidation/flow.rs:79-91 | seized value never exceeds covered value plus the bonus |
| Positions.LiquidationStaysInBounds | contracts/core/liquidation/flow.rs:168-233 | stored supply shares stay non-negative; stored debt shares stay non-negative if and only if some debt is left uncovered or the shares were worth a whole amount; a close factor below 10000 bps always leaves debt |
| Positions.FullCoverExample | contracts/core/liquidation/flow.rs:207-219 | at an index of one and a half RAY one share owes two, a close factor of 10000 bps covers both, and both burn two shares |
| CoreExample.FullCoverStoresMinusOne | contracts/core/liquidation/flow.rs:207-387 | a whole sound state with two reserves, two borrowers and a valid configuration on which a liquidation finishes, leaves a sound state, and stores minus one debt share; the other borrower keeps one share of a reserve that has none |
| Positions.LiquidationKeepsCoveredRatio | contracts/core/liquidation/flow.rs:79-387 | if collateral covers debt with the bonus before, the ratio of recomputed collateral to recomputed debt has not fallen after, through every floor and ceiling |
| Drift.RunDriftIsBounded | contracts/core/accounting/supply_accounting.rs:28-89 | over a run at a fixed index, n increases and m decreases move RAY·actual − index·scaled up by at most n·(index−1) and down by at most m·(index−1) |
| Interest.BorrowRateIsMonotone | contracts/core/interest/rates.rs:23-65 | a higher utilization never lowers the borrow rate: below, above and across the kink, and at the cap |
| Interest.RateErrorBranchesAreDead | contracts/core/interest/rates.rs:23-92 | the zero-denominator branch and the supply-above-borrow branch are unreachable |
| Interest.SupplyInterestIsFunded | contracts/core/interest/rates.rs:9-103 | supply_rate·S·RAY² is at most borrow_rate·(RAY−rf)·(B·RAY+S−1) |
| Interest.IndexGuardsAreDead | contracts/core/interest/validation.rs:63-78 | neither the monotonicity guard nor the index setter rejects what the updates computed, and supply stays at or below borrow |
| Interest.AccrualRunIsMonotone | contracts/core/interest/accrual.rs:10-33 | over any run of accruals from equal indices both indices never fall, supply never overtakes borrow, nothing is refused |
| Interest.SplitAccrualIsNotCheaper | contracts/core/interest/index.rs:19-40 | two accruals at one rate give an index no smaller than one accrual over the sum, through both ceilings |
| ConfigEngine.RunKeepsHistory | contracts/core/config/versioning.rs:20-106 | in every run versions are exactly 1..n, the history count is the current version, the latest configuration is snapshot n, and old snapshots never change |
| ConfigEngine.CommitNeverFailsAfterWrite | contracts/core/config/versioning.rs:62-106 | once the latest section is written the commit that follows cannot fail |
| ConfigEngine.RunStoresOnlyValidConfigs | contracts/core/config/validation.rs:99-232 | every configuration ever stored satisfies every validation rule |
| ConfigEngine.ReducingIsNotIncreasing | contracts/core/config/validation.rs:234-340 | outside the governance section a change a guardian may apply is exactly one that raises no risk |
| ConfigEngine.NoRiskierIsPreorder | contracts/core/config/validation.rs:234-340 | raising no risk is reflexive and transitive over all monitored fields |
| ConfigEngine.RiskOnlyRisesThroughTimelock | contracts/core/config/validation.rs:74-97 | no monitored field moves in the risk-increasing direction over a run without a governance update whose caller states the delay in force and an expiry that has passed; both are arguments of that same call and nothing is recorded beforehand |
| ConfigEngine.ValidChangeNeedNotWait | contracts/core/config/validation.rs:30-97 | an administrator who states the delay in force and an expiry of zero gets a change accepted, at any ledger and whatever risk it raises, if and only if the changed section is valid and a version number is left |
| ConfigEngine.Engine.Commit | contracts/core/config/versioning.rs:62-106 | snapshot, metadata, version and count become the specified ones, or nothing changes |
| ConfigEngine.Engine.InitializeDefaultConfig | contracts/core/config/updates.rs:42-101 | first initialization stores the default sections and version one; every refusal leaves the state alone |
| ConfigEngine.Engine.UpdateProtocolConfig | contracts/core/config/updates.rs:180-224 | the stored state is the specified update or, on the same error, unchanged |
| ConfigEngine.Engine.UpdateSection | contracts/core/config/updates.rs:226-452 | the same for the five other sections |
| Bitmap.PositionsDistinct | contracts/common/src/bitmap.rs:31-53 | different reserves, and the two flags of one reserve, never share a bit |
| Bitmap.SetUsingAsCollateral | contracts/common/src/bitmap.rs:61-71 | exactly one membership of the collateral set changes and none of the borrow set; indices from 64 on change nothing |
| Bitmap.SetBorrowing | contracts/common/src/bitmap.rs:79-89 | exactly one membership of the borrow set changes and none of the collateral set |
| Bitmap.ReadCollateral | contracts/common/src/bitmap.rs:31-37 | the bit test is membership of the collateral set |
| Bitmap.ReadBorrowing | contracts/common/src/bitmap.rs:47-53 | the bit test is membership of the borrow set |
| Bitmap.HasAnyCollateral | contracts/common/src/bitmap.rs:92-99 | the loop returns whether the collateral set is non-empty |
| Bitmap.HasAnyBorrows | contracts/common/src/bitmap.rs:102-109 | the loop returns whether the borrow set is non-empty |
| Bitmap.CountCollateralPositions | contracts/common/src/bitmap.rs:112-120 | the loop returns the size of the collateral set |
| Bitmap.CountBorrowPositions | contracts/common/src/bitmap.rs:123-131 | the loop returns the size of the borrow set |
| PoolMath.QuotientsFit | contracts/common/src/math.rs:31-58 | the products and the quotient fail exactly when the product or the rounding addition leaves 128 bits; the division itself never overflows |
| PoolMath.CalculateUtilizationRate | contracts/common/src/math.rs:130-145 | the scaling loop terminates and computes the ratio of the totals divided down by tens |
| PoolMath.UtilizationIsAFraction | contracts/common/src/math.rs:130-145 | with borrows within deposits a defined utilization lies between zero and one WAD, whatever the scaling |
| PoolMath.BorrowRateNonNegative | contracts/common/src/math.rs:156-176 | under a sane curve the borrow rate is non-negative, the failing case included |
| PoolMath.CompoundedAtLeastOne | contracts/common/src/math.rs:101-123 | for a non-negative rate the compounded multiplier is at least one RAY |
| PoolMath.RayMulOfTwoRaysOverflows | contracts/common/src/math.rs:54-58 | the product of two values of at least one RAY never fits 128 bits |
| PoolMath.RayMulByOne | contracts/common/src/math.rs:54-58 | multiplying by an index of one RAY is the identity within range and undefined beyond it |
| ScaledToken.Token.MintTo | contracts/a_token/src/lib.rs:81-121 | balance and total rise together, or the call panics |
| ScaledToken.Token.BurnFrom | contracts/debt_token/src/lib.rs:120-162 | balance and total fall together within the balance, or the call panics |
| ScaledToken.MintKeepsBalanced | contracts/a_token/src/lib.rs:81-121 | the total stays the sum of non-negative balances |
| ScaledToken.BurnKeepsBalanced | contracts/a_token/src/lib.rs:128-171 | a burn succeeds if and only if the amount is positive and held, and the total stays the sum of non-negative balances |
| ScaledToken.BurnUndoesMint | contracts/a_token/src/lib.rs:81-171 | burning what was minted restores the total and every balance, of a user with no entry yet too |
| PoolInvariant.AccruedCellIsSteady | contracts/lending_pool/src/lib.rs:1001-1103 | an accrual leaves both indices at exactly one RAY and the borrow rate non-negative |
| PoolInvariant.AccrueEffect | contracts/lending_pool/src/lib.rs:1001-1103 | an accrual keeps the pool sound and touches nothing but times and rates |
| PoolInvariant.CreditEffect | contracts/lending_pool/src/lib.rs:231-246 | pool book and token contract gain the same amount of one user, and every other book stays |
| PoolInvariant.DebitEffect | contracts/lending_pool/src/lib.rs:308-322 | a debit succeeds if and only if the amount is positive and held; both books lose it, and the fallback to a zero total is never taken |
| PoolSafety.SupplyIsSafe | contracts/lending_pool/src/lib.rs:204-259 | soundness and every reserve's surplus are kept, the supplier's shares rise by exactly the amount, the collateral flag is set, nothing else moves |
| PoolSafety.WithdrawIsSafe | contracts/lending_pool/src/lib.rs:274-350 | soundness and surplus are kept, shares fall by exactly the amount cut to the balance, the flag goes exactly when they reach zero |
| PoolSafety.BorrowIsSafe | contracts/lending_pool/src/lib.rs:365-427 | soundness and surplus are kept, the debt rises by exactly the amount, the borrow flag is set |
| PoolSafety.RepayIsSafe | contracts/lending_pool/src/lib.rs:442-515 | soundness and surplus are kept, the debt falls by exactly the amount cut to the debt, the flag goes exactly when it reaches zero |
| PoolSafety.ToggleIsSafe | contracts/lending_pool/src/lib.rs:526-578 | soundness, surplus and all books are kept and one collateral flag ends as asked |
| PoolSafety.AddReserveIsSafe | contracts/lending_pool/src/lib.rs:98-160 | listing keeps the pool sound; the new reserve starts with what the pool already holds of the asset |
| PoolOutcomes.SupplyExactlyWhen | contracts/lending_pool/src/lib.rs:204-259 | a supply finishes if and only if the pool is not paused, the asset is listed and active, the accrual finishes, amount times RAY and the new total fit 128 bits, and the tokens can be transferred |
| PoolOutcomes.WithdrawExactlyWhen | contracts/lending_pool/src/lib.rs:274-350 | a withdrawal of any amount finishes if and only if shares are held whose product with RAY, plus half a RAY, fits 128 bits, the position without them passes the guard, the pool has the cash, and pause, listing and accrual allow it; the cash moves by exactly the amount cut to the balance |
| PoolOutcomes.BorrowExactlyWhen | contracts/lending_pool/src/lib.rs:365-427 | a borrow finishes if and only if amount times RAY and the new total fit 128 bits, the position with the new debt passes the guard, the pool has the cash, and pause, listing and accrual allow it |
| PoolOutcomes.RepayExactlyWhen | contracts/lending_pool/src/lib.rs:442-515 | a repayment of any amount finishes if and only if there is a debt whose product with RAY, plus half a RAY, fits 128 bits, the caller holds the amount cut to that debt, and pause, listing and accrual allow it |
| PoolExample.TwoSuppliesLeaveTheRange | contracts/lending_pool/src/lib.rs:204-350 | in a run from the empty pool two supplies that each fit the range finish and leave a balance that does not, of which no amount can be withdrawn |
| PoolLiquidation.BurnPartEffect | contracts/lending_pool/src/lib.rs:773-845 | debt or shares fall by the amount cut to what is there, in pool and token contract, and the flag goes with the last unit |
| PoolLiquidation.WipeEffect | contracts/lending_pool/src/lib.rs:877-919 | writing off the flagged debts of the first n reserves zeroes exactly those, and each surplus falls by exactly what went unrecorded |
| PoolLiquidation.SocializeEffect | contracts/lending_pool/src/lib.rs:855-928 | either nothing happens or every debt of the borrower in every reserve becomes zero and all borrow flags go, collateral flags untouched |
| PoolLiquidation.WipesExactlyWhenAllIsLost | contracts/lending_pool/src/lib.rs:855-874 | whether debts are written off is decided by the state before the call: the seizure takes the last flagged collateral |
| PoolLiquidation.HookMovesExactly | contracts/lending_pool/src/lib.rs:732-933 | every balance of every user after the hook is given by the state before it; only the borrower's move |
| PoolLiquidation.HookIsSafe | contracts/lending_pool/src/lib.rs:732-933 | the pool stays sound and every surplus changes by an exact amount told from the state before the call |
| PoolLiquidationOutcomes.WipeExactlyWhen | contracts/lending_pool/src/lib.rs:877-919 | writing the flagged debts off finishes if and only if each recorded part fits the deficit of its reserve |
| PoolLiquidationOutcomes.SocializeExactlyWhen | contracts/lending_pool/src/lib.rs:847-928 | so does the bad-debt step, whenever it has anything to write off |
| PoolLiquidationOutcomes.HookExactlyWhen | contracts/lending_pool/src/lib.rs:732-933 | the hook finishes if and only if, told from the state before it, both amounts are positive and can be scaled, the pool can pay the seizure, and any deficit fits; the cash after it is given |
| PoolLiquidationOutcomes.LiquidateExactlyWhen | contracts/lending_pool/src/lib.rs:732-933 | the same for the payment in and the hook together |
| PoolRuns.RunIsSafe | contracts/lending_pool/src/lib.rs:204-515 | every run keeps the pool sound, and each surplus moves by exactly the sum of the step changes |
| PoolRuns.ReachableStatesMirror | contracts/lending_pool/src/lib.rs:1127-1163 | in every reachable state indices are one RAY, pool books equal token ledgers, totals are sums of non-negative balances, and borrow flags mark exactly the debts |
| PoolRuns.LiquidationConservesExactlyWhen | contracts/lending_pool/src/lib.rs:732-933 | a finished liquidation leaves every surplus alone if and only if, between two reserves, it repays within the debt, seizes within the shares and leaves no over-range debt to write off; within one reserve, what is overpaid in makes up for what is overpaid out and for that reserve's unrecorded debt, and no other reserve has one |
| PoolRuns.OrderlyRunsConserve | contracts/lending_pool/src/lib.rs:204-933 | from an empty pool, without donations and with liquidations in bounds, cash plus borrows plus deficit equals deposits in every reserve after every run |
| PoolRuns.HealthThreshold | contracts/lending_pool/src/lib.rs:1179-1227 | the check passes if and only if collateral covers debt up to half a unit of rounding, or the product is out of range |
| PoolRuns.HookEndsInOneOfThree | contracts/lending_pool/src/lib.rs:847-928 | a finished hook leaves shares of the seized asset, or other flagged collateral, or no debt and no borrow flag with the other collateral flags as they were |
| PoolCoverage.DebtCountsAsNothingExactlyWhen | contracts/lending_pool/src/lib.rs:1209-1219 | a flagged, priced debt counts as nothing if and only if its product with the index or with the price leaves 128 bits, or its value rounds to zero; otherwise it counts at its price, rounded half up |
| PoolCoverage.ValuationIsTrue | contracts/lending_pool/src/lib.rs:1179-1227 | with every flagged debt in range, the debt the check sees is the true sum to half a unit a reserve, and the collateral it sees is at most the true weighted sum plus its roundings |
| PoolCoverage.HealthyExactlyWhen | contracts/lending_pool/src/lib.rs:1179-1227 | on a sound pool the check accepts a position if and only if every price it asks for and every sum is there, and it sees no debt, or collateral too large to be compared, or collateral that covers the debt it sees up to half a unit of rounding |
| PoolCoverage.BorrowIsCovered | contracts/lending_pool/src/lib.rs:365-427 | after a finished borrow that leaves every flagged debt in range, weighted collateral at true value covers the summed true debt up to stated rounding, or is too large to be compared |
| PoolCoverage.WithdrawIsCovered | contracts/lending_pool/src/lib.rs:274-350 | the same after a finished withdrawal |
| PoolCoverage.ToggleOffIsCovered | contracts/lending_pool/src/lib.rs:526-578 | the same after disabling collateral |
| PoolCoverage.ComparisonOverflows | contracts/lending_pool/src/lib.rs:1220-1227 | too large to be compared is no formality: collateral of 1.8·10^20 then passes against a debt of 3·10^20 |
| PoolExample.SecondLoanIsInvisible | contracts/lending_pool/src/lib.rs:365-427 | in a run from the empty pool a second loan takes a debt out of range, finishes with the largest health factor there is, and leaves a position that is not covered |
| PoolExample.CollateralCanLeave | contracts/lending_pool/src/lib.rs:274-350 | after it the borrower withdraws all collateral, the debt stays whole and uncovered |
| LiquidationEngine.PreparedWithinDeposit | contracts/liquidation/src/lib.rs:81-247 | a prepared session belongs to a borrower the check refuses, and seizes no more than the shares held at that moment |
| LiquidationEngine.ExecutedAtOnceConservesExactlyWhen | contracts/liquidation/src/lib.rs:250-318 | executed on the state it was prepared on, a session between two reserves leaves every surplus alone if and only if its cover is within the debt and no over-range debt is written off |
| LiquidationEngine.SecondSeizureIsUnbacked | contracts/liquidation/src/lib.rs:250-318 | after a session that took all shares of an asset, any second session on it that finishes lowers the surplus by its whole seizure, less what it overpays into the same reserve |
| PoolExample.OverRangeWriteOffLosesSurplus | contracts/lending_pool/src/lib.rs:877-919 | in a run from the empty pool the engine finds the borrower unhealthy for a small debt alone; its session covers what is owed and takes what is held, and executing it writes off 1.8·10^11 of another debt without a record: the surplus falls from zero to minus that |
| PoolExample.TwoSessionsPayTwice | contracts/liquidation/src/lib.rs:81-318 | two sessions prepared on that state are both executed, and the second pays the same collateral out again from other users' tokens |
| LendingPool.Contract.UpdateReserveIndices | contracts/lending_pool/src/lib.rs:1001-1103 | the stored cell becomes the accrued one, or the call panics exactly where the arithmetic does |
| LendingPool.Contract.CreditUser | contracts/lending_pool/src/lib.rs:231-246 | user entry, token mint and pool total written in turn amount to one credit |
| LendingPool.Contract.DebitUser | contracts/lending_pool/src/lib.rs:308-322 | user entry, token burn and pool total written in turn amount to one debit |
| LendingPool.Contract.CalculateHealthFactor | contracts/lending_pool/src/lib.rs:1179-1227 | the loop over the reserves computes the health factor of the prefix sums, or panics exactly with them |
| LendingPool.Contract.SupplyAsset | contracts/lending_pool/src/lib.rs:204-259 | storage and flags become the specified supply, or the call panics exactly when it should |
| LendingPool.Contract.WithdrawAsset | contracts/lending_pool/src/lib.rs:274-350 | the same for a withdrawal |
| LendingPool.Contract.BorrowAsset | contracts/lending_pool/src/lib.rs:365-427 | the same for a borrow |
| LendingPool.Contract.RepayAsset | contracts/lending_pool/src/lib.rs:442-515 | the same for a repayment |
| LendingPool.Contract.ToggleAsset | contracts/lending_pool/src/lib.rs:526-578 | the same for the collateral switch, whose trial write leaves no trace |
| LendingPool.Contract.FindCollateral | contracts/lending_pool/src/lib.rs:860-872 | the loop with its early exit finds collateral exactly when some flagged reserve holds shares |
| LendingPool.Contract.WipeDebts | contracts/lending_pool/src/lib.rs:877-919 | the loop writes off the flagged debts in order, or panics exactly with the specification |
| LendingPool.Contract.WithoutBorrowFlags | contracts/lending_pool/src/lib.rs:921-926 | clearing 64 bits one by one empties the borrow set and leaves the collateral set |
| LendingPool.Contract.SocializeBadDebt | contracts/lending_pool/src/lib.rs:847-928 | the bad-debt step as specified |
| LendingPool.Contract.RunLiquidationHook | contracts/lending_pool/src/lib.rs:732-933 | the whole hook as specified |
| LendingPool.Contract.Invoke | contracts/lending_pool/src/lib.rs:204-933 | one host invocation of any operation: the next state, and on a panic the state as found |

## Left out

- Events, result and event records, TTL extension, contract metadata, upgrade, getters and `get_user_data`: no state the properties speak of.
- `require_auth`: callers are taken as authenticated, the administrator and the registered liquidation engine of the pool among them; role comparisons of the config engine are modelled.
- The oracle and the asset contracts: prices are parameters of a call and asset balances are a map with a checked transfer. That a token contract serves only this pool, and that nobody transfers aTokens between users, is assumed; the aToken contract here offers no transfer.
- LiquidationEngine.SecondSeizureIsUnbacked: sessions are values; their storage under an identifier hashed from the ledger number, its expiry and its removal after execution are left out, so two sessions prepared in one ledger, where the later overwrites the earlier, count as two.
- Pool status, reserve lifecycle tables and the registry of the core engine: they appear as preconditions inside the prepared flows.
- `increase_treasury_balance`, `increase_insurance_balance` and `refresh_actual_balances_from_indices`: each touches one side of the books only, so no run of them keeps any of the sums.
- `apply_treasury_accrual` and `apply_insurance_accrual`: wrappers of primitives that are modelled; treasury and insurance accrual raise equity without assets, so they keep the sums but not the equation, which is why the equation theorem covers the flows.
- The stored bad-debt record beside the reserve: a copy of the reserve's own field.
- Reads repeated between preparing and executing a core flow return the record already read, since nothing writes in between.
- Subtractions behind a guard that already bounds them are written without the second, unreachable check.
- `contracts/reserve`, the frontend, the indexer and deployment scripts.
- ConfigEngine.Engine.UpdateSection: one method stands for the five section updates that share one shape, and the six stored snapshots of a version are one record.
- ScaledToken.Token.MintTo: one class stands for both token contracts, whose mint and burn are the same code.
- LendingPool.Contract.CreditUser: token contracts are values held beside the pool and changed by the mint and burn functions the class `ScaledToken.Token` is proved against; two objects sharing a ledger are not modelled.
- LendingPool.Contract.Invoke: storage is one record whose entries are overwritten one at a time, with balances grouped by side and reserve; the offset storage keys of `update_reserve_indices_full` are fields of a cell.
- PoolRuns.OrderlyRunsConserve: conservation is false without its conditions; `PoolLiquidation.HookIsSafe` gives the exact change and `PoolRuns.LiquidationConservesExactlyWhen` the exact condition of one liquidation. The liquidation engine does not guarantee it: it never caps the cover at the debt, and what a session seizes is fixed when it is prepared.
- PoolRuns.RunIsSafe: callers, payers and liquidators are assumed to differ from the pool's own address, which never signs a call.
- PoolSafety.AddReserveIsSafe: a new reserve is assumed to bring a new asset, fresh token contracts, a reserve factor of at most 10000 bps and non-negative rate parameters with a kink of at most one WAD; the contract itself checks none of these.
