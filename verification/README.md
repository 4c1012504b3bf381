# ProYield: verified accounting of the protocol contracts

A Dafny 4.11 model of the money-handling core of the ProYield protocol: PYD staking, the yield vault with its
delta-neutral strategy, the fee distributor and the recycling run, the fee-discount contract, and the Pendle PT,
HyperCore and Morpho strategies. `dafny verify dfyconfig.toml` checks everything.

## How to read it

Every contract appears twice. A datatype `State` with pure functions (`Apply` and its parts) says what one call does: a
new state, or a revert (`Reverted` or `None`) that leaves the old one. A class of the contract's own name holds the same
storage fields and updates them in the contract's order, with its loops and with an explicit rollback where the contract
reverts after its first update; each method is proved to end in the state the functions give and, where there are
theorems about whole runs, to keep their invariant over ghost fields that take down what was funded, paid, booked or
bridged since deployment. The theorems are
about the functions: about one call, and about whole runs, where calls by anyone mix with clock ticks, donations, outside
token movements and arbitrary answers of external systems.

| file | content |
|---|---|
| `Common.dfy` | runs, addresses, Solidity mappings, ERC-20 transfers, finite sums |
| `Staking.dfy`, `StakingSafety.dfy`, `StakingRuns.dfy` | PYDStaking as functions, single-call laws, runs beside an exact per-second reference machine |
| `StakingSolvency.dfy`, `StakingStreaming.dfy`, `StakingContract.dfy` | solvency in every run; the lazy accumulator refines exact streaming; PYDStaking as a class |
| `VaultMath.dfy`, `Vault.dfy`, `VaultContract.dfy` | share conversion, ProYieldVault as functions and as a class |
| `VaultLoops.dfy`, `VaultCalls.dfy` | the recall, allocate and harvest loops; laws of single calls |
| `VaultRuns.dfy`, `VaultShares.dfy`, `VaultWitnesses.dfy` | exact backing over runs; shares, price floor and rounding over runs; runs that break what is documented |
| `DeltaNeutral.dfy`, `Fees.dfy` | the strategy the vault uses; FeeDistributor and the recycling run |
| `FeeDiscount.dfy`, `FeeDiscountRuns.dfy`, `FeeDiscountContract.dfy` | PYDFeeDiscount, its lifetime rebate bound, its class |
| `JointRuns.dfy` | vault and PYDFeeDiscount in one run over one USDC ledger |
| `PTSleeve.dfy`, `DNCore.dfy`, `Morpho.dfy` | the three venue strategies and their whole-run ledgers |

Conventions: addresses are natural numbers and a mapping reads zero where nothing was written; amounts are unbounded
naturals, and a subtraction that Solidity would check is a revert branch unless an invariant shows it cannot fail;
`sum over us` ranges over any finite set of accounts that contains every caller of the run.

## Where code and documentation differ

- `docs/AUDIT_SCOPE.md:52-55` describes the HyperCore split as principal-first; the code draws on profit first, and so
  does the model (`DNCore.BridgeBackSplit`). The two agree exactly when equity is at or below principal, everything is
  drawn or there is no principal (`DNCore.PrincipalFirstIff`); `DNCore.ProfitComesFirst` is a run in which they differ.
- `contracts/PYDFeeDiscount.sol:42` promises the tier of the highest threshold crossed. The code takes the largest
  discount among the crossed thresholds; the two agree for every stake exactly when discounts never fall along the
  schedule, which `setTiers` does not check (`FeeDiscount.SetScheduleFollowsRuleIff`, `FeeDiscount.FallingScheduleAccepted`).
- `contracts/PTSleeveStrategy.sol:39-41` says the attested value is clamped to what arrived plus headroom. That holds
  at the sync. An inbound transfer or a lower headroom set by the owner can leave the value above the bound, exactly when
  `PTSleeve.CallKeepsCapIff` says; `PTSleeve.CapFailsTwice` shows a run for each. What holds in every state is the bound
  with the returned face added (`PTSleeve.AlwaysSound`).
- `docs/AUDIT_SCOPE.md` item 11 has backing cover the books at all times. It does exactly as long as credited yield and
  funding booked unpaid stay within what arrived unbooked, was written off or swept uncredited
  (`VaultRuns.BackedIffCreditsArrived`); `VaultWitnesses.CreditOutrunsBacking` is a run in which it does not.
- The same item has the price fall below one only through `emergencyWithdraw`. `reportLoss` takes it there too
  (`VaultWitnesses.ReportedLossBreaksFloor`); a run stays at or above one exactly when every loss of either kind fits in what
  lies above one (`VaultShares.FloorHoldsIff`).
- Item 12 bounds a user's value by `perUserCap`. A deposit keeps the depositor within it exactly when there were shares, or
  the assets of an empty vault do not lift the first deposit above it (`VaultCalls.DepositKeepsCapIff`,
  `VaultWitnesses.EmptyVaultExceedsCap`).
- `contracts/ProYieldVault.sol:229-235` says `withdrawUpTo` never reverts for illiquidity alone and pays the fair amount
  under a reported loss. Exactly when it completes is `VaultCalls.WithdrawUpToPaidIff`, and it fails in two other ways. At
  any price, the recall reverts when it comes to a live listed address that does not answer it, a strategy without this
  vault's address or no strategy at all, before the shortfall is covered: `VaultWitnesses.UnwiredStrategyTrapsIdle` is a
  run in which even idle money is not paid. Below a price of one it reverts when the payment exceeds totalAssets:
  `VaultWitnesses.ClaimAboveBooksIsStuck` is a run that leaves such a claim.
- `contracts/ProYieldVault.sol:262-269` has one broken strategy never stop the harvest. That holds for every listed address
  that holds a contract; an address without code, which `addStrategy` accepts, makes the call revert outside the `catch`
  (`VaultCalls.HarvestCompletesIff`, `VaultCalls.CodelessStrategyBlocksHarvest`).
- `contracts/DeltaNeutralStrategy.sol:105-107` says funding is paid in real USDC and yield never fabricated. The code books
  the amount due once the source's call succeeds, whatever it moved: books and tokens drift apart by exactly the shortfall
  (`DeltaNeutral.BooksDriftByShortfall`, `DeltaNeutral.UnpaidFundingIsBooked`).

## Model

| member | source | states |
|---|---|---|
| StakingStreaming.LazyRefinesStreaming | contracts/PYDStaking.sol:46-170 | Over any run, an account's claimed plus earned reward is at most its exact real-valued share of every second's emission, and below it by less than one wei, one wei per sync of the account and its stake / 1e18 per accrual step |
| StakingStreaming.AlwaysTracks | contracts/PYDStaking.sol:140-166 | In every reachable state the accumulator's credit tracks the per-second reference machine within the accumulated rounding, and both agree on stakes, window and rate |
| StakingStreaming.NothingMovesWithinTimestamp | contracts/PYDStaking.sol:46-132 | No sequence of calls by anyone at one timestamp changes any account's claimed plus earned reward |
| StakingSolvency.EveryReachableStatePays | contracts/PYDStaking.sol:46-137 | In every reachable state total claimed plus total earned is within what was funded, the contract holds all stakes and all earned rewards together, claims and exits never revert, and a withdrawal reverts exactly for zero or more than the stake |
| StakingSolvency.AlwaysSolvent | contracts/PYDStaking.sol:46-170 | The solvency invariant (owed plus still to be emitted is within funding, stakes sum to totalSupply, tokens cover both) is kept by every call, tick, donation and transfer |
| StakingSolvency.ClaimsWithinFunding | contracts/PYDStaking.sol:101-137 | Under the invariant, all claims ever and all claimable rewards now were funded |
| StakingSolvency.HoldsPrincipalAndRewards | contracts/PYDStaking.sol:101-111 | Under the invariant, paying every earned reward never touches staked principal |
| StakingSolvency.ExitsAlwaysPaid | contracts/PYDStaking.sol:90-132 | Under the invariant no staker call lacks tokens |
| StakingSolvency.AccrualWithinEmission | contracts/PYDStaking.sol:140-159 | What is banked per token never exceeds the emission of the seconds it stands for, across the end of a window too |
| StakingSolvency.CallUnspent | contracts/PYDStaking.sol:62-74 | A top-up or a new window promises no more than its funding plus what the old window had left |
| StakingSolvency.CallOwed | contracts/PYDStaking.sol:80-132 | A call moves what it pays from owed to claimed and loses less than one wei of the caller's reward, nothing of anyone else's |
| StakingSafety.EarnedUntouchedByOthers | contracts/PYDStaking.sol:46-137 | No call changes anyone's earned() at that timestamp, except that the caller of getReward or exit is paid exactly it and left with zero |
| StakingSafety.ExitIsWithdrawThenGetReward | contracts/PYDStaking.sol:113-132 | exit equals withdraw of the whole stake followed by getReward, state and payment, reverts included |
| StakingSafety.UpdatePeriodIdempotent | contracts/PYDStaking.sol:148-159 | A second period update at the same timestamp changes nothing, before funding and after expiry too |
| StakingSafety.SyncIdempotent | contracts/PYDStaking.sol:148-166 | Banking period and reward twice at one timestamp is banking them once |
| StakingSafety.SyncAccruesOnce | contracts/PYDStaking.sol:140-170 | Banking the expired window and then the current one accrues each second once and gives the account what earned() showed |
| StakingSafety.CallMovesPYD | contracts/PYDStaking.sol:46-132 | Every completed call moves PYD between its caller and the contract only: the amount in (fundRewards, stake), the amount out (withdraw), exactly earned() (getReward), exactly the stake and earned() (exit); every third account keeps its PYD |
| StakingSafety.CallMovesStake | contracts/PYDStaking.sol:80-132 | The caller's stake and the total follow the call, nobody else's stake moves, and getReward and exit leave no reward behind |
| StakingSafety.DepositsCompleteIff | contracts/PYDStaking.sol:46-88 | fundRewards completes exactly for the owner, a positive amount it has and a positive duration; stake exactly for a positive amount the caller has |
| StakingContract.PYDStaking.DoUpdatePeriod | contracts/PYDStaking.sol:148-159 | Closing an expired window changes no reading of the accumulator and of what anyone has earned, at this timestamp or any later one, and stops the emission |
| StakingContract.PYDStaking.DoUpdateReward | contracts/PYDStaking.sol:161-166 | Banks to now and moves exactly the account's share to its rewards; no account is ever marked above the stored mark |
| StakingContract.PYDStaking.DoFundRewards | contracts/PYDStaking.sol:46-77 | Completes exactly for the owner, a positive amount it has and a positive duration; takes exactly the amount from it; banks at the old rate, opens the window, undoes both for an unpaid deposit, and keeps the solvency invariant |
| StakingContract.PYDStaking.DoStake | contracts/PYDStaking.sol:80-88 | Completes exactly for a positive amount the caller has and takes exactly it; syncs the caller first and undoes that for an unpaid stake; keeps the solvency invariant |
| StakingContract.PYDStaking.DoWithdraw | contracts/PYDStaking.sol:90-99 | Pays exactly the amount to the caller and nobody else, or undoes the sync; under the solvency invariant, which it keeps, it completes exactly for a positive amount within the stake |
| StakingContract.PYDStaking.DoGetReward | contracts/PYDStaking.sol:101-111 | Pays exactly earned() to the caller and nobody else, or undoes it all; under the solvency invariant, which it keeps, it always completes, and claims grow by exactly what it returns |
| StakingContract.PYDStaking.DoExit | contracts/PYDStaking.sol:116-132 | Pays exactly the stake and earned() to the caller and nobody else, or undoes both; under the solvency invariant, which it keeps, it always completes |
| VaultMath.RoundTrip | contracts/ProYieldVault.sol:73-81 | At a price of one or more, converting shares to assets and back gives the shares or one less |
| VaultMath.ConversionsAreFloors | contracts/ProYieldVault.sol:73-81 | Both conversions are the exact floors of the price with the 1000 offset, one to one without shares |
| VaultMath.PayingWithinValue | contracts/ProYieldVault.sol:73-81 | Assets worth at most a holding convert to at most its shares |
| VaultMath.WithdrawalPrice | contracts/ProYieldVault.sol:216-223 | Burning the floor of a payment never raises the price and lowers it by less than one rounded share |
| VaultMath.DepositPrice | contracts/ProYieldVault.sol:119-123 | A deposit into a vault with shares never lowers the price |
| VaultMath.DepositorValue | contracts/ProYieldVault.sol:116-123 | The depositor's value after the mint is at most the value before plus the deposit |
| VaultMath.DepositorKeepsValue | contracts/ProYieldVault.sol:116-123 | And at least that, less one unit and less than one share price |
| VaultCalls.DepositWithinCap | contracts/ProYieldVault.sol:110-126 | After a capped deposit with shares outstanding the depositor is within perUserCap at the new price, the vault within tvlCap, and no other holder's value fell |
| VaultCalls.DepositIsWorthIt | contracts/ProYieldVault.sol:119-123 | A deposit into a vault with shares is worth its amount in maxWithdraw, less one unit and less than one share price |
| VaultCalls.DepositKeepsCapIff | contracts/ProYieldVault.sol:116-123 | A completed capped deposit leaves the depositor within perUserCap exactly when there were shares or amount * (totalAssets + amount + 1000) < (cap + 1) * (amount + 1000) |
| VaultCalls.DepositCompletesIff | contracts/ProYieldVault.sol:110-126 | Exactly when a deposit goes through: not paused, a positive amount the caller has, within both caps, worth at least a share |
| VaultCalls.DepositMoves | contracts/ProYieldVault.sol:119-124 | A deposit takes exactly the amount from the caller to the vault and its books and gives the new shares to the caller alone; nobody else's tokens or shares move |
| VaultWitnesses.EmptyVaultExceedsCap | contracts/ProYieldVault.sol:73-118 | A run from deployment, donation, credit, cap, first deposit, after which the depositor may withdraw 3.5 times the cap |
| VaultCalls.WithdrawPaidIff | contracts/ProYieldVault.sol:186-227 | For every list, duplicates and addresses that do not answer included: a withdrawal completes exactly when the claim covers it, the recall is over before it comes to an address that does not answer, and idle plus one pass of equal instalments, each capped by what its strategy still has, raises it |
| VaultCalls.WithdrawUpToPaidIff | contracts/ProYieldVault.sol:236-252 | For every list: withdrawUpTo pays exactly the smaller of the claim asked for and what one pass can raise, and completes exactly when that is positive and within totalAssets and the recall is over before it comes to an address that does not answer |
| VaultCalls.WithdrawPaysCaller | contracts/ProYieldVault.sol:213-227 | A completed withdrawal pays the caller exactly the amount the books lose; tokens outside the caller, the vault and its live strategies stay |
| VaultCalls.WithdrawUpToPaysCaller | contracts/ProYieldVault.sol:236-252 | The same for withdrawUpTo: the caller gets exactly what the books lose, nobody outside is touched |
| VaultCalls.FloorCoversClaim | contracts/ProYieldVault.sol:69-81 | At a price of one or more every claim is within totalAssets, so the books then never stop a withdrawUpTo |
| VaultWitnesses.ClaimAboveBooksIsStuck | contracts/ProYieldVault.sol:229-252 | A run from deployment, deposit and full loss, after which half the deposit is shown as withdrawable, lies idle, and no withdrawal of any amount goes through |
| VaultWitnesses.UnwiredStrategyTrapsIdle | contracts/ProYieldVault.sol:197-206 | A run from deployment, one unwired strategy listed, deposit and allocation, after which at a price of one a claim of 1000 stands against 100 idle, withdrawUpTo(100) completes and withdrawUpTo(500) reverts |
| VaultCalls.RecallReachesNeeded | contracts/ProYieldVault.sol:186-207 | The recall reaches what is needed whenever every live strategy can pay its instalments, duplicates in the list included |
| VaultCalls.RecallIsBounded | contracts/ProYieldVault.sol:186-207 | A recall conserves tokens, touches no paused strategy and pulls less than the shortfall plus one instalment |
| VaultLoops.RecallLoopReachesIff | contracts/ProYieldVault.sol:197-206 | For every list: the single pass gets through exactly when the instalments before every address that does not answer cover the shortfall, reaches it exactly when the capped instalments sum to it, and otherwise raises exactly their sum |
| VaultCalls.ClampNeverFires | contracts/ProYieldVault.sol:238-247 | In withdrawUpTo the burned shares never exceed the caller's, in any state |
| VaultCalls.FullWithdrawalLeavesOneShare | contracts/ProYieldVault.sol:69-81 | Withdrawing maxWithdraw at a price of one or more leaves at most one share |
| VaultCalls.AllocateKeepsReserve | contracts/ProYieldVault.sol:158-180 | Allocating never reverts, conserves tokens, leaves paused strategies alone and never takes idle below the reserve, 10% of totalAssets to within one unit |
| VaultCalls.AllocateMovesParts | contracts/ProYieldVault.sol:158-180 | Every live listing gets the same part, and what lies above the reserve is that part for each of them and less than one unit more each |
| VaultLoops.AllocateLoopMoves | contracts/ProYieldVault.sol:172-178 | Each live listing receives exactly one equal part, and the vault gives up exactly their sum |
| VaultCalls.HarvestCreditsWhatLanded | contracts/ProYieldVault.sol:254-290 | Over deployed strategies a harvest never reverts, books exactly what strategies swept less the floor fee, and sends exactly the fee to the distributor |
| VaultCalls.LandedIsFunding | contracts/ProYieldVault.sol:254-284 | What landed is the funding booked in that harvest plus the fall of the funding accrued before, and the strategies together hold what they were paid less what they swept |
| VaultCalls.HarvestFollowsDues | contracts/DeltaNeutralStrategy.sol:109-151 | Per strategy: accrued and swept funding grow by what was booked there, tokens by what was paid there less what was swept |
| VaultCalls.HarvestCompletesIff | contracts/ProYieldVault.sol:254-284 | A harvest completes exactly when every live listed address holds a contract, a strategy, the vault itself or any other, whatever those contracts do |
| VaultCalls.CodelessStrategyBlocksHarvest | contracts/ProYieldVault.sol:83-88 | From deployment, listing one address without code makes every harvest revert |
| VaultCalls.ListedContractIsSkipped | contracts/ProYieldVault.sol:258-271 | With one address listed from deployment, a harvest completes exactly when that address is the vault or another contract |
| VaultLoops.BrokenStrategiesDoNotMatter | contracts/ProYieldVault.sol:258-271 | Among contracts the loop gets through, in the same state as harvesting, without try/catch, the list stripped of paused and reverting ones |
| VaultLoops.StrategyHarvests | contracts/ProYieldVault.sol:258-271 | Exactly when a strategy's turn goes through, and what it brings the vault: all its accrued and new funding, or all it then holds |
| VaultCalls.HarvestStrategySweeps | contracts/ProYieldVault.sol:307-312 | The owner's single sweep completes exactly for a registered, active strategy whose turn goes through, and changes nothing else |
| VaultCalls.EmergencyPaysOwner | contracts/ProYieldVault.sol:134-141 | Completes exactly for the owner while the books cover what is idle; the owner gets all of it, the books lose it, nothing else changes |
| VaultCalls.OwnerLists | contracts/ProYieldVault.sol:83-95 | Listing and pausing complete exactly for the owner and touch no other strategy |
| VaultRuns.BooksAreExact | contracts/ProYieldVault.sol:83-313 | Over any run, backing minus (totalAssets plus unswept funding) changes by exactly what arrived unbooked, was written off or was swept uncredited, less what was credited and what funding was booked unpaid |
| VaultRuns.BackedIffCreditsArrived | contracts/ProYieldVault.sol:292-305 | From an exactly backed vault, vault plus strategy balances cover totalAssets plus unswept funding exactly as long as credits plus unpaid funding do not exceed those arrivals |
| VaultWitnesses.CreditOutrunsBacking | contracts/ProYieldVault.sol:300-305 | A run from deployment, deposit and credit of the same tokens, after which 2000 is promised and 1000 is there |
| VaultRuns.NewVaultIsExactlyBacked | contracts/ProYieldVault.sol:33-44 | A new vault over empty strategies is healthy and exactly backed |
| VaultRuns.CallSlack | contracts/ProYieldVault.sol:83-313 | The exact effect of each vault call on the surplus of backing over the books |
| VaultRuns.OutsiderMovesNoPrincipal | contracts/DeltaNeutralStrategy.sol:67-160 | A strategy call by anyone but the vault takes no protocol token out, and moves tokens and books only by what its settlement was paid and booked |
| VaultShares.SharesAlwaysAddUp | contracts/ProYieldVault.sol:119-122 | User shares sum to totalShares in every run, losses included |
| VaultShares.CallKeepsFloorIff | contracts/ProYieldVault.sol:110-305 | A completed call from a price of one or more keeps it there exactly when it is no loss larger than totalAssets minus totalShares |
| VaultShares.FloorHoldsIff | contracts/ProYieldVault.sol:110-305 | The price is one or more all through a run exactly when every completed loss in it fits when its turn comes |
| VaultWitnesses.ReportedLossBreaksFloor | contracts/ProYieldVault.sol:152-156 | A run from deployment, deposit and a reported loss of one unit, that ends below a price of one |
| VaultShares.PriceAlwaysAtLeastOne | contracts/ProYieldVault.sol:110-305 | totalAssets never falls below totalShares in a run without reportLoss or emergencyWithdraw |
| VaultShares.ClaimsFitAssets | contracts/ProYieldVault.sol:68-81 | At a price of one or more the maxWithdraw of all users together is within totalAssets |
| VaultShares.WithdrawalBurnsFloor | contracts/ProYieldVault.sol:213-252 | Both withdrawal paths burn exactly the floor of what they pay, from the caller alone |
| VaultShares.IdleHolderLoss | contracts/ProYieldVault.sol:213-252 | Over any run of k withdrawals by others an idle holder loses less than k starting share prices, and the price never rises |
| VaultShares.IdleHolderToll | contracts/ProYieldVault.sol:110-305 | Over any loss-free run of others, deposits, harvests and credits included, an idle holder loses less than the prices just before each withdrawal together, and nothing without one |
| VaultContract.ProYieldVault.DoDeposit | contracts/ProYieldVault.sol:110-126 | Mints before the transfer and undoes it when that fails; takes exactly the amount from the caller and moves nobody else's tokens; the gap between tokens and promises stays, and while there are shares nobody else may withdraw less than before |
| VaultContract.ProYieldVault.DoWithdraw | contracts/ProYieldVault.sol:213-227 | Burns shares and books before recalling and paying; a recall or payment that fails undoes the burn; pays the caller exactly what the books lose and touches nobody outside |
| VaultContract.ProYieldVault.DoWithdrawUpTo | contracts/ProYieldVault.sol:236-252 | Pays the caller what the recall raised of the claim, exactly what totalAssets lost, and returns it; without liquidity everything, the recall included, is undone |
| VaultContract.ProYieldVault.DoRecallShortfall | contracts/ProYieldVault.sol:186-207 | The loop over the list equals the recursive recall on every list, duplicates and paused strategies included, and fails exactly when it does |
| VaultContract.ProYieldVault.DoAllocate | contracts/ProYieldVault.sol:158-180 | Counting and paying loops equal the recursive allocation on every list; only tokens move |
| VaultContract.ProYieldVault.DoHarvest | contracts/ProYieldVault.sol:254-284 | The try/catch sweep over the list, the fee and the credit equal the recursive harvest on every list; an address without code undoes it all; the surplus falls by exactly what was booked unpaid |
| VaultContract.ProYieldVault.DoHarvestStrategy | contracts/ProYieldVault.sol:307-312 | What a bare sweep brings in raises the surplus of tokens over promises, less what was booked unpaid |
| VaultContract.ProYieldVault.DoEmergencyWithdraw | contracts/ProYieldVault.sol:134-141 | Completes exactly for the owner within totalAssets, leaves nothing idle, pays the owner all of it, and keeps the gap between tokens and promises |
| VaultContract.ProYieldVault.DoReportLoss | contracts/ProYieldVault.sol:152-156 | Raises the surplus by exactly the loss, and nobody's claim rises |
| VaultContract.ProYieldVault.DoCreditYield | contracts/ProYieldVault.sol:300-305 | Lowers the surplus by exactly the credit, and nobody's claim falls |
| DeltaNeutral.BooksDriftByShortfall | contracts/DeltaNeutralStrategy.sol:109-151 | Over any completed call, accrued plus swept funding grows by what was booked and tokens by what was paid, so both drift apart by exactly the shortfall; a vault harvest sweeps all accrued funding or all tokens, other callers none |
| DeltaNeutral.UnpaidFundingIsBooked | contracts/DeltaNeutralStrategy.sol:117-124 | A source whose call succeeds and pays nothing: a year of funding is booked with no tokens behind it |
| DeltaNeutral.FundingWithinFullRate | contracts/DeltaNeutralStrategy.sol:87-126 | Whatever the oracle answers, one harvest books at most a 100% annual rate on the notional |
| DeltaNeutral.YearPaysRate | contracts/DeltaNeutralStrategy.sol:115-116 | A year at a rate in basis points pays exactly that part of the notional, floored |
| DeltaNeutral.HarvestPays | contracts/DeltaNeutralStrategy.sol:87-151 | Exactly when a harvest completes; it books the floor of the funding at the clamped rate and sends the vault, and no other caller, all accrued funding or all that is held |
| DeltaNeutral.PositionsMove | contracts/DeltaNeutralStrategy.sol:67-85 | Exactly when opening and closing complete, and what each does to notional, positions, principal and the funding booked at the old notional |
| DeltaNeutral.DeltaNeutralStrategy.DoSettle | contracts/DeltaNeutralStrategy.sol:109-126 | Moves the accrual mark first and undoes it when the payment fails; accrued plus swept funding stays all that was ever booked, and tokens follow what was paid |
| DeltaNeutral.DeltaNeutralStrategy.DoHarvest | contracts/DeltaNeutralStrategy.sol:131-160 | Refreshes the clamped rate, settles, and for the vault alone sweeps; a failed settlement restores the old rate; booked funding and tokens stay accounted for |
| DeltaNeutral.DeltaNeutralStrategy.DoOpenPosition | contracts/DeltaNeutralStrategy.sol:67-74 | Settles at the old notional before adding to it; booked funding and tokens stay accounted for |
| DeltaNeutral.DeltaNeutralStrategy.DoClosePosition | contracts/DeltaNeutralStrategy.sol:76-85 | Settles before the caller's notional is removed; a notional above delta undoes the settlement and its payment |
| DeltaNeutral.DeltaNeutralStrategy.DoRecall | contracts/BaseStrategy.sol:91-97 | Pays the vault, and nobody else, exactly the smaller of request and balance; completes for every request of the vault |
| Fees.RouteBooksWhatMoves | contracts/FeeDistributor.sol:50-59 | A route moves exactly what it books, at most the balance, and routed totals stay the sum over destinations |
| Fees.FeeDistributor.DoReceiveFees | contracts/FeeDistributor.sol:39-45 | The received total never falls, covers the balance and is a balance that was seen |
| Fees.FeeDistributor.DoRoute | contracts/FeeDistributor.sol:50-59 | Completes exactly for the owner, a destination and something to send; balance plus routed total stays, and the routed totals stay the sum over destinations |
| Fees.SplitFits | scripts/recycle_fees.js:96-98 | Each part is the floor of its percentage, and the two floor parts fit the balance, so the remainder part is non-negative |
| Fees.Recycler.BoostDepositors | scripts/recycle_fees.js:113-133 | Done exactly when one signer owns both contracts and one of the two credit attempts lands, Aborted exactly for a signer who does not own the distributor; Done raises totalAssets and vault balance by the boost and keeps the surplus, a credit that fails twice leaves the boost as surplus |
| Fees.Recycler.Recycle | scripts/recycle_fees.js:75-135 | Done exactly for a policy that adds up, a balance from the minimum on, a signer who owns what the non-zero parts need, one landing credit attempt and a destination for every part; it then empties the distributor, credits exactly the boost, pays treasury and insurance the rest to the wei and keeps backing; a bad policy or a balance below the minimum moves nothing |
| FeeDiscountRuns.LifetimeRebateBound | contracts/PYDFeeDiscount.sol:118-219 | Over the lifetime, claimed plus outstanding rebates equal all accrued and are at most 40% of the highest fee balance snapshotted; no staker is listed twice; all stakes are held |
| JointRuns.RebatesAndBooksTogether | contracts/PYDFeeDiscount.sol:118-239 | In every joint run of vault, strategies and PYDFeeDiscount over one USDC ledger, each snapshot reading the shares the vault has reached: the lifetime rebate bound holds without any assumption on weights, shares add up, and the vault's surplus is exactly what its history took down |
| FeeDiscountRuns.SnapshotWithinCap | contracts/PYDFeeDiscount.sol:187-200 | One snapshot accrues at most the capped part of the fee delta, given weights of distinct holders |
| FeeDiscountRuns.RebateIsFloor | contracts/PYDFeeDiscount.sol:167-168 | A rebate is the floor of the staker's share of the fee delta scaled by its tier |
| FeeDiscountRuns.ReachableVaultWeighs | contracts/PYDFeeDiscount.sol:229-239 | Every reachable vault gives a snapshot such weights |
| FeeDiscountRuns.SnapshotAccrues | contracts/PYDFeeDiscount.sol:167-202 | No new fees is a no-op; otherwise each staker's rebate grows by the documented formula once, nobody else's moves |
| FeeDiscountRuns.SnapshotPaysTier | contracts/PYDFeeDiscount.sol:149-200 | A listed staker's rebate grows by exactly the floor of shares * fee delta * t / (total shares * 10000), t the largest discount among the rows its stake crosses, zero if none |
| FeeDiscountRuns.ClaimPaysWhatExists | contracts/PYDFeeDiscount.sol:207-219 | A claim completes exactly when rebate and budget are positive, pays the smaller and keeps the rest accrued |
| FeeDiscountRuns.StakesMove | contracts/PYDFeeDiscount.sol:118-146 | Exactly when stake, unstake and exit complete; each moves exactly the stake between the caller and the contract and nothing of anyone else's |
| FeeDiscountRuns.ExitAlwaysPaid | contracts/PYDFeeDiscount.sol:138-146 | A staker can always take the whole stake back |
| FeeDiscount.SetScheduleFollowsRuleIff | contracts/PYDFeeDiscount.sol:41-43 | For every settable schedule, the documented tier rule holds for all stakes exactly when discounts never fall |
| FeeDiscount.FallingScheduleAccepted | contracts/PYDFeeDiscount.sol:99-113 | A schedule the check accepts on which a larger stake gets the lower threshold's tier |
| FeeDiscount.BestBpsIsMaximum | contracts/PYDFeeDiscount.sol:149-159 | The tier is the maximum discount over the crossed thresholds, or zero |
| FeeDiscount.SetTiersCompletesIff | contracts/PYDFeeDiscount.sol:99-113 | Exactly which schedules the owner can set, row by row: positive, strictly ascending thresholds and discounts up to 4000; they are stored as given |
| FeeDiscountContract.PYDFeeDiscount.DoTierBpsOf | contracts/PYDFeeDiscount.sol:149-159 | The loop returns that maximum |
| FeeDiscountContract.PYDFeeDiscount.DoSetTiers | contracts/PYDFeeDiscount.sol:99-113 | The loops accept exactly the non-empty, strictly ascending, capped schedules and store them as given |
| FeeDiscountContract.PYDFeeDiscount.DoSnapshotHarvest | contracts/PYDFeeDiscount.sol:169-202 | The loop over the staker list equals the recursive accrual on every list; under the lifetime invariant, which it keeps, every listed staker gains the floor of its share at the largest discount its stake crosses |
| FeeDiscountContract.PYDFeeDiscount.DoStake | contracts/PYDFeeDiscount.sol:118-127 | Completes exactly for a positive amount the sender holds, moves it in as stake, lists the sender, never lowers its tier, and keeps the lifetime invariant |
| FeeDiscountContract.PYDFeeDiscount.DoUnstake | contracts/PYDFeeDiscount.sol:129-135 | Returns exactly the amount out of the stake, undoing the books when the transfer fails, which under the invariant it never does; the tier never rises |
| FeeDiscountContract.PYDFeeDiscount.DoExit | contracts/PYDFeeDiscount.sol:138-146 | Under the invariant always completes; returns the whole stake and keeps rebates and listing |
| FeeDiscountContract.PYDFeeDiscount.DoClaimRebate | contracts/PYDFeeDiscount.sol:207-219 | Claimed plus outstanding rebate stays; pays all of the rebate or all of the budget, and completes exactly when both are positive |
| PTSleeve.AlwaysSound | contracts/PTSleeveStrategy.sol:112-220 | In every run: attested value is 0 or 10000*(arbValue6+retFace6) <= 13000*(sentFace6-inFlight6), arbPrincipal6 is max(0, sent-returned), and idle + sent + paid equals received + returned |
| PTSleeve.DeployedSound | contracts/PTSleeveStrategy.sol:83-100 | A new sleeve satisfies the invariant, whatever it already holds |
| PTSleeve.BookBound | contracts/PTSleeveStrategy.sol:33-43 | What is reported plus what was paid to the vault exceeds what was received by at most 30% of the arrived face; with nothing attested the excess is exactly what returned beyond the face |
| PTSleeve.InboundRaisesByExcess | contracts/PTSleeveStrategy.sol:132-148 | An inbound transfer raises totalAssets by exactly max(0, received - arbValue6) |
| PTSleeve.InboundMoves | contracts/PTSleeveStrategy.sol:132-148 | An inbound transfer completes exactly when something is minted; that becomes idle and returned and comes off the attested value |
| PTSleeve.CallKeepsCapIff | contracts/PTSleeveStrategy.sol:39-43 | A completed call keeps the sync bound exactly when it is not an inbound transfer beyond the unused headroom and below the attested value, nor a headroom too low for what is attested |
| PTSleeve.CapHoldsIff | contracts/PTSleeveStrategy.sol:112-220 | The sync bound holds all through a run exactly when every completed call in it keeps that condition |
| PTSleeve.CapFailsTwice | contracts/PTSleeveStrategy.sol:132-220 | Two runs from deployment, bridge, acknowledgement and sync, that an inbound transfer or a lower headroom takes above the bound |
| PTSleeve.CapBound | contracts/PTSleeveStrategy.sol:161-165 | The floored sync bound admits exactly the values within arrived face times one plus headroom, at most 1.3 times |
| PTSleeve.DeployCompletesIff | contracts/PTSleeveStrategy.sol:112-126 | A deployment completes exactly under its guards, when the messenger takes the burn and while returns do not exceed the new sent total; idle becomes sent and in flight by exactly the amount, and totalAssets stays |
| PTSleeve.KeeperAttests | contracts/PTSleeveStrategy.sol:152-170 | Exactly when an acknowledgement or a sync is accepted, and what each does to totalAssets |
| PTSleeve.VaultPayouts | contracts/PTSleeveStrategy.sol:173-200 | A recall pays what is idle and records the exact shortfall; a push pays the vault and works it off |
| PTSleeve.PTSleeveStrategy.DoDeployToArb | contracts/PTSleeveStrategy.sol:112-126 | Leaves the reported assets as they were and keeps the run invariant; a refused burn moves nothing, returns above the new sent total undo the burn and the books |
| PTSleeve.PTSleeveStrategy.DoCompleteInbound | contracts/PTSleeveStrategy.sol:132-148 | Raises the reported assets by exactly what exceeds the attested value, and keeps the run invariant |
| PTSleeve.PTSleeveStrategy.DoSyncArbValue | contracts/PTSleeveStrategy.sol:161-170 | Accepts exactly the attestations within arrived face times one plus headroom, ends within the bound and keeps the run invariant |
| PTSleeve.PTSleeveStrategy.DoRecall | contracts/PTSleeveStrategy.sol:188-200 | Pays the vault the smaller of request and idle; paid plus pending grows by exactly the request |
| DNCore.LedgerIdentity | contracts/DNCoreStrategy.sol:90-186 | In every run with arbitrary synced equity, profitRealized plus everything bridged out equals the scale times (everything returned plus principal) plus what narrowing cut off, and profitSwept is within profitRealized |
| DNCore.DeployedExact | contracts/DNCoreStrategy.sol:66-73 | A new strategy satisfies the ledger identity |
| DNCore.BridgeBackSplit | contracts/DNCoreStrategy.sol:100-126 | A bridge-back completes exactly under its guards and within synced equity, so principal never underflows; profit is drawn first and nothing is realized at or below principal |
| DNCore.PrincipalFirstIff | docs/AUDIT_SCOPE.md:52-55 | The documented principal-first split leaves the same principal exactly when equity is at or below principal, everything is drawn or there is no principal |
| DNCore.ProfitComesFirst | contracts/DNCoreStrategy.sol:110-126 | A run from deployment in which the whole outflow is profit and the principal stays |
| DNCore.BridgeBackTwice | contracts/DNCoreStrategy.sol:110-126 | Bridging back a then b, equity down by a in between, is bridging back a + b |
| DNCore.SweepLeavesBuffer | contracts/DNCoreStrategy.sol:169-186 | A vault harvest pays exactly what it books, within unswept profit, and leaves at least the buffer idle |
| DNCore.HarvestPays | contracts/DNCoreStrategy.sol:169-186 | Exactly when a harvest completes; the vault gets exactly the smaller of unswept profit and what is idle above the floor of bufferBps of positive equity, spot and idle; keeper and owner only sync |
| DNCore.BridgeOutMoves | contracts/DNCoreStrategy.sol:90-98 | Exactly when bridging out completes; the USDC leaves and its Core units, modulo 2^64, become principal |
| DNCore.RecallPays | contracts/BaseStrategy.sol:91-97 | A recall completes exactly for the vault and pays it exactly the smaller of request and idle |
| DNCore.NarrowedNonNegative | contracts/DNCoreStrategy.sol:94-95 | The 64-bit narrowing of a bridged amount cuts off nothing below 2^64 Core units |
| DNCore.DNCoreStrategy.DoBridgeToCore | contracts/DNCoreStrategy.sol:90-98 | Idle plus everything bridged out stays; principal grows by the scaled amount less what narrowing cuts off, nothing below 2^64 units; keeps the ledger identity |
| DNCore.DNCoreStrategy.DoBridgeBackToEvm | contracts/DNCoreStrategy.sol:110-126 | Splits the outflow at the fresh equity; the checked principal subtraction never reverts; a failed guard undoes the sync; keeps the ledger identity |
| DNCore.DNCoreStrategy.DoHarvest | contracts/DNCoreStrategy.sol:169-186 | Syncs for keeper and owner, and pays the vault alone exactly the smaller of unswept profit and idle above the buffer, written out; returns what profitSwept gained; keeps the ledger identity |
| Morpho.PrincipalNeverSwept | contracts/MorphoStrategy.sol:138-212 | Over any run of deploys, recalls, harvests, market growth and loss, total swept plus unswept growth is at most what the position grew other than by deploying into it, inside unwinds included; the one assumption is that the owner does not make the strategy its own vault |
| Morpho.DeployedSweptNothing | contracts/MorphoStrategy.sol:88-108 | A new strategy starts with nothing swept and nothing to sweep |
| Morpho.UnwindAsksFewestSharesWorthIt | contracts/MorphoStrategy.sol:178-185 | For a need within the position the unwind asks for the fewest shares worth it, within the position, and never divides by zero |
| Morpho.PositionIsFloor | contracts/MorphoStrategy.sol:125-131 | The position is worth the floor of its part of the market, nothing without shares |
| Morpho.RecallNeverReverts | contracts/MorphoStrategy.sol:152-174 | A vault recall never reverts; it pays at least what was idle, up to the request, and re-baselines when it pays |
| Morpho.RecallPays | contracts/MorphoStrategy.sol:155-185 | A recall withdraws the fewest shares worth what idle does not cover, as far as the position goes; if the market answers, the vault is paid the smaller of the request and idle with what came in, and the market is the one after; if not, or if nothing is needed, what was idle, and the market stays |
| Morpho.HarvestLeavesBuffer | contracts/MorphoStrategy.sol:191-212 | A vault harvest pays at most the growth it read, keeps the buffer idle and re-baselines when it pays |
| Morpho.HarvestPays | contracts/MorphoStrategy.sol:191-212 | A vault harvest withdraws the fewest shares worth the growth that idle does not cover and pays exactly the smaller of the growth and idle above the buffer; without growth it only re-baselines |
| Morpho.DeployLeavesBuffer | contracts/MorphoStrategy.sol:138-150 | A deploy completes exactly for keeper or owner with idle funds and a supply that goes through, keeps exactly the buffer idle and leaves nothing to read as yield |
| Morpho.MorphoStrategy.DoUnwind | contracts/MorphoStrategy.sol:178-185 | Requests shares worth at least the need and within the position; a failed withdrawal changes nothing |
| Morpho.MorphoStrategy.DoDeploy | contracts/MorphoStrategy.sol:138-150 | Completes exactly for keeper or owner with idle funds and a supply that goes through; what is supplied is neither growth nor yield, and exactly the buffer stays idle |
| Morpho.MorphoStrategy.DoRecall | contracts/MorphoStrategy.sol:155-174 | Unwinds exactly what idle does not cover, as far as the position goes, pays the smaller of the request and what is then idle, and re-baselines only if it paid |
| Morpho.MorphoStrategy.DoHarvest | contracts/MorphoStrategy.sol:191-212 | Re-baselines on loss, leaves the baseline when nothing can be swept, and pays the vault alone exactly the smaller of the growth and idle above the buffer |

## Left out

- 256-bit overflow, gas, events, reentrancy (every entry point modelled is guarded or atomic), ERC-20 allowances and OpenZeppelin's ownership transfer.
- Object references between contracts: the vault reaches token balances and strategy storage as values in `Pool`, so a callee that calls back is not modelled.
- CoreWriter and precompile encodings, CCTP, Pendle, the PT executor on Arbitrum and Curve: what they answer or mint is an arbitrary input of the call.
- Morpho Blue's internals: a supply or a withdrawal reverts or leaves an arbitrary market.
- DeltaNeutralStrategy's funding source is an account outside the protocol that pays any amount out of its own tokens, or fails the call. The history of funding rates and the forwarding of native ETH are left out.
- A strategy is wired to this vault or to none (`VaultLoops.Wired`); the vault's own inherited `recall`, reachable only through `setVault` on the vault, is not modelled. A listed contract that is no such strategy reverts the vault's calls; one whose fallback accepts them is not modelled.
- Only deployed DeltaNeutralStrategy contracts are listed in the vault's whole-run theorems; the other strategies have their own run theorems and are not composed with the vault.
- PTSleeveStrategy and MorphoStrategy are never made their own vault (`PTSleeve.NotSelf`, `Morpho.NotSelf`), and no contract has address zero.
- DeltaNeutralStrategy's oracle address is never zero after construction, so the branch for an unset oracle is not modelled.
- Timestamps without effect on balances (`lastHarvest`, `lastUpdate`, `syncTime`, `lastSnapshotAt`, `lastSync`), `totalSupplied` and the last position size.
- In `recycle_fees.js`: the chain guards, manifest and policy files, gas estimates, the dry run and the JSON ledger; percentages are natural numbers.
- PYDToken, PYDFunder, SkyStrategy and PendleStrategy: thin wrappers that would add only easy members.
- Keepers, deployment, attestation and monitoring scripts.
- Simple setters (fee, caps and pause of the vault; keeper, vault, active flag and buffer of the strategies) appear in the specification functions only.
