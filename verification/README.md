# Poyz: a verified model of the on-chain accounting

Poyz issues a synthetic dollar against collateral that keepers hedge off chain. The program keeps one config account
with all totals, and stake positions, keepers, open mint and redeem requests and rebalance proofs beside it. This
project models every instruction that moves value or guards it, with the checked 64- and 128-bit arithmetic of the
handlers, and proves what holds over whole runs of the program.

## How it is built

- `Checked`, `FixedPoint`, `TokenLedger`, `Accounts`, `Oracle`: machine integers, rounding helpers, a token ledger
  with exact transfers, the account data and the mutable `Program` the handlers work on.
- `Funding`, `Buffer`, `Mint`, `Redeem`, `Keepers`, `Proof`, `Admin`: for each instruction a specification, a function
  from state to state or error, and a handler method that assigns the accounts step by step and is proved to realise it.
- `Protocol`: the state machine over all instructions, runs with failed calls included, and tallies over runs. A call
  can also be a plain token transfer by a holder; sent to a vault it is a donation. `Runtime` proves that the handlers,
  loaded and written back atomically, run this machine. `Frames` and `Effects` say what each instruction leaves alone.
- `Solvency`, `FairShare`, `Shortfall`, `Conservation`: the funding index. `Ledger`, `Exits`: vaults against counters
  and the way out. `Rates`, `Backing`, `Splitting`, `Hedge`: prices, collateral and the hedge. `Encoding`,
  `ProofHistory`: the proof chain. `Provenance`, `Governance`, `KeeperLedger`, `ParameterCuts`: requests, parameters,
  reports and bonds.
- `FundingSuccess`, `MintSuccess`, `RedeemSuccess`, `ControlSuccess`: for each instruction, in plain arithmetic, exactly
  when it goes through and what it leaves; `Success` puts them together for every call in every reachable state, and
  `Refusals` says with which error a call is refused.
- `MapSums`, `Reals`: sums over maps and floors against exact quotients.

SHA-256 is an arbitrary function parameter, so the tamper-evidence theorem hands out a collision instead of assuming
there is none. Clock, slot and price update are parameters of each call.

## Where the code decides

- The comment on `check_issuance_gates` (programs/poyz/src/instructions/mint.rs:76) says that `mint_request` and
  `mint_confirm` share it. Only `mint_request` calls it; the model follows the code, so a confirmation does not look at carry, venue freshness
  or the hard band (`ParameterCuts.ConfirmIgnoresGates`).
- docs/architecture.md:273-275 bounds a proof by the trigger band and wants the keeper's figures equal. The code bounds
  it by the exit band and tolerates a difference; so does the model.
- `set_params` may lower a cap below the current supply or raise the minimum bond above existing bonds, and a report may
  lower the capacity. `ParameterCuts` says exactly when cap, ceiling and active flags hold throughout a run, and its
  `BoundsBreak` is a run that breaks them.
- That the funding balance always covers the stakers is false: debts are floored again on every stake change. `Shortfall`
  shows a reachable state that owes more than it holds. `Solvency.SolventExactly` is the exact condition, a sum of
  remainders that each call determines beforehand, and `Solvency.LossyExactly` says which single changes cost surplus.
- The regime clock uses 0 for "not running". A regime that starts at time 0 counts from its next report;
  `Governance.RegimeClockExact` covers that case too.

## Model

| member | source | states |
|---|---|---|
| Rates.NotionalIsFloor | programs/poyz/src/math.rs:58-84 | `collateral_to_notional` is the floor of the exact rational value; it succeeds exactly when the decimal shift is within 30 and that floor fits 64 bits |
| Rates.CollateralIsFloor | programs/poyz/src/math.rs:89-117 | `notional_to_collateral` is the floor of the exact inverse value, with the exact condition under which it succeeds, intermediate products included |
| Rates.RoundTripExactly | programs/poyz/src/math.rs:58-117 | there and back never returns more than the start and loses at most ceil((10^k - 1)/price) for shift -k and nothing for shift >= 0; the way back fails exactly when nothing was converted at a price too large to scale up |
| Rates.NineteenDecimalsSafe | programs/poyz/src/math.rs:89-117 | up to nineteen decimals of shift the inverse conversion fails only when its result does not fit 64 bits |
| Rates.LoadPriceExactly | programs/poyz/src/oracle.rs:142-171 | a price is accepted exactly when it is positive, published within the allowed past and its confidence interval is at most the bound in exact cross-multiplied terms; rounding the ratio up loses no case |
| Splitting.NetIsFloor | programs/poyz/src/math.rs:130-140 | a fee rounded up leaves exactly the remaining share rounded down |
| Splitting.IssueTermsExactly | programs/poyz/src/instructions/mint.rs:422-425 | ratio then fee is one chain of two floors and succeeds exactly when something is left to issue |
| Hedge.WithinBandExactly | programs/poyz/src/math.rs:183-195 | the truncated delta is within a band exactly when the deviation is below one more basis point of the book |
| Provenance.CeilingExactly | programs/poyz/src/instructions/mint.rs:66-72 | being under `supply_ceiling` is the cap and the cross-multiplied capacity share |
| Provenance.HardBandExactly | programs/poyz/src/instructions/mint.rs:105-122 | the hard band check passes exactly when the book is worth nothing or its deviation is inside the band |
| Funding.Accrue | programs/poyz/src/instructions/funding.rs:48-62 | moves what was earned into `unclaimed` and re-baselines the debt, or fails as the specification does |
| Funding.HandleSettleFunding | programs/poyz/src/instructions/funding.rs:120-190 | splits a settlement between buffer and stakers; result and whole new state are those of the specification |
| Funding.HandleStake | programs/poyz/src/instructions/funding.rs:261-318 | accrues, takes the stake in and re-baselines |
| Funding.HandleRequestUnstake | programs/poyz/src/instructions/funding.rs:394-431 | accrues, moves stake to the exit and restarts the cooldown |
| Funding.HandleUnstake | programs/poyz/src/instructions/funding.rs:447-482 | pays the pending stake out after the cooldown |
| Funding.HandleClaimFunding | programs/poyz/src/instructions/funding.rs:545-590 | accrues and pays `unclaimed` out of the stakers' balance |
| Buffer.HandleBufferDeposit | programs/poyz/src/instructions/buffer.rs:79-102 | adds a deposit to the buffer |
| Buffer.HandleBufferWithdraw | programs/poyz/src/instructions/buffer.rs:159-217 | moves a capped draw from the buffer to the stakers during a negative regime |
| Mint.HandleMintRequest | programs/poyz/src/instructions/mint.rs:183-272 | gates, quotes and escrows a deposit |
| Mint.HandleMintConfirm | programs/poyz/src/instructions/mint.rs:347-482 | settles a deposit at the lower quote against an attested fill |
| Mint.HandleMintCancel | programs/poyz/src/instructions/mint.rs:562-596 | returns an expired deposit |
| Redeem.HandleRedeemRequest | programs/poyz/src/instructions/redeem.rs:98-183 | quotes and escrows a redemption |
| Redeem.HandleRedeemConfirm | programs/poyz/src/instructions/redeem.rs:282-413 | burns the escrow and pays at the lower quote |
| Redeem.HandleRedeemCancel | programs/poyz/src/instructions/redeem.rs:492-526 | returns an expired redemption |
| Proof.HandleCommitProof | programs/poyz/src/instructions/proof.rs:194-364 | recomputes the delta, appends the record and extends the hash chain |
| Keepers.SetActive | programs/poyz/src/instructions/keeper.rs:26-40 | keeps the keeper count in step with the flag |
| Keepers.Rebond | programs/poyz/src/instructions/keeper.rs:471-493 | the common tail of bonding, unbonding and slashing: tokens, totals and flag |
| Keepers.HandleKeeperRegister | programs/poyz/src/instructions/keeper.rs:93-135 | creates an active keeper with at least the minimum bond |
| Keepers.HandleKeeperBond | programs/poyz/src/instructions/keeper.rs:197-233 | adds bond and re-evaluates the flag |
| Keepers.HandleKeeperUnbond | programs/poyz/src/instructions/keeper.rs:294-353 | returns bond after the cooldown, all or down to at least the minimum |
| Keepers.HandleKeeperSlash | programs/poyz/src/instructions/keeper.rs:430-493 | moves bond to the slash vault and re-evaluates the flag |
| Admin.HandleSetParams | programs/poyz/src/instructions/admin.rs:355-427 | applies a partial update and re-validates the whole parameter set |
| Admin.HandleSetPaused | programs/poyz/src/instructions/admin.rs:490-513 | sets the two switches under the guardian and vault rules |
| Admin.HandleInitVaults | programs/poyz/src/instructions/vaults.rs:23-37 | records a vault group once |
| Admin.HandleReportVenueState | programs/poyz/src/instructions/admin.rs:638-698 | stores a capped report and runs the negative-funding clock |
| Runtime.Dispatch | programs/poyz/src/lib.rs:59-310 | every entry point does what its specification says |
| Runtime.Store.Execute | programs/poyz/src/lib.rs:59-310 | an instruction commits as a whole or leaves every account as it was |
| Success.EveryCallAnswers | programs/poyz/src/lib.rs:59-310 | in every reachable state every call succeeds if and only if its conditions hold, written as inequalities over the accounts, the clock and the price, and then changes exactly what is written out for it |
| FundingSuccess.SettleExactly | programs/poyz/src/instructions/funding.rs:120-190 | a settlement succeeds if and only if the authority signs, has the tokens and the index has room |
| FundingSuccess.CutExactly | programs/poyz/src/instructions/funding.rs:126-135 | the buffer's part is the settlement less the stakers' rounded-down share, everything while nothing is staked |
| FundingSuccess.SettleLeaves | programs/poyz/src/instructions/funding.rs:175-190 | after a settlement the stakers' balance is up by `amount * (10_000 - share) / 10_000`, the buffer by the rest, the index by the stakers' part over the stake, and the vaults accordingly |
| FundingSuccess.StakeExactly | programs/poyz/src/instructions/funding.rs:261-318 | staking succeeds if and only if minting is open, the vaults exist, the owner has a positive amount and the new entitlement and the banked amount fit their widths |
| FundingSuccess.StakeLeaves | programs/poyz/src/instructions/funding.rs:261-318 | position, total and tokens after a stake |
| FundingSuccess.RequestUnstakeExactly | programs/poyz/src/instructions/funding.rs:394-431 | asking for stake back succeeds if and only if the owner has that much staked, the amount is positive, the cooldown fits the clock and the entitlement and banked amount fit; no pause switch matters |
| FundingSuccess.RequestUnstakeLeaves | programs/poyz/src/instructions/funding.rs:394-431 | the amount moves from stake to pending, the total drops by it and the cooldown restarts |
| FundingSuccess.DrawExactly | programs/poyz/src/instructions/buffer.rs:159-209 | a draw succeeds if and only if the authority signs, something is staked, the regime is served, `amount * 10_000 <= buffer * cap` and the index has room |
| FundingSuccess.DrawLeaves | programs/poyz/src/instructions/buffer.rs:180-217 | buffer down and stakers' balance up by the amount, index up by its share, tokens from vault to vault |
| FundingSuccess.DepositExactly | programs/poyz/src/instructions/buffer.rs:79-102 | a deposit succeeds if and only if it is positive and the depositor has it |
| MintSuccess.RequestMintExactly | programs/poyz/src/instructions/mint.rs:183-257 | a mint request succeeds if and only if the nonce is free, minting is open, the vaults and an active keeper exist, price and report are good, the book is hedged, there is room for one more unit, the deposit is worth something that fits and the depositor has it |
| MintSuccess.ConfirmMintExactly | programs/poyz/src/instructions/mint.rs:347-482 | a confirmation succeeds if and only if the request is open and in time, minting is open, the keeper is active and fully bonded, hash and venue are given, the price is good, the fill is within both slippage bounds, the net issue is positive and at least the asked minimum, and supply and counters have room |
| MintSuccess.ConfirmMintLeaves | programs/poyz/src/instructions/mint.rs:384-482 | book, supply and the depositor's balance after a confirmation |
| Success.NoIssueWhilePaused | programs/poyz/src/instructions/mint.rs:355 | no call raises the supply while minting is paused |
| RedeemSuccess.RequestRedeemExactly | programs/poyz/src/instructions/redeem.rs:98-183 | a redeem request succeeds if and only if the nonce is free, redeeming is open, the vaults and an active keeper exist, the user has the amount, it fits under the supply with all others in flight, the price is good and the net amount converts to something that fits |
| RedeemSuccess.ConfirmRedeemExactly | programs/poyz/src/instructions/redeem.rs:282-359 | a redemption is settled if and only if its request is open, old enough and in time, redeeming is open, the keeper is active and fully bonded, a hash is given, the price is good, the payout is positive, at least the asked minimum and at most the collateral, and the unwind is at least the amount less the slippage |
| RedeemSuccess.ConfirmRedeemLeaves | programs/poyz/src/instructions/redeem.rs:401-413 | book, hedge, supply and the redeemer's balance after a settlement; the hedge drops by the unwind and stops at zero |
| ControlSuccess.DeltaExactly | programs/poyz/src/math.rs:183-195 | the delta is the deviation in basis points rounded toward zero, with its sign |
| ControlSuccess.CommitExactly | programs/poyz/src/instructions/proof.rs:194-302 | a proof is accepted if and only if the keeper is active and fully bonded, it has the next number, a later slot, a hash and an open venue, the price is good, the book is worth something, the claimed value is within tolerance, the deviation is inside the exit band and near the claimed one |
| ControlSuccess.CommitLeaves | programs/poyz/src/instructions/proof.rs:327-364 | every field of the record, the chain head and the keeper's counters after a proof |
| ControlSuccess.AddBondExactly | programs/poyz/src/instructions/keeper.rs:197-233 | adding bond succeeds if and only if the keeper is registered, has the positive amount and the totals have room |
| ControlSuccess.UnbondExactly | programs/poyz/src/instructions/keeper.rs:294-353 | withdrawing bond succeeds if and only if it is held, the cooldown is over and all or at least the minimum remains |
| ControlSuccess.SlashExactly | programs/poyz/src/instructions/keeper.rs:430-493 | slashing succeeds if and only if the authority signs, the bond covers it, evidence and a listed reason are given and the counters have room |
| ControlSuccess.SetParamsExactly | programs/poyz/src/instructions/admin.rs:355-427 | an update succeeds if and only if the authority signs and the field-by-field result is within the bounds |
| ControlSuccess.SetPausedExactly | programs/poyz/src/instructions/admin.rs:490-513 | who may set the switches to what, and that they are set |
| ControlSuccess.InitVaultsExactly | programs/poyz/src/instructions/vaults.rs:23-37 | only the authority creates a vault group, once, and its bit is set |
| ControlSuccess.ReportExactly | programs/poyz/src/instructions/admin.rs:638-698 | the authority or an active fully bonded keeper may report an open venue in time, and what is stored then |
| Refusals.RefusedInOrder | programs/poyz/src/lib.rs:59-310 | a call that fails a gate is refused with the error of the first gate it fails, in the program's order |
| Refusals.PriceRefused | programs/poyz/src/oracle.rs:142-171 | which error an unusable price gives |
| Solvency.OwedNonNegative | programs/poyz/src/instructions/funding.rs:48-52 | with a debt recorded at an earlier index nothing negative is ever owed, so the subtraction in `accrue` cannot underflow |
| Solvency.RunKeeps | programs/poyz/src/instructions/funding.rs:48-62 | in every reachable state `total_staked` is the sum of stakes, every debt is the floored entitlement at an index the run went through and at one not above the current index, and the scaled surplus of the balance is exactly the dust of the calls so far |
| Solvency.MarginExactly | programs/poyz/src/instructions/funding.rs:48-190 | in every reachable state the funding balance less what all stakers are owed, scaled up, is exactly the dust of the calls so far plus what rounding the entitlements holds back; the dust of a call follows from the state before it |
| Solvency.SolventExactly | programs/poyz/src/instructions/funding.rs:126-190 | in every reachable state the balance covers all stakers together if and only if that margin is not negative |
| Solvency.StakersCovered | programs/poyz/src/instructions/funding.rs:126-190 | in every reachable state all stakers together are owed at most the funding balance plus one base unit per lossy stake change |
| Solvency.StrandedBounded | programs/poyz/src/instructions/funding.rs:126-190 | what is left for nobody is less than one unit per position and stake change, and per inflow no more scaled units than were staked |
| Solvency.LossyExactly | programs/poyz/src/instructions/funding.rs:305-310 | a stake change eats into the surplus exactly when its new debt rounds away more than the old one did, which shows before the call |
| Solvency.SafeChanges | programs/poyz/src/instructions/funding.rs:394-422 | staking at index zero and unstaking everything are never lossy |
| Solvency.GuardExactly | programs/poyz/src/instructions/funding.rs:552-557 | one claim passes the balance guard if and only if the margin, together with what the others are owed, is not negative |
| Solvency.GuardNeverFires | programs/poyz/src/instructions/funding.rs:552-557 | while the margin is not negative every claim passes the balance guard |
| Solvency.NoLossNoShortfall | programs/poyz/src/instructions/funding.rs:305-310 | without a lossy stake change the margin is never negative |
| Solvency.StakeChangesNeutral | programs/poyz/src/instructions/funding.rs:261-431 | `stake` and `request_unstake` change nobody's owed amount |
| Solvency.ClaimPays | programs/poyz/src/instructions/funding.rs:545-590 | a claim pays exactly what is owed, leaves nothing owed to the claimant and nobody else's due changed |
| Conservation.ClaimsExactly | programs/poyz/src/instructions/funding.rs:545-590 | in every reachable state a claim succeeds exactly when something is owed, the balance covers it and no counter overflows |
| Shortfall.ExactSolvencyFails | programs/poyz/src/instructions/funding.rs:305-310 | a concrete run from initialisation after which the stakers are owed 5 while 4 are held |
| FairShare.InflowShare | programs/poyz/src/math.rs:200-217 | one index increment is below the exact pro-rata share by less than one scaled unit per staked token |
| FairShare.CreditedIsFair | programs/poyz/src/instructions/funding.rs:48-190 | over any run from initialisation the index credits every staker within one base unit per own stake change of the exact per-settlement distribution, less the exposed stake over the scale |
| FairShare.StretchIsFair | programs/poyz/src/instructions/funding.rs:48-190 | over any stretch of calls, from any state, what a staker gains is within one base unit of the exact sum, and one more per own stake change, less the exposed stake over the scale |
| Conservation.RevenueConserved | programs/poyz/src/instructions/funding.rs:126-190 | over every run settlements plus buffer deposits equal buffer plus stakers' balance plus everything claimed |
| Conservation.SplitFits | programs/poyz/src/instructions/funding.rs:126-135 | for every valid share the buffer's cut is its exact share rounded up, all of the settlement while nothing is staked, and never more than the settlement |
| Conservation.SettlementExactly | programs/poyz/src/instructions/funding.rs:120-190 | in every reachable state a settlement fails only for a wrong signer, missing tokens or a full index |
| Conservation.DrawsDecay | programs/poyz/src/instructions/buffer.rs:180-209 | k draws under a cap of d basis points, with anything in between, leave at least (1 - d)^k of the buffer |
| Conservation.BufferNeverDrained | programs/poyz/src/instructions/buffer.rs:180-209 | a cap below 100% never draws a positive buffer to zero |
| Ledger.LedgerBalanced | programs/poyz/src/state.rs:196-355 | in every reachable state each counter of the config equals the sum of the accounts behind it, each vault holds its counter plus what outsiders sent it, collateral and bond tokens are conserved and synthetic in circulation is the initial supply plus `total_synthetic` |
| Exits.MintEscrowReturns | programs/poyz/src/instructions/mint.rs:562-596 | in every reachable state a mint request can be cancelled if and only if its deadline has passed, and the whole escrow comes back |
| Exits.RedeemEscrowReturns | programs/poyz/src/instructions/redeem.rs:492-526 | the same for redemptions |
| Exits.StakeReturns | programs/poyz/src/instructions/funding.rs:447-482 | in every reachable state pending stake is paid out in full if and only if its cooldown is over |
| Exits.MintWindowsDisjoint | programs/poyz/src/instructions/mint.rs:370-373 | no moment lets a mint request be both confirmed and cancelled |
| Exits.RedeemWindowsDisjoint | programs/poyz/src/instructions/redeem.rs:310-313 | no moment lets a redeem request be both confirmed and cancelled |
| Exits.MintRequestsConsumedOnce | programs/poyz/src/instructions/mint.rs:347-596 | whatever is measured of a mint request when opened is what is measured when it is confirmed or cancelled: it never changes and is consumed once |
| Exits.RedeemRequestsConsumedOnce | programs/poyz/src/instructions/redeem.rs:282-526 | the same for redemptions |
| Backing.MintTermsCovered | programs/poyz/src/instructions/mint.rs:384-425 | what is issued and charged together is worth at most the collateral taken in |
| Backing.PayoutCovered | programs/poyz/src/instructions/redeem.rs:324-337 | a redemption pays at most what the burned amount less its fee is worth |
| Backing.SupplyBacked | programs/poyz/src/instructions/mint.rs:384-482 | in every run whose price never falls between confirmations, the exact value of the collateral is at least the supply plus every fee charged so far |
| Backing.AllRedemptionsPayable | programs/poyz/src/instructions/redeem.rs:324-346 | then all open redemptions together fit the collateral, so their order does not matter |
| Backing.RedeemNeverShort | programs/poyz/src/instructions/redeem.rs:343-413 | then the shortfall check of `redeem_confirm` never fires and its token movements never fail |
| Splitting.MintOutcomeExactly | programs/poyz/src/instructions/mint.rs:384-425 | a deposit pipeline as exact integer arithmetic, with the exact condition of success |
| Splitting.DepositPays | programs/poyz/src/instructions/mint.rs:183-482 | a deposit carried through both handlers issues that outcome to the depositor and at least the asked minimum, whatever happened in between |
| Splitting.SplitDepositsNeverPay | programs/poyz/src/instructions/mint.rs:384-425 | however a deposit is split at the same two prices, pieces that fail included, one deposit of the total issues at least as much or does not fit the machine integers |
| Splitting.RedeemOutcomeExactly | programs/poyz/src/instructions/redeem.rs:324-337 | a redemption pipeline as exact integer arithmetic, with the exact condition of success |
| Splitting.RedemptionPays | programs/poyz/src/instructions/redeem.rs:98-413 | a redemption carried through both handlers pays that outcome to the redeemer and at least the asked minimum |
| Splitting.SplitRedemptionsNeverPay | programs/poyz/src/instructions/redeem.rs:324-337 | however a redemption is split, pieces that fail included, one redemption of the total pays at least as much or does not fit |
| Hedge.NearMeans | programs/poyz/src/instructions/mint.rs:397-420 | the closeness relation of the next row in plain products |
| Hedge.HedgeDriftBounded | programs/poyz/src/instructions/mint.rs:394-482 | from a book accepted by a proof at exit band e, any n mints at a constant price with slippage bound s keep the hedge within max(e + 1, s) basis points of the exact book value plus 2n + 1 base units |
| Hedge.LargerUnwindAccepted | programs/poyz/src/instructions/redeem.rs:348-413 | a redemption that goes through goes through with every larger attested unwind too, to the same effect but for a lower hedge |
| Encoding.LittleEndianRoundTrip | programs/poyz/src/instructions/proof.rs:309-325 | fixed-width little-endian encoding decodes to the number encoded |
| Encoding.PreimageWidth | programs/poyz/src/instructions/proof.rs:309-325 | the hashed message is always 197 bytes |
| Encoding.PreimageInjective | programs/poyz/src/instructions/proof.rs:309-325 | equal messages have equal values in all fifteen hashed fields |
| ProofHistory.ProofsChained | programs/poyz/src/instructions/proof.rs:225-364 | in every reachable state proofs are numbered 0 to `rebalance_count` - 1 without a gap, each linked to its predecessor, and keepers' counters add up to that number |
| ProofHistory.SlotsIncrease | programs/poyz/src/instructions/proof.rs:234-239 | slots increase strictly along the whole chain |
| ProofHistory.ProofsRecomputed | programs/poyz/src/instructions/proof.rs:255-346 | every stored proof goes back to a call of the run, with its delta recomputed against the book of that moment inside the exit band of that moment |
| ProofHistory.CommitReopensIssuance | programs/poyz/src/instructions/proof.rs:281-285 | right after a proof the hard band check of issuance passes at the same price |
| ProofHistory.TamperEvident | programs/poyz/src/instructions/proof.rs:306-364 | two runs with as many proofs and the same head hash agree on every hashed field of every proof or exhibit two messages with one digest |
| Provenance.ConfirmSanctioned | programs/poyz/src/instructions/mint.rs:183-373 | every issuance goes back to an unchanged request within the ttl in force when it was made, at which carry floor, venue freshness, price gates, hard band and ceiling held |
| Provenance.SupplyRaisesUnderCeiling | programs/poyz/src/instructions/mint.rs:432-446 | only a mint confirmation raises the supply, at an accepted price, and it ends under the cap and the capacity share |
| Provenance.CapacityReported | programs/poyz/src/instructions/admin.rs:680-686 | the stored capacity is zero or the smaller of a report of the run and the reporting ceiling of its moment |
| ParameterCuts.CapHeldExactly | programs/poyz/src/instructions/admin.rs:355-427 | the supply stays at or below the cap throughout a run if and only if every successful update leaves a cap at or above the supply |
| ParameterCuts.CeilingHeldExactly | programs/poyz/src/instructions/mint.rs:66-72 | the supply stays within cap and capacity share throughout a run if and only if every successful update and report leaves it there |
| ParameterCuts.ConfirmIgnoresGates | programs/poyz/src/instructions/mint.rs:347-482 | a confirmation has the same outcome whatever the last report says of carry and time and however the book is hedged |
| ParameterCuts.BoundsBreak | programs/poyz/src/instructions/mint.rs:347-482 | a concrete run from initialisation that confirms below the carry floor and then, by one valid update, ends with the supply above the cap and an active keeper below the minimum bond |
| Provenance.SettlementSanctioned | programs/poyz/src/instructions/redeem.rs:98-313 | every redemption paid goes back to an unchanged request, old enough for the delay and within its ttl |
| Provenance.PendingUnstakeRequested | programs/poyz/src/instructions/funding.rs:394-421 | stake that is leaving was asked back by its owner and waits out the cooldown in force then |
| Governance.RunGoverned | programs/poyz/src/instructions/admin.rs:106-168 | every reachable parameter set satisfies the bounds, and the identity of the config never changes |
| Governance.ParamsBounded | programs/poyz/src/instructions/admin.rs:106-168 | the bounds as one set of inequalities, in both directions |
| Governance.MergeFaithful | programs/poyz/src/instructions/admin.rs:355-427 | for any update, the merged set is the one whose every field is the given value where there is one and the old value where there is none |
| Governance.MergeComposes | programs/poyz/src/instructions/admin.rs:355-427 | of two updates in a row the later one wins field by field |
| Governance.OpenMeansReady | programs/poyz/src/instructions/admin.rs:507-511 | in every reachable state with minting or redeeming open all four vault groups exist |
| Governance.GuardianOnlyPauses | programs/poyz/src/instructions/admin.rs:490-514 | without the authority, whatever everybody else does, what is paused stays paused |
| Governance.RegimeClockExact | programs/poyz/src/instructions/admin.rs:670-698 | `negative_funding_since` is zero exactly outside a negative regime and otherwise the time of the report that opened it, for every trace of reports |
| Governance.DrawsWaitOutTheRegime | programs/poyz/src/instructions/buffer.rs:170-178 | every buffer draw is preceded by a wholly negative regime at least as long as the unlock delay |
| KeeperLedger.BondAccounted | programs/poyz/src/instructions/keeper.rs:117-493 | whatever a keeper ever deposited is bonded, slashed or withdrawn, and its slashed counter is the sum of its slashes |
| KeeperLedger.ActiveKeepersCounted | programs/poyz/src/instructions/keeper.rs:26-40 | while the minimum bond is unchanged a keeper is active exactly when it holds the minimum, and `keeper_count` is the number of such keepers |
| ParameterCuts.ActiveHeldExactly | programs/poyz/src/instructions/admin.rs:355-427 | active means holding the minimum throughout a run if and only if no successful update moves the minimum past the bond of a keeper |
| KeeperLedger.CountNeverSaturates | programs/poyz/src/instructions/keeper.rs:36-38 | the saturating decrement is exact |
| KeeperLedger.AttestationsSlashable | programs/poyz/src/instructions/mint.rs:356-363 | whoever attests a fill, an unwind or a proof has at least the minimum bond in the vault |
| KeeperLedger.UnbondAfterCooldown | programs/poyz/src/instructions/keeper.rs:294-321 | bond is withdrawn only after the cooldown since the keeper's last proof, and never down to a partial bond |

## Left out

- Hedge.HedgeDriftBounded: for mints between two proofs; a redemption may report any larger unwind (`Hedge.LargerUnwindAccepted`), so no bound holds across it.
- Backing.SupplyBacked: for prices that do not fall between confirmations; profit and loss of the hedge at the venues is invisible to the program.
- Account plumbing: derived addresses, rent, sizes, bumps and account relations; accounts are map entries and signers are keys.
- Token programs: one account per holder and mint, three distinct mints, no burns by third parties; handing over a wrong token account is not modelled.
- Authentication of the price account (owner, discriminator, verification level, feed id); a call meets an authenticated update, and all numeric gates are modelled.
- `initialize`: any state with valid parameters, empty books and vaults and arbitrary user wallets is an initial state.
- `set_guardian`, `set_oracle` and the authority handover: single assignments; authority and guardian are constant over a run.
- Vault creation is the flag it sets; the token accounts exist from the start.
- The minimum of a 32-bit signed delta or carry: its absolute value does not exist in that width, where the program aborts and the model reports the range error.
- The venue id of `redeem_confirm` is recorded in an event only and is not a parameter.
- Events, the interface description, clients, migrations and the off-chain keeper.
