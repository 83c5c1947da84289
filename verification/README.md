# Payment channels on Nervos CKB: model and proofs

This project models the Perun backend for Nervos CKB and proves properties of it with Dafny: how channel transactions
are drafted and balanced, what a channel pays out over its whole life, and how concurrent clients, subscriptions and
funders behave against the ledger.

    dafny verify dfyconfig.toml

## What is modelled

- `Words`, `LittleEndian`, `Cells`, `Wrappers`: uint64 arithmetic with wrap-around, 128-bit amounts in 16 bytes, cells
  and their holdings.
- `AssetInformation`, `ScriptGroups`, `TransactionBuilder`, `CellIterators`: the transaction builder, a class whose
  methods append to inputs, outputs, data, witnesses, script groups and change-cell tables. Go's uint64 sums wrap, so
  balance is proved modulo 2^64 without any assumption, and exactly whenever the unbounded totals are below 2^64. The
  UDT loop ranges over a Go map; the model takes its keys in any order. Building succeeds whenever the iterators hold
  what is needed, and, unless a UDT sum wraps around, fails for want of a UDT exactly when they do not.
- `ChannelState`, `ChannelStatus`: channel states, their on-chain encoding, the reading back of on-chain balances, and
  the in-place status updates of the info objects.
- `Settlement`, `ScriptHandler`: who is paid what by each transaction. A draft lists inputs and outputs; the methods of
  the script handler add exactly a draft to the builder.
- `Lifecycle`, `Submission`, `VcRent`: whole runs. Value is conserved from open to close up to what a settled state
  leaves in sub-channels, the submitter's gain is that and the dust minus the fee, and the rent of virtual channel cells,
  of which any number may be live, is accounted for owner by owner and lock by lock.
- `Disputes`, `Subscription`, `Funding`, `ScriptCache`: interleaved processes as state machines. Every event is one
  step of one process; the theorems quantify over all event sequences. In `Funding` transactions are sent to a pool, may
  be committed at any later time or never, and either party may give up waiting at any time.

## Assumptions about the chain and the libraries

- A transaction is accepted only if all its inputs are live, and it is accepted as a whole. There are no reorganisations.
- The contract refuses to abort a funded channel and to fund, dispute or close a channel that is not in the right stage;
  disputes keep the channel id; states that follow one another keep the sum of every asset, sub-channels included.
- Script hashing is injective and never yields the zero hash, so scripts are identified with their hashes. Occupied
  capacity is some function of lock, type and data length; encoded statuses are equal when the statuses are.
- `uint128` addition wraps at 2^128.
- UDT conservation and exact script groups need iterators that yield cells of exactly their type and, for groups, of the
  change lock. UDT cells are searched by a prefix of the type script (client/ckbclient.go:223-228), so this is not implied.
- A fresh timer is not ready while another case of the subscription's `select` already is.

## Where code and intent differ

The model follows the code. These are theorems, with the exact condition where there is one:

- A UDT balances after `balanceTransaction` if and only if its preset inputs are exactly what the outputs need, or the
  UDT loop visits it and they are nothing or more than that (`NoExcess`). The loop adds what they cover of a larger
  request once more, as excess output (`PartlyFundedUDTIsOverpaid`). It never visits a UDT that is among the inputs only,
  which is then spent for nothing (`UnrequestedUDTIsDropped`, `DroppedUDT`). And it is not reached on the early exit,
  which compares the number of assets and so misses exactly the needed UDTs that no input carries (`EarlyExitMisses`,
  `EarlyExitMissesUDT`).
- `completeCKBCapacity` takes the fewest cells of the iterator that pay for what is due and the change cell's rent,
  unless more than what is due, but not the rent, is preset: then a subtraction wraps around and the whole iterator is
  spent (`TopUpCkb`, `CompleteCKBCapacity`). Conservation holds either way.
- A `CKBOnlyIterator` whose last cell is typed ends with a nil cell. The builder dereferences it exactly if all the
  type-free cells fall short of the request: a panic instead of an error (`CkbFundingPanics`, `AddInputsForFunding`).
- UDT amounts are read from 8 of their 16 bytes. Below 2^64 a close balances SUDTs in full (`SudtNet`); from 2^64 on the
  read loses the upper half, and a transaction that spends such a cell for nothing looks balanced (`LowHalf`,
  `HighHalfIsLost`).
- `HandleCKBFee` says that a change cell may be skipped when inputs match outputs and fee. `completeCKBCapacity` always
  adds one; only the early exit leaves it out (`BalanceTransaction`).
- `updateState` reads CKBytes through `int64`; amounts from 2^63 on come back negative (`PackThenUpdate`).
- The encoding that parties sign does not determine the state. Encodings are equal if and only if the states differ in
  nothing but index maps of sub-allocations, or in nothing but their locked funds, where each side has either none or,
  in a state with no asset or CKBytes alone, a single one of id zero with nothing in it (`EncodingCommits`,
  `DefaultSubAllocCollides`).
- With a virtual channel, the index map is applied to the virtual side for CKBytes and to the parent side for SUDTs. Sums
  do not notice; the parties do (`VcSettlementConserves`, `SudtGoesToItsOwner`).
- A merge of two virtual channel cells keeps the older one, or of two equally old ones the second. It keeps the newest
  state if and only if that cell has it (`MergeKeepsNewest`, `MergeForgets`).
- `client/ckbclient.go:520-524` says that rent payouts follow the owner's actual lock script. The owner is restored from
  the public key alone (`wallet/address/address.go:270-284`), so refunds go to the default lock of that key: to the lock
  that paid the rent if and only if it is that default lock, otherwise all of it goes elsewhere
  (`RentReturnsToDefaultLocks`, `RentStrays`). If both parties are paid to that lock, the rent is refunded twice
  (`RefundedOnce`).
- `Adjudicator.Withdraw` closes a state that has funds locked in sub-channels like any other
  (`channel/adjudicator/adjudicator.go:60-77`): the parties are paid their balances, and what is locked falls to whoever
  submits the transaction. Everything is paid if and only if nothing is left there (`PaidInFull`, `LeavesSubChannel`,
  `CloseAfterRun`).
- `ForceCloseWithVC` with one newer and one older state settles the ledger's balances for both (`BehindInOneIsBehind`).
- `fundPartyA` returns no error when its abort after the last poll succeeds; success then means that the channel is gone
  (`SuccessMeansFunded`, `AbortedSuccess`). An error is no proof of failure either: funds that `fundPartyB` has sent may
  still be locked after it returned an error, exactly while they wait for a live, unfunded cell (`FundingAfterAnError`,
  `FundedInSpiteOfError`); likewise for an abort (`AbortAfterReturn`,
  `AbortedInSpiteOfError`).
- `PollingSubscription.Err` documents errors for a concluded or cancelled subscription; the code reports none (`Run`).
  Only changes from a funded status are reported: not the status found first, even if it is a disputed one, and not a
  dispute that follows an unfunded status (`ReportsChanges`, `DisputeGoesUnreported`).

## Model

| member | source | states |
|---|---|---|
| `LittleEndian.PackUnpack` | encoding/molecule/molecule.go:43-65 | amounts are accepted exactly on [0, 2^128), unpacking inverts packing, and the 8-byte read used for balancing gives the amount modulo 2^64 |
| `LittleEndian.UnpackPack` | encoding/molecule/molecule.go:53-65 | every 16 bytes are the one encoding of the amount they decode to |
| `LittleEndian.PackedDigits` | encoding/molecule/molecule.go:43-51 | storing two 64-bit halves writes the base-256 digits of the whole number, lowest first |
| `LittleEndian.ToU128LE` | encoding/channel_state.go:198-211 | the byte-reversing loop is the same encoder as PackUint128: same inputs accepted, same bytes |
| `AssetTotals.AssetInformation.AddValuesFromOutput` | transaction/transaction.go:460-475 | the running totals track the wrapped totals of all cells counted so far, for CKBytes and every known UDT |
| `AssetTotals.AssetInformation.MergeWithAssetInformation` | transaction/transaction.go:424-432 | merging adds the two totals of every asset, whatever the order of the map |
| `AssetTotals.AssetInformation.EqualAssets` | transaction/transaction.go:434-445 | equal if and only if there are as many assets on both sides and each of this side's amounts is the other side's |
| `ScriptGroups.PickMembers` | transaction/transaction.go:350-374 | a group's index list has exactly the indices of the cells that use its script as lock or type |
| `ScriptGroups.PickIncreasing` | transaction/transaction.go:350-374 | such a list is strictly increasing if and only if no cell uses the script as both lock and type |
| `ScriptGroups.GroupListsItsCells` | transaction/transaction.go:315-374 | an exact group is the only one of its script and lists the inputs and outputs that use it and no others, in increasing order unless one uses it as both |
| `ScriptGroups.CopyValidScriptGroups` | transaction/transaction.go:294-313 | the groups returned are exactly the needed ones, in order |
| `ScriptGroups.NothingNeededIsDropped` | transaction/transaction.go:288-313 | no script of an input loses its group, nor any type script of an output whose group is of type kind; lock groups without inputs are dropped |
| `CellIterators.FilteredCellIterator.HasNext` | client/filtered_iterator.go:22-39 | repeatable: what remains to be yielded is unchanged, and the answer is whether anything remains |
| `CellIterators.FilteredCellIterator.Next` | client/filtered_iterator.go:41-47 | yields the first of the remaining filtered cells and removes it, nil if there is none |
| `CellIterators.FilterYields` | client/filtered_iterator.go:22-39 | a cell is yielded in its place if and only if it is not nil and passes the filter |
| `CellIterators.Drive` | client/filtered_iterator.go:22-47 | for any mix of HasNext and Next calls the answers are those of the filtered subsequence: nothing lost, doubled or reordered |
| `CellIterators.CKBOnlyIterator.HasNext` | client/ckb_iterator.go:15-17 | over-approximates: false only if no type-free cell is left |
| `CellIterators.CKBOnlyIterator.Next` | client/ckb_iterator.go:20-29 | yields the next cell without a type script and skips all others |
| `CellIterators.TypeFreeYields` | client/ckb_iterator.go:20-29 | a cell is kept in its place if and only if it has no type script |
| `CellIterators.SeenIsTypeFree` | client/ckb_iterator.go:15-29 | a HasNext/Next loop sees exactly the type-free cells, followed by one nil just when a typed cell comes last |
| `CellIterators.CkbFundingPanics` | transaction/transaction.go:780-794 | asking a CKBOnlyIterator for funds dereferences nil if and only if the last cell of its base is typed and its type-free cells fall short of the request |
| `CellIterators.Collect` | client/ckb_iterator.go:15-29 | the loop over such an iterator terminates with the base used up |
| `TransactionBuilding.PerunTransactionBuilder.TakeInput` | transaction/transaction.go:780-802 | one turn appends one input with one witness, counts its holdings and lists it in its groups |
| `TransactionBuilding.PerunTransactionBuilder.AddInputsForFunding` | transaction/transaction.go:768-809 | appends the shortest non-empty prefix of the iterator that reaches the request, or all of it, with one witness each, returns that prefix's totals; each of the four errors has its exact condition, a nil cell being reached just when the cells before it fall short |
| `TransactionBuilding.PerunTransactionBuilder.AddOrUpdateCKBChangeCell` | transaction/transaction.go:593-617 | the first call appends output, data, table entry and group index together; later ones change the capacity only |
| `TransactionBuilding.PerunTransactionBuilder.AddOrUpdateUDTChangeCell` | transaction/transaction.go:619-658 | likewise for a UDT, whose later calls change the data only |
| `TransactionBuilding.PerunTransactionBuilder.ChangeCellRent` | transaction/transaction.go:835-850 | the capacity set aside for a change cell is what that cell, with its lock, type and data, occupies |
| `TransactionBuilding.PerunTransactionBuilder.AddChangeAndAdjustRequiredFunding` | transaction/transaction.go:825-833 | the requirement grows by the cell's rent; output totals grow by the change and nothing else |
| `TransactionBuilding.PerunTransactionBuilder.TopUp` | transaction/transaction.go:733-742 | takes cells for a UDT only if something is missing, then the shortest prefix that is enough, or fails exactly as its iterator does; the request is then met if and only if preset amount and iterator together meet it |
| `TransactionBuilding.PerunTransactionBuilder.AddInputsAndChangeForFunding` | transaction/transaction.go:731-766 | on success inputs reach the request and everything above it is change; no other UDT is touched. It fails for want of funds if and only if the preset amount and all the iterator holds are below the request, and succeeds if and only if they meet it and the iterator can be asked |
| `TransactionBuilding.PerunTransactionBuilder.TopUpCkb` | transaction/transaction.go:694-716 | unless more than what is due is provided already, both top-ups together take exactly the shortest prefix of the iterator that pays for due and rent; otherwise the request wraps around and empties it. Afterwards nothing due is missing, because a first top-up that falls short leaves the second one nothing and so makes it fail |
| `TransactionBuilding.PerunTransactionBuilder.ShortestTwice` | transaction/transaction.go:694-716 | a shortest prefix for one amount and a shortest one of the rest for what is then missing make up the shortest prefix for both |
| `TransactionBuilding.PerunTransactionBuilder.AddInputsAndChangeForCKB` | transaction/transaction.go:694-727 | the change is the true surplus without underflow, and covers its own rent unless the iterator ran dry |
| `TransactionBuilding.PerunTransactionBuilder.CompleteCKBCapacity` | transaction/transaction.go:677-692 | CKBytes balance with exactly one output added; takes no cell if due and rent are covered, the shortest prefix that pays for them if not, and all if only the rent is missing; succeeds whenever inputs and iterator can pay; the last return is unreachable |
| `TransactionBuilding.PerunTransactionBuilder.BalanceUDT` | transaction/transaction.go:526-552 | one pass leaves outputs and inputs of the UDT apart by the preset amount if that was part of the request, else equal; it succeeds if and only if nothing is missing or the iterator holds it |
| `TransactionBuilding.PerunTransactionBuilder.BalanceUDTs` | transaction/transaction.go:518-553 | for every order in which the map is visited the loop leaves each UDT apart by its gap, and succeeds if and only if every UDT of the outputs can be funded |
| `TransactionBuilding.PerunTransactionBuilder.BalanceTransaction` | transaction/transaction.go:497-561 | input CKBytes are output CKBytes plus fee; each known UDT is off by exactly Excess; the transaction so far is kept and script groups stay exact. It succeeds if the totals look equal, or every UDT can be funded and there are CKBytes for all change cells; it never succeeds in the second case if a UDT cannot be funded |
| `TransactionBuilding.PerunTransactionBuilder.NoExcess` | transaction/transaction.go:512-552 | for all inputs: a UDT balances if and only if its preset inputs are what the outputs need, or the loop is reached, visits it, and they are none or more than that |
| `TransactionBuilding.PerunTransactionBuilder.NoExcessIfRequested` | transaction/transaction.go:512-552 | if every preset UDT is also among the outputs, that is: none or at least the request |
| `TransactionBuilding.PerunTransactionBuilder.EarlyExitMisses` | transaction/transaction.go:512-516 | the early exit leaves a UDT unbalanced if and only if the outputs need it and no input carries it |
| `TransactionBuilding.PerunTransactionBuilder.EarlyExitMissesUDT` | transaction/transaction.go:512-516 | that happens: an unrelated UDT cell of amount 0 hides the missing one |
| `TransactionBuilding.PerunTransactionBuilder.UnrequestedUDTIsDropped` | transaction/transaction.go:518-553 | a preset UDT that is not among the outputs is never visited: all of it is spent for nothing |
| `TransactionBuilding.PerunTransactionBuilder.DroppedUDT` | transaction/transaction.go:518-553 | that happens: one cell of the UDT goes in, a plain cell comes out |
| `TransactionBuilding.PerunTransactionBuilder.PartlyFundedUDTIsOverpaid` | transaction/transaction.go:734-760 | in every transaction, a preset amount below the request is counted twice: it becomes the excess |
| `TransactionBuilding.PerunTransactionBuilder.ExactTotals` | transaction/transaction.go:497-561 | totals that agree modulo 2^64 and are below it are equal |
| `TransactionBuilding.PerunTransactionBuilder.InitializeScript` | transaction/transaction.go:350-374 | one script reference keeps the groups exact and the map a bijection |
| `TransactionBuilding.PerunTransactionBuilder.InitializeScriptGroups` | transaction/transaction.go:315-339 | afterwards every group lists exactly its inputs and outputs, is of lock or type kind only for a script used so, and the default lock has a group; fails exactly if an input is not live |
| `TransactionBuilding.PerunTransactionBuilder.ProcessInputs` | transaction/transaction.go:477-495 | succeeds if and only if lock and type scripts of all inputs have groups |
| `TransactionBuilding.PerunTransactionBuilder.ProcessOutputs` | transaction/transaction.go:381-392 | succeeds if and only if type scripts of all outputs have groups |
| `TransactionBuilding.PerunTransactionBuilder.HandleCKBFee` | transaction/transaction.go:272-286 | refuses exactly a CKB change cell that holds no more than the fee |
| `TransactionBuilding.PerunTransactionBuilder.Build` | transaction/transaction.go:224-270 | a built transaction conserves CKBytes up to the fee and UDTs up to Excess, only appends cells, new outputs going to the change lock, lists no input twice if iterators and preset inputs share no cell, and returns exactly the needed, exact script groups. With live inputs and funds that are enough it is built |
| `ChannelStates.RowRoundTrip` | encoding/channel_state.go:170-296 | a balance row packs exactly within its range, and unpacks to the same asset and balances |
| `ChannelStates.PackAssets` | encoding/channel_state.go:36-83 | the builder loop packs all rows in order, or reports the first error |
| `ChannelStates.PackLockedFunds` | encoding/channel_state.go:87-95 | the builder loop packs all sub-allocations in order, or reports the first error |
| `ChannelStates.SubAllocReadsBack` | encoding/channel_state.go:115-154 | a sub-allocation packs if and only if each asset has a total and all are lockable; it then reads back as its id and those totals as shares of party 0, CKBytes apart and SUDTs in asset order |
| `ChannelStates.LockedReadsBack` | encoding/channel_state.go:87-103 | in an encoded state, sub-allocation i is the packed one; a state without any has just the default one |
| `ChannelStates.PackBalances` | encoding/channel_state.go:33-108 | rows and sub-allocations together, the default sub-allocation standing for none, or the first error |
| `ChannelStates.RowsDetermineState` | encoding/channel_state.go:33-85 | equal packed balances mean equal assets and balances |
| `ChannelStates.LockedDetermine` | encoding/channel_state.go:87-95 | packed sub-allocations are equal if and only if they agree in ids and amounts; index maps are not packed |
| `ChannelStates.PacksToDefault` | encoding/channel_state.go:110-168 | a sub-allocation packs to the default one if and only if it has id zero and nothing in it, over no asset or CKBytes alone |
| `ChannelStates.EncodingCommits` | encoding/channel_state.go:19-108 | two encodings are equal if and only if the states differ in index maps only, or in locked funds only with nothing but default-like ones on both sides |
| `ChannelStates.DefaultSubAllocCollides` | encoding/channel_state.go:97-103 | that exception is real for every packable state without assets or in CKBytes alone, whatever the index map |
| `ChannelStates.ChannelState.UpdateState` | client/ckbclient.go:1201-1242 | overwrites the state with on-chain balances as Updated says, or fails exactly for a missing CKBytes asset or an invalid one |
| `ChannelStates.PackThenUpdate` | client/ckbclient.go:1201-1242 | packing t and updating s from it hands over all SUDT balances of t, the CKByte balances just when below 2^63 and 2^64 too little otherwise, the final flag and the greater version, and leaves ETH rows and everything else of s |
| `ChannelStates.UpdateIdempotent` | client/ckbclient.go:1201-1242 | updating twice from one on-chain state is updating once |
| `ChannelStates.GetSUDTBalancesSlice` | encoding/channel_state.go:298-334 | the SUDT rows in asset order, or the first error |
| `ChannelStates.SudtRowsReadable` | encoding/channel_state.go:298-334 | the SUDT rows can be read if and only if no asset is invalid and every SUDT balance is in [0, 2^128) |
| `Statuses.DisputeInfo.Update` | transaction/disputeinfo.go:45-55 | writes the packed new state and sets Disputed; Funded, VcDisputed and the VCTS hash stay |
| `Statuses.VcDisputeInfo.MkInitialVirtualChannelStatus` | transaction/vcdisputeinfo.go:71-105 | the first virtual channel status records state, parents and owner, not yet force closed |
| `Statuses.VcDisputeInfo.Update` | transaction/vcdisputeinfo.go:107-116 | writes the packed parent state, sets both dispute flags and the VCTS hash; Funded stays |
| `Statuses.VcDisputeInfo.UpdateVCStatus` | transaction/vcdisputeinfo.go:118-127 | writes the packed virtual state; parents, owner and the force close flag stay |
| `Statuses.ForceCloseWithVCInfo.UpdateFirstForceClose` | transaction/forceclosewithvc.go:71-77 | sets the flag on object and status; state, parents and owner stay |
| `Settlement.PartyPaid` | transaction/handler.go:207-231 | a party's cells carry exactly its SUDT claims and its CKBytes, but for dust and counted wrap-arounds |
| `Settlement.PaidToParty` | transaction/handler.go:207-231 | all of a party's cells are locked for it |
| `Settlement.ClaimCellAt` | transaction/handler.go:961-1042 | cell k of a party pays its k-th SUDT: type script and amount, or plain CKBytes for an amount left out; the first one carries the extra CKBytes |
| `Settlement.SharesExactly` | transaction/handler.go:207-231 | a close has shares if and only if all CKByte balances fit 64 bits and the SUDT rows can be read |
| `Settlement.VcShareExactly` | transaction/handler.go:652-686 | with a virtual channel that holds for both channels, and the index map must have the entry, in range if it is looked at |
| `Settlement.NoDust` | transaction/handler.go:207-231 | there is no dust if and only if the channel has an SUDT or each party has nothing or enough for a cell |
| `Settlement.SettlementConserves` | transaction/handler.go:207-235 | Close and ForceClose pay all SUDTs, and state CKBytes, channel capacity and SUDT cell capacity but for the dust |
| `Settlement.VcSettlementConserves` | transaction/handler.go:652-686 | either force close with a virtual channel pays parent plus virtual balances for a permuting index map and aligned assets |
| `Settlement.SudtGoesToItsOwner` | transaction/handler.go:1013-1024 | a party gets its own parent and its mapped virtual SUDT balance if and only if the map leaves it in place or the sums agree |
| `Settlement.CkbNeedsPermutation` | transaction/handler.go:949-959 | virtual CKBytes add up if and only if the map is a permutation or both balances are equal |
| `Settlement.SudtNeedsPermutation` | transaction/handler.go:1013-1024 | an SUDT row is paid in full if and only if the map is a permutation or the parent balances are equal |
| `ScriptHandlers.PerunScriptHandler.AddAssetsToOutputs` | transaction/handler.go:961-975 | one cell per SUDT of the state; extra CKBytes go to the first; fails exactly if the SUDT rows cannot be read |
| `ScriptHandlers.PerunScriptHandler.AddMergedCells` | transaction/handler.go:1000-1042 | one cell per parent SUDT with the merged amount, plain CKBytes for amount 0; a bad index matters only if there is a row |
| `ScriptHandlers.PerunScriptHandler.AddAssetsToOutputsWithVirtualChannel` | transaction/handler.go:977-1044 | adds exactly the cells of the merged claims, or fails as the merge does |
| `ScriptHandlers.PerunScriptHandler.BuildOpen` | transaction/handler.go:131-179 | the builder is given exactly the open draft: token, funds cells of party 0, channel cell; refuses CKBytes too few for a cell |
| `ScriptHandlers.PerunScriptHandler.FundsExactly` | transaction/handler.go:150-168 | a party can fund a channel if and only if its CKBytes fit and are none or enough for a cell and the SUDT rows can be read; one cell holds the CKBytes and one follows for each SUDT |
| `ScriptHandlers.PerunScriptHandler.OpenWrites` | transaction/handler.go:131-179 | opening spends the token, locks the funds cells for the channel and writes the packed state, funded only if party 1 owes nothing |
| `ScriptHandlers.PerunScriptHandler.BuildFund` | transaction/handler.go:345-397 | exactly the fund draft: the channel cell, funds cells of party 1 |
| `ScriptHandlers.PerunScriptHandler.FundWrites` | transaction/handler.go:345-397 | funding spends the channel cell and writes it again as funded and otherwise the same, with lock, type and capacity of the channel |
| `ScriptHandlers.PerunScriptHandler.BuildAbort` | transaction/handler.go:243-290 | exactly the abort draft: all funds and the channel capacity to party 0 |
| `ScriptHandlers.PerunScriptHandler.BuildClose` | transaction/handler.go:187-241 | exactly the close draft, one witness per input; fails if a share or the state and signatures of the witness cannot be packed (handler.go:292-343 has no such witness) |
| `ScriptHandlers.PerunScriptHandler.ClosesExactly` | transaction/handler.go:187-343 | a close can be drafted if and only if there are shares and, unless forced, state and signatures can be packed |
| `ScriptHandlers.PerunScriptHandler.BuildDispute` | transaction/handler.go:404-436 | exactly the dispute draft, made from the status as it was before the in-place update |
| `ScriptHandlers.PerunScriptHandler.DisputeWrites` | transaction/handler.go:404-436 | a dispute spends the channel cell and writes the new state and the disputed flag, all else as before |
| `ScriptHandlers.PerunScriptHandler.BuildFirstVCDispute` | transaction/handler.go:438-487 | exactly the first virtual channel dispute: the new virtual channel cell, then the disputed channel cell |
| `ScriptHandlers.PerunScriptHandler.FirstVcDisputeWrites` | transaction/handler.go:438-487 | a first virtual channel dispute writes the virtual state with parents and owner, and the channel status with both flags and the VCTS hash |
| `ScriptHandlers.PerunScriptHandler.BuildVCDisputeProgress` | transaction/handler.go:489-553 | exactly the progress draft: both cells rewritten |
| `ScriptHandlers.PerunScriptHandler.VcProgressWrites` | transaction/handler.go:489-553 | progress spends both cells and writes both new states; parents, owner and force close flag stay |
| `ScriptHandlers.PerunScriptHandler.BuildVCMerge` | transaction/handler.go:555-614 | keeps the cell with the lower block number, the second one if equal, and pays the other one's capacity to its owner's default lock; fails exactly if that cannot be restored |
| `ScriptHandlers.PerunScriptHandler.VcMergeWrites` | transaction/handler.go:555-614 | a merge spends both cells and writes the status of the older one, the second if equally old |
| `ScriptHandlers.PerunScriptHandler.BuildFirstForceCloseWithVC` | transaction/handler.go:616-699 | exactly the settlement of both channels and the flagged virtual channel cell |
| `ScriptHandlers.PerunScriptHandler.FirstForceCloseWrites` | transaction/handler.go:616-699 | a first force close spends channel, virtual channel and funds cells and writes the virtual status flagged and otherwise the same |
| `ScriptHandlers.PerunScriptHandler.BuildSecondForceCloseWithVC` | transaction/handler.go:701-795 | exactly the settlement with the rent added to each party paid to the owner's default lock, or in a cell of its own if there is none; fails if that lock cannot be restored |
| `Lifecycle.PartyIsPaidItsOwn` | transaction/handler.go:207-231 | each party's cells, all locked for it, carry its own amount of every SUDT and its own CKBytes; party 0 also gets the channel cell's capacity |
| `Lifecycle.VcShareIsOwn` | transaction/handler.go:652-672 | with a virtual channel a party's CKBytes are its own parent balance and the virtual balance of the party it is mapped to |
| `Lifecycle.FundsLocked` | transaction/handler.go:150-168 | a funding party locks its CKBytes, its SUDTs and the capacity of the SUDT cells |
| `Lifecycle.InitiallyFunded` | transaction/openinfo.go:73-83 | a channel that counts as funded from the start needs nothing from party 1 |
| `Lifecycle.SumsKept` | channel/adjudicator/adjudicator.go:60-77 | two states with the same sums per asset, sub-channels included, hold the same SUDTs and CKBytes between balances and sub-channels |
| `Lifecycle.StepConserves` | transaction/handler.go:131-397 | each accepted transaction keeps what is locked in step with the funded flag, or pays it all out |
| `Lifecycle.RunConserves` | transaction/handler.go:131-795 | over every run of open, fund, disputes and any close or abort, SUDTs paid and left in sub-channels are SUDTs locked, and CKBytes paid, left and dust are CKBytes locked plus channel capacity and refunds |
| `Lifecycle.PaidInFull` | client/ckbclient.go:702-750 | whatever the run, a closed channel has paid out all of its SUDTs and CKBytes, dust aside, if and only if the settled state leaves nothing in sub-channels |
| `Lifecycle.LeavesSubChannel` | channel/adjudicator/adjudicator.go:60-77 | that happens: opening and force closing with any amount in a sub-channel leaves just this amount to the submitter |
| `Lifecycle.FundsOfRun` | transaction/handler.go:131-436 | while a channel is funded its funds cells hold what any state with its sums has in balances and sub-channels, and the capacity of the SUDT cells |
| `Lifecycle.RunIsOnChain` | transaction/handler.go:131-553 | over every run of open, fund and disputes, the channel cell drafted last holds the status the run has led to, that status holds the run's state, and all funds cells are locked for the channel |
| `Submission.NetIsSurplusMinusFee` | transaction/transaction.go:497-561 | for any draft, the submitter's cells gain exactly the draft's surplus (or deficit) minus the fee |
| `Submission.SubmitClose` | client/ckbclient.go:625-666 | from draft to balanced transaction: the parties get the settlement, everything else goes to the submitter, whose net gain is dust plus whatever the funds cells hold above what is owed, minus fee; each SUDT whose funds cover what is owed balances as read |
| `Submission.NoExcessIfCovered` | transaction/transaction.go:512-552 | inputs that cover a UDT leave no excess of it, on the early exit or without |
| `Submission.LowHalf` | transaction/transaction.go:460-465 | the 8-byte read of an SUDT cell is its 16-byte amount modulo 2^64, and the amount itself if and only if it is below 2^64 |
| `Submission.SudtNet` | transaction/transaction.go:497-561 | in full 16-byte amounts below 2^64, what the submitter gains of an SUDT is exactly what the draft's inputs hold above its outputs |
| `Submission.HighHalfIsLost` | transaction/transaction.go:434-475 | a cell of 2^64 units spent for nothing looks balanced |
| `Submission.FundsInAnyOrder` | client/ckbclient.go:669-697 | funds cells listed in any order, as by the client newest first, hold what the channel has locked |
| `Submission.CloseAfterRun` | client/ckbclient.go:625-750 | after any run of open, fund and disputes, and for funds cells in any order, a close gives its submitter exactly the dust and what the settled state has moved into sub-channels, minus the fee; SUDTs come up short by just what is locked |
| `Submission.SecondForceCloseNet` | transaction/handler.go:701-795 | the submitter of a second force close gets its minimum CKB input back, gains the dust and what the funds cells hold above both channels' balances, and pays the fee, and the rent once more if both parties are refunded |
| `Submission.AbortAfterRun` | client/ckbclient.go:850-889 | after any run that leaves the channel unfunded, an abort returns all SUDTs and gives its submitter exactly the dust, minus the fee |
| `Submission.FirstForceCloseAfterRun` | transaction/handler.go:616-699 | after any run, the submitter of a first force close gains the dust and what neither channel pays out, less the fee and what the flagged virtual channel cell has grown by; SUDTs come up short by just what is left |
| `Submission.SecondForceCloseAfterRun` | transaction/handler.go:701-795 | after any run, the submitter of a second force close gets its minimum CKB input back and gains the dust and what neither channel pays out, less the fee, and less the rent once more if both parties are refunded |
| `Submission.ChooseStates` | client/ckbclient.go:806-817 | a force close settles its own two states if they are ahead in the product order, else takes both balances from the ledger; no version is below the ledger's |
| `Submission.BehindInOneIsBehind` | client/ckbclient.go:806-817 | a client behind in the virtual channel settles the ledger's parent balances though its own parent state is newer |
| `VcRent.MergeRefunds` | transaction/handler.go:583-612 | of any two live cells, a merge keeps the older one as it is, the second one read if equally old, and returns the other one's capacity to its owner's default lock; it fails exactly if that cannot be restored |
| `VcRent.MergeKeepsNewest` | transaction/handler.go:592-602 | for any two of the live cells, the newer state survives a merge if and only if the kept cell has it: the older one, or the second one read of equals |
| `VcRent.MergeForgets` | transaction/handler.go:592-602 | two first disputes, the second with any newer state, and a merge lose that state |
| `VcRent.RewritesMean` | transaction/vcdisputeinfo.go:118-127 | progress writes the announced state and a first force close the flag; nothing else of the cell and no other cell changes |
| `VcRent.CloseMeans` | transaction/handler.go:739-794 | a second force close needs a flagged cell and an owner whose lock can be restored; it spends just that cell and refunds its whole capacity |
| `VcRent.RunKeepsRent` | transaction/handler.go:438-795 | over every run with any number of live cells and for every owner: rent that is live, has come back to the lock that paid it or has strayed to another is what the owner paid in, submitters topped up and submitters paid for double refunds; the recorded owner is whoever paid, through progress, merge and first force close |
| `VcRent.RentReturnsToDefaultLocks` | client/ckbclient.go:520-527 | over every run, refunds go to the lock that paid the rent if and only if it is the default lock of the owner's key; otherwise none of it returns |
| `VcRent.RentStrays` | wallet/address/address.go:270-284 | an owner with any other lock loses the whole rent to the default one |
| `VcRent.OnlyOwnersPay` | transaction/vcdisputeinfo.go:118-127 | if updates keep the size of the status, every payment for rent is made by the owner's recorded lock |
| `VcRent.RefundedOnce` | transaction/handler.go:739-794 | the second force close pays the rent exactly once, unless both parties are paid to the owner's lock, and then twice |
| `VcRent.RefundsAreDrafted` | transaction/handler.go:739-794 | lock by lock, the refunds booked in a run are what the draft adds to the parties' balances or as a cell of its own |
| `VcRent.SecondForceClosePays` | transaction/handler.go:701-795 | lock by lock, the outputs of a second force close carry what the parties of that lock are owed from both channels and the refunds booked for it, but for their dust |
| `VcRent.FirstForceCloseConserves` | transaction/handler.go:650-698 | its outputs are both channels' balances and the channel capacity, but for the dust, and last the flagged virtual channel cell |
| `VcRent.SecondForceCloseConserves` | transaction/handler.go:739-794 | its outputs are both channels' balances, the channel capacity and the refunds, but for the dust |
| `Disputes.CheckIsStrictOrder` | client/ckbclient.go:1172-1198 | the check is exactly the strict product order of versions, and the strict order of parents without a virtual channel |
| `Disputes.ChainsAreShort` | client/ckbclient.go:1172-1198 | a chain of accepted updates never leads back and is no longer than the sum of the version differences |
| `Disputes.Ladder` | client/ckbclient.go:1172-1198 | chains of that length exist between any two ordered pairs |
| `Disputes.StaysConsistent` | client/ckbclient.go:357-405 | what a client read under an id that is still live is what is live |
| `Disputes.StepGrows` | client/ckbclient.go:386-404 | an accepted plain dispute strictly raises the version of the live cell |
| `Disputes.AcceptedMeans` | client/ckbclient.go:386-404 | an accepted fund or dispute consumed the cell the client read and leaves exactly the announced state and flags |
| `Disputes.AcceptedExactly` | client/ckbclient.go:357-848 | each transaction is accepted if and only if all it spends is as its client read it and its versions are ahead |
| `Disputes.VcAcceptedMeans` | client/ckbclient.go:503-848 | what each accepted transaction leaves of the virtual channel cells, cell by cell: added, replaced with the announced state, merged into the older one, flagged or gone |
| `Disputes.ReadsShowWhatIsLive` | client/ckbclient.go:1107-1169 | a read shows the client the live channel cell, or the virtual channel cells it asked for |
| `Disputes.RunGrows` | client/ckbclient.go:357-623 | over all interleavings versions never decrease, Funded, Disputed and VcDisputed are never reset, and a funded channel changes only by disputes |
| `Disputes.VcDescends` | transaction/vcdisputeinfo.go:118-127 | a rewritten virtual channel cell keeps owner, parents and force close flag, and its version unless it comes from a merge |
| `Disputes.ProgressIsStrict` | client/ckbclient.go:577-609 | an accepted progress was built for the live cells and leaves live cells with the announced states, whose version pair is strictly greater |
| `Subscription.PollingSubscription.EmitEventIfNecessary` | channel/adjudicator/adjudicator_sub.go:128-201 | one poll changes the subscription's fields exactly as the step function says |
| `Subscription.PollingSubscription.Run` | channel/adjudicator/adjudicator_sub.go:79-111 | the loop closes the event channel exactly once, having emitted the events of the polls, with an error at most for a fatal one |
| `Subscription.TraceShape` | channel/adjudicator/adjudicator_sub.go:79-201 | every trace is Registered events and then one Concluded if and only if it finished by itself |
| `Subscription.MissesAreCounted` | channel/adjudicator/adjudicator_sub.go:135-157 | the miss counter is the number of trailing misses among the polls that count; RPC errors neither count nor reset |
| `Subscription.ConcludedAfterThreeMisses` | channel/adjudicator/adjudicator_sub.go:143-155 | Concluded is emitted if and only if, after some hit, the third miss in a row arrives |
| `Subscription.ReportsChanges` | channel/adjudicator/adjudicator_sub.go:159-200 | what has been reported is exactly every change seen of a funded channel, with the version just found |
| `Subscription.FailsExactly` | channel/adjudicator/adjudicator_sub.go:128-201 | a running subscription fails if and only if it finds a nil status, a change of a funded channel that is no dispute, or a dispute without a deadline, each with its own error |
| `Subscription.DisputeGoesUnreported` | channel/adjudicator/adjudicator_sub.go:159-173 | a dispute found second is not reported if and only if it was found first as well or the channel was unfunded then |
| `Subscription.HitsAreOrdered` | channel/adjudicator/adjudicator_sub.go:113-123 | statuses sampled from any run of the ledger follow its order |
| `Subscription.NeverUndisputed` | channel/adjudicator/adjudicator_sub.go:174-181 | against any run of the ledger the fatal undisputed-update branch is never taken and reported versions never decrease |
| `Funding.StaysSafe` | channel/funder/funder.go:43-98 | each step of either party keeps the safety invariant |
| `Funding.RaceIsSafe` | channel/funder/funder.go:43-98 | in every interleaving, with transactions committed late, unnoticed or never, at most one of Abort and Fund consumes the unfunded cell, once, and funds of B are never in a channel that A aborts |
| `Funding.SuccessMeansFunded` | channel/funder/funder.go:48-70 | A's success means a funded channel if and only if A saw it funded; otherwise its abort went through |
| `Funding.AbortedSuccess` | channel/funder/funder.go:70 | A can return success from a channel it has aborted |
| `Funding.CancelledNeverSucceeds` | channel/funder/funder.go:51-59 | a cancelled party A never reports success |
| `Funding.FundedStaysFunded` | channel/funder/funder.go:73-98 | once B has succeeded the channel has been funded and is never aborted |
| `Funding.OnlyCheckedIsFunded` | channel/funder/funder.go:73-98 | over every run B goes on with a channel, sends funds or succeeds only after a live channel it found has passed the integrity check |
| `Funding.UncheckedIsNeverFunded` | channel/funder/funder.go:87-90 | after a failed check B has returned an error and never sends anything, however the run goes on |
| `Funding.FirstFindDecides` | channel/funder/funder.go:80-97 | the first live channel B finds decides: error if the check fails, success if it is funded, else B funds it |
| `Funding.BothSucceed` | channel/funder/funder.go:43-98 | for any number of polls there is a run in which both parties succeed and the channel is funded |
| `Funding.LedgerMeans` | client/ckbclient.go:905-941 | a transaction sent is committed if and only if the very cell it spends is live and unfunded; opening, aborting and funding then do just that to the channel cell |
| `Funding.FundingAfterAnError` | client/ckbclient.go:905-941 | after B has returned an error, its funds are or may still be locked if and only if its transaction was committed or waits in the pool for a live, unfunded cell |
| `Funding.FundedInSpiteOfError` | client/ckbclient.go:905-941 | that happens: B gives up waiting and funds the channel nevertheless |
| `Funding.AbortAfterReturn` | client/ckbclient.go:905-941 | after A has returned, the channel is or may still be aborted if and only if its abort was committed or waits in the pool for a live, unfunded cell |
| `Funding.AbortedInSpiteOfError` | client/ckbclient.go:905-941 | that happens: A returns an error from a live channel, which is aborted afterwards |
| `Funding.PollsAreBounded` | channel/funder/funder.go:48-70 | A polls at most MaxIterationsUntilAbort times, exactly that often before it gives up for want of a partner, and less often if cancelled |
| `ScriptCaching.ScriptCache.Set` | client/script_cache.go:42-54 | write-once: succeeds if and only if the id is then bound to this script; no binding changes |
| `ScriptCaching.StepAgrees` | client/ckbclient.go:1107-1135 | a step of any lookup keeps every returned script equal to the cached one |
| `ScriptCaching.CacheIsStable` | client/ckbclient.go:1107-1135 | over every interleaving cached scripts are never replaced and a refused lookup retries at most once |
| `ScriptCaching.LookupsAgree` | client/ckbclient.go:1107-1135 | any two successful lookups of one id return the same type script |
| `ScriptCaching.ExactReturns` | client/ckbclient.go:1107-1120 | an exact lookup returns the cached script if and only if a live cell with it was found |
| `ScriptCaching.LookupMeans` | client/ckbclient.go:1107-1135 | a lookup asks for the cached script if there is one and scans otherwise; what it finds is returned if it can be cached, else it starts again |
| `ScriptCaching.ReturnsWhatWasFound` | client/ckbclient.go:1107-1135 | over every interleaving a lookup returns a script only after finding a live cell, and fails only after finding none |

## Left out

- RPC calls, retries, signing, logging and block times: outcomes of steps, or parameters.
- Witness contents, cell deps and header deps: only the number of witnesses is modelled. Script handlers called while
  processing inputs and outputs add witnesses and deps only.
- UDT cells with fewer than 8 bytes of data make the builder panic; the model reads 0.
- Script group indices are unbounded; Go truncates them to 32 bits.
- Panics are errors here: NilCell for a nil cell from an iterator, IndexOutOfRange for an index map out of range.
- Iterators are sequences of cells held by the builder, one for each asset; two assets sharing one iterator object is not
  modelled. Script groups are values in a sequence, not pointers shared with callers.
- `prepareMinCKBInput` (transaction/transaction.go:944-955): the extra CKB input of a second force close is a parameter.
- Molecule, ABI and Keccak encodings: packed rows and statuses are structured values, and only 16-byte amounts are bytes.
- An owner whose public key cannot be packed when a first virtual channel dispute is built.
- ETH assets are ids; parsing their addresses is left out.
- `OpenInfo` caching the channel type script, channel constants and `verifyChannelIntegrity`: parameters of the steps.
- An indexer that returns a cell already spent: polls may miss a live cell but do not see an old one.
- A slow consumer of the event channel, which blocks the subscription when three events are waiting.
- The order of the two parents of a virtual channel and their index maps (client/ckbclient.go:468-501).
- Settlement.SettlementConserves: for two parties, as all packed states are.
- ScriptHandlers.PerunScriptHandler.BuildClose: on an error it does not say which outputs were added before it.
- Lifecycle.RunConserves: both force closes with a virtual channel are one event that pays the parties, for a virtual
  channel backed by what the parent has locked; the virtual channel cell itself is accounted for in `VcRent`.
- Submission.SudtNet: for amounts and sums below 2^64; `Submission.HighHalfIsLost` shows why.
- Funding.RaceIsSafe: the loops of both parties are steps of a state machine, not methods.
- Clients for other chains, wallets, deployment files, the command line and test helpers.
