# NFT finance contracts: a verified model

A Dafny 4.11 model of the CosmWasm contracts of this repository that keep other people's
assets, with proofs over all their runs. `dafny verify dfyconfig.toml` checks everything.

Each message of a contract is an atomic step over stored maps. The wallets of the chain are a
ledger on the side (`Ledger.dfy`): a transfer happens in full or fails, and a transaction that
fails anywhere, in the handler or in a transfer it orders, leaves no trace. For each contract
there is

- a step relation written as functions (`P2PSpec`, `Loans`, `Raffles`, `FeeDistributor`,
  `Lender`), the yardstick for everything else;
- the contract as it runs (`P2PContract`, `LoansContract`, `RafflesContract`,
  `FeeDistributorContract`, `LenderContract`): classes whose fields are the storage maps, with
  the loops and the write order of the source, every handler proved to make exactly the step;
- theorems about the step relation, over every message and every run.

**P2P trading** (`P2P*.dfy`). Trades and counter-trades carry lists of coins, cw20 and cw1155
tokens and NFTs. A counter's state is derived from its trade on each load. Proved: that this
laziness cannot be told from rewriting all counters at once (`P2PEager`); that the contract
holds exactly what its unwithdrawn lists record throughout a run if and only if each message
meets a condition that is checked before it (`P2PCustody`, on the books of `P2PBooks`); that
each list is paid once, whole, to the side it is due to, and that settlement swaps what was
stored at acceptance (`P2PSettlement`); that nothing gets stuck, and exactly which accepted list
does (`P2PNoStuck`); that removal by position is a subtraction of bags, and exactly when
(`P2PRemoval`); who may change which record (`P2PAuthority`); the protocol itself, message by
message, as a table of parties, displayed states and effects (`P2PProtocol`); that a whitelist
keeps everybody else out over every run (`P2PWhitelist`); and the structure that makes the
internal-error branches unreachable (`P2PInvariant`).

**NFT loans** (`Loans*.dfy`). Lenders' money is held from the offer on, collateral only while a
loan runs; an open offer on a loan no longer published reads as refused. Proved: escrow equals
records throughout a run if and only if the run is orderly, repayment is neutral to the unit,
one way out of a loan is open at each block and delivers the collateral to the last asset, every
deposit leaves exactly once and is never stranded; every offer was paid for in full on the terms
it has, and who may send what and when (`LoansProtocol`).

**Raffles** (`Raffles*.dfy`). A ticket book with two indexes, a state derived from block time, a
drawn winner and a three-way payout. Proved: the indexes agree and the caps hold; once a ticket
is sold the raffle only moves forward and its outcome freezes; a raffle is claimed at most once
and, when finished, always can be, out of what the contract holds, with every wallet afterwards
accounted for; escrow equals records throughout a run if and only if each message meets a condition
that is checked before it; the last round accepted decides the winner and its sender is the one
rewarded (`RafflesDraw`); and who may send what and when (`RafflesProtocol`).

**Fee distributor** (`FeeDistributor*.dfy`): balances equal the sum of accounts; deposits are
split to the unit, with bounded dust to the treasury, and every linked account can be paid out,
to the unit, by one message of anybody's, at the address the administrator named
(`FeeDistributorAuthority`). **Lender** (`Lender*.dfy`): splitting a repayment never costs the
borrower, the message that raises a rate never changes a record, and nobody but its borrower gets
the collateral of a loan not in default (`LenderDefault`).
**Decimals** and **vault** (`Decimals.dfy`, `Vault.dfy`): printing and parsing are inverse on all
256-bit values, the strings that parse are exactly characterised, and all holders' claims are
covered.

`Base.dfy`, `Ledger.dfy` and `Nfts.dfy` hold what several contracts share: sums over maps, the
wallets, and the taking and giving back of NFTs and multi-tokens.

Where a promise does not hold of every run, the exact condition is part of a theorem, and a run
from instantiation (`*Witness.dfy`) shows the failure to be within reach:

- A stored coin accepts a removal request of any other kind (trade.rs:322-337, unlike the other
  arms), and sends what is asked without taking it off a list. The transfers ordered balance
  with the records if and only if coin positions are asked in kind and NFT positions once
  (`P2PBooks.BooksBalanceIffOrderly`); the holdings stay equal to the records if and only if
  whatever else is asked at a coin position is of amount nought, or an NFT that the contract
  does not own or that the same message takes off the same list (`P2PCustody.CustodyIff`,
  `P2PWitness.CoinPositionReleases`, `P2PWitness.NftLeavesListStays`).
- Coins sent with a message that does not announce them belong to no record: no contract keeps
  holdings equal to records then (the `CustodyIff` of `P2PCustody`, `LoansEscrow` and
  `RafflesEscrow`, `FeeDistributorBooks.BalancedIff`; `P2PWitness.StrayCoinUnrecorded`,
  `LoansWitness.StrayCoinKept`, `RafflesWitness.StrayCoinKept`, `FeeDistributorBooks.StrayCoinKept`).
- A second listing of an NFT the trading contract already owns is recorded though there is only
  one NFT; a loan or raffle listing one NFT twice likewise (the same `CustodyIff`,
  `P2PWitness.NftListedTwice`, `LoansWitness.NftPledgedTwice`, `RafflesWitness.NftRaffledTwice`).
- An accepted trade whose counter is its owner's own is answered with the counter's list first,
  so its own list is never paid (`P2PNoStuck.AcceptedListPayableIff`, `P2PWitness.OwnCounterStrands`).
- A loan whose start plus duration is not a 64-bit number can be neither repaid nor defaulted,
  whatever is sent (`LoansCollateral.EndlessForever`, `LoansWitness.LoanWithoutEnd`); a sold raffle
  whose end is not a 64-bit timestamp never gets a winner (`RafflesEscrow.UncountableForever`,
  `RafflesWitness.RaffleWithoutEnd`).
- The direct cw20 branch of a ticket purchase orders a transfer from the contract to itself;
  tickets bought there are unpaid (`RafflesEscrow.CustodyIff`, `RafflesWitness.DirectCw20Unpaid`).
- A claimed raffle without tickets can be modified, and reads as open again if its new end is not
  past. Cancelling it then sends its assets a second time, and tickets bought in it are paid for
  and belong to no record (`RafflesEscrow.CustodyIff`, `RafflesEscrow.ModifyKeepsClaimedIff`,
  `RafflesWitness.ReopenedPaysAgain`, `RafflesWitness.ReopenedSellsUntracked`); without such a
  modification neither can happen (`RafflesEscrow.ClosedRunsAreOrderly`).
- Borrowing more on a loan of the lender overwrites the interest accrued so far, and loses
  nothing if and only if there was none (`LenderInterest.BorrowingMoreDropsInterest`,
  `LenderWitness.InterestDropped`).

Where code and comments differ the model follows the code: the comment at math.rs:76-82 rules
out an empty string and a missing whole part, while the parser reads both
(`Decimals.EmptyPartsParse`).

Wallet assumptions: a cw721 contract looks up the current owner itself; a wallet other than the
contract's own is debited only if its owner approved, which each transaction leaves open
(`allow`); no contract lives at the empty address. "Orderly" runs are named predicates; they
exclude the messages above, and the contract being its own counterparty.

Every lemma carries `{:induction false}`: no proof rests on automatic induction.

## Model

| member | source | states |
|---|---|---|
| `P2PAssets.DepositTotal` | contracts/p2p-trading/src/state.rs:20-148 | a deposit raises the list's total of its own asset by its amount and no other total |
| `P2PAssets.DepositKeepsUnique` | contracts/p2p-trading/src/state.rs:20-148 | deposits never list a fungible asset twice |
| `P2PRemoval.RemovalIsBagSubtraction` | contracts/p2p-trading/src/trade.rs:309-521 | an accepted removal never takes more off the list than it sends; old totals equal new totals plus what is sent, asset by asset, if and only if coin positions are asked in kind and no NFT position is named twice |
| `P2PRemoval.MismatchLosesAssets` | contracts/p2p-trading/src/trade.rs:322-337 | the concrete request at a coin position for which the subtraction fails: the list is unchanged and another asset is sent |
| `P2PRemoval.NftTakenOff` | contracts/p2p-trading/src/trade.rs:399-453 | a removal takes an NFT off the list exactly if a request names a position that holds it |
| `P2PRemoval.RemovalAccepts` | contracts/p2p-trading/src/trade.rs:309-453 | a removal is accepted exactly when each request names a position and the asset there, or at a coin anything but a coin, and per fungible position the amounts asked together are there |
| `P2PRemoval.RemovalRefused` | contracts/p2p-trading/src/trade.rs:309-396 | why a removal is refused: the first request naming no position or not what is there, or more than is there; or all together asking more |
| `P2PRemoval.RemovalKeepsOrder` | contracts/p2p-trading/src/trade.rs:399-453 | entries not named, and not empty, survive in their order |
| `P2PRemoval.RemovalKeepsForm` | contracts/p2p-trading/src/trade.rs:399-453 | a removal keeps lists free of repeated fungible assets and of the deletion mark |
| `P2PContract.FindExisting` | contracts/p2p-trading/src/state.rs:20-56 | the search loop finds the first entry of the same key |
| `P2PContract.AddAssetToInfo` | contracts/p2p-trading/src/state.rs:20-148 | a coin deposit needs exactly the announced coin; NFTs are appended, fungible assets merged |
| `P2PContract.AreAssetsInTrade` | contracts/p2p-trading/src/trade.rs:309-396 | the checking loop accepts or rejects as the per-request check does, first failure first |
| `P2PContract.TryWithdrawAssetsUnsafe` | contracts/p2p-trading/src/trade.rs:399-453 | the loop that overwrites positions in place, then drops emptied entries, computes the specified list |
| `P2PContract.RetainNonEmpty` | contracts/p2p-trading/src/trade.rs:440-452 | the filter keeps exactly the entries with an amount or an unmarked address, in order |
| `P2PContract.CreateWithdrawMessagesUnsafe` | contracts/p2p-trading/src/trade.rs:459-521 | one transfer per entry, to the recipient, in order |
| `P2PContract.CheckAndCreateWithdrawMessages` | contracts/p2p-trading/src/trade.rs:524-537 | a list already withdrawn is refused, any other is sent whole |
| `P2PContract.Contract.LoadCounterTrade` | contracts/p2p-trading/src/state.rs:201-232 | a loaded counter shows the state its trade implies |
| `P2PContract.Contract.CreateTrade` | contracts/p2p-trading/src/trade.rs:37-93 | stores a fresh trade under the next id, whitelist and comment included |
| `P2PContract.Contract.AddWhitelistedUsers` | contracts/p2p-trading/src/trade.rs:548-579 | adds users to a trade still being created, for its owner only |
| `P2PContract.Contract.RemoveWhitelistedUsers` | contracts/p2p-trading/src/trade.rs:582-605 | removes users from a trade still being created, for its owner only |
| `P2PContract.Contract.AddAssetToTrade` | contracts/p2p-trading/src/trade.rs:207-242 | merges a deposit into a created trade and pulls it from the sender |
| `P2PContract.Contract.WithdrawTradeAssetsWhileCreating` | contracts/p2p-trading/src/trade.rs:250-306 | takes the asked assets off a created trade and sends what was asked |
| `P2PContract.Contract.ConfirmTrade` | contracts/p2p-trading/src/trade.rs:845-871 | only a created trade is published, only by its owner |
| `P2PContract.Contract.AcceptTrade` | contracts/p2p-trading/src/trade.rs:874-924 | writes trade and chosen counter, and no other counter |
| `P2PContract.Contract.RefuseCounterTrade` | contracts/p2p-trading/src/trade.rs:928-955 | refuses a counter of a trade neither accepted nor cancelled |
| `P2PContract.Contract.CancelTrade` | contracts/p2p-trading/src/trade.rs:959-984 | cancels any trade not accepted, writing the trade alone |
| `P2PContract.Contract.WithdrawAllFromTrade` | contracts/p2p-trading/src/trade.rs:988-1015 | empties a created or cancelled trade once, to its owner |
| `P2PContract.Contract.SuggestCounterTrade` | contracts/p2p-trading/src/counter_trade.rs:32-89 | numbers the counter and turns a published trade into a countered one |
| `P2PContract.Contract.AddAssetToCounterTrade` | contracts/p2p-trading/src/counter_trade.rs:124-167 | merges a deposit into a created counter and pulls it from the sender |
| `P2PContract.Contract.WithdrawCounterTradeAssetsWhileCreating` | contracts/p2p-trading/src/counter_trade.rs:170-226 | takes the asked assets off a created counter and sends what was asked |
| `P2PContract.Contract.ConfirmCounterTrade` | contracts/p2p-trading/src/counter_trade.rs:229-260 | only a counter that reads as created is published |
| `P2PContract.Contract.CancelCounterTrade` | contracts/p2p-trading/src/counter_trade.rs:264-295 | cancels any counter that does not read as accepted |
| `P2PContract.Contract.WithdrawAllFromCounter` | contracts/p2p-trading/src/counter_trade.rs:299-333 | empties a counter that reads as created, refused or cancelled, once, to its owner |
| `P2PContract.Contract.ReviewCounterTrade` | contracts/p2p-trading/src/messages.rs:11-56 | sends a published counter back to created |
| `P2PContract.Contract.SetComment` | contracts/p2p-trading/src/messages.rs:58-89 | saves the comment together with the derived state |
| `P2PContract.Contract.WithdrawAcceptedFunds` | contracts/p2p-trading/src/contract.rs:348-401 | the fee contract pays each side the other side's list, once |
| `P2PContract.Contract.SetNewOwner` | contracts/p2p-trading/src/contract.rs:265-281 | only the administrator hands over |
| `P2PContract.Contract.SetNewFeeContract` | contracts/p2p-trading/src/contract.rs:285-301 | only the administrator names the fee contract |
| `P2PContract.Contract.Dispatch` | contracts/p2p-trading/src/contract.rs:66-207 | every message is answered, and changes the stored maps, exactly as the step relation says |
| `P2PContract.Contract.Execute` | contracts/p2p-trading/src/contract.rs:66-207 | as Dispatch, and a failed message leaves the store as it was |
| `P2PInvariant.StepInv` | contracts/p2p-trading/src/trade.rs:37-67 | every message keeps ids dense, created and published trades without counters, no trade refused, and accepted trade and counter naming each other |
| `P2PInvariant.RunInv` | contracts/p2p-trading/src/contract.rs:66-207 | that structure holds after every run |
| `P2PInvariant.NeverABug` | contracts/p2p-trading/src/contract.rs:358-370 | in every reachable state no message fails with ContractBug, an Exists error or a broken reference; a standard error only answers a coin deposit whose coins are not the ones announced |
| `P2PInvariant.CreatedTrade` | contracts/p2p-trading/src/trade.rs:37-93 | what creating a trade comes to in one update, comment and whitelist included |
| `P2PInvariant.Suggested` | contracts/p2p-trading/src/counter_trade.rs:32-89 | what suggesting a counter comes to in one update |
| `P2PProtocol.OwnerAcceptsIff` | contracts/p2p-trading/src/trade.rs:96-133 | an owner's message (deposit, removal, whitelist, comment, publishing, cancelling, emptying; of a trade or a counter) is accepted if and only if the record is the sender's, shows one of the states listed for it, and what it names is there |
| `P2PProtocol.OwnerEffect` | contracts/p2p-trading/src/trade.rs:207-306 | it then writes that one record, in the fields and to the displayed state listed, and orders exactly what it names |
| `P2PProtocol.OwnerRefused` | contracts/p2p-trading/src/state.rs:172-199 | what is answered if there is no such record, it is not the sender's, it shows the wrong state, or what is named does not fit, in this order |
| `P2PProtocol.TraderAcceptsIff` | contracts/p2p-trading/src/trade.rs:874-955 | accepting, refusing and reviewing a counter are the trade owner's, exactly at the displayed states listed |
| `P2PProtocol.TraderRefused` | contracts/p2p-trading/src/trade.rs:874-955 | why they are refused: no such trade, not the sender's, no such counter, or the state of either |
| `P2PProtocol.TraderEffect` | contracts/p2p-trading/src/messages.rs:11-56 | accepting shows the chosen counter accepted and every other of the trade refused; refusing and reviewing change the one counter |
| `P2PProtocol.SettlementAcceptsIff` | contracts/p2p-trading/src/contract.rs:348-401 | only the fee contract settles, an accepted trade, paying one of its two parties a list not paid before |
| `P2PProtocol.SettlementRefused` | contracts/p2p-trading/src/contract.rs:348-401 | why a settlement is refused: not the fee contract, no such trade, not accepted, paid before, or neither party |
| `P2PProtocol.SettlementEffect` | contracts/p2p-trading/src/contract.rs:375-401 | it marks that list and sends the whole of it, the counter's to the trade's owner and the trade's to the counter's |
| `P2PProtocol.AdministrationIs` | contracts/p2p-trading/src/contract.rs:265-301 | administrator and fee contract are named by the administrator alone |
| `P2PWhitelist.SuggestAcceptsIff` | contracts/p2p-trading/src/state.rs:240-259 | a suggestion on a stored trade is accepted if and only if the trade is published or countered and its whitelist is empty or names the sender; each refusal says which |
| `P2PWhitelist.SuggestEffect` | contracts/p2p-trading/src/counter_trade.rs:32-89 | it stores an empty counter of the sender's under the trade's next number |
| `P2PWhitelist.CreateEffect` | contracts/p2p-trading/src/trade.rs:37-93 | creating is always accepted and stores an empty trade of the sender's, open to those listed, under the next number |
| `P2PWhitelist.WhitelistKeepsOut` | contracts/p2p-trading/src/state.rs:240-259 | from instantiation, after every run, each counter of a trade with a whitelist belongs to a user on it |
| `P2PWhitelist.WhitelistStays` | contracts/p2p-trading/src/trade.rs:548-605 | over every run the whitelist of a trade no longer being created stays |
| `P2PWhitelist.LastIsGreatest` | contracts/p2p-trading/src/trade.rs:111-123 | from instantiation, after every run, a message naming no number goes to the sender's trade, or counter in the trade, of the greatest number, and finds one exactly if there is any |
| `P2PEager.SameLoad` | contracts/p2p-trading/src/state.rs:201-232 | a lazy load shows what the eager store holds, aborted states identified |
| `P2PEager.StepAlike` | contracts/p2p-trading/src/trade.rs:874-984 | each message succeeds or fails alike in both systems, sends the same transfers, and keeps them similar |
| `P2PEager.LazyIsEagerFrom` | contracts/p2p-trading/src/counter_trade.rs:264-333 | from similar states every run has the same outcomes, transfer by transfer |
| `P2PEager.LazyIsEager` | contracts/p2p-trading/src/state.rs:201-232 | from instantiation, deriving counter states on load is indistinguishable from rewriting all counters at acceptance or cancellation |
| `P2PBooks.StepBooks` | contracts/p2p-trading/src/trade.rs:207-306 | recorded after + sent + stray coins = recorded before + received + leaked, for every message and asset |
| `P2PBooks.BooksBalanceIffOrderly` | contracts/p2p-trading/src/trade.rs:309-396 | the transfers a message orders match what it does to the records, for every asset, if and only if coins come only with a deposit announcing them and removals ask coins in kind and NFT positions once |
| `P2PCustody.CustodyIff` | contracts/p2p-trading/src/trade.rs:309-453 | in any state whose holdings equal the records, a message keeps them equal if and only if it brings no coin unasked, deposits no NFT already owned, and asks coin positions only for coins, for nothing, or for NFTs the contract does not own or takes off the same list |
| `P2PCustody.CustodyStep` | contracts/p2p-trading/src/contract.rs:66-207 | such a transaction, or one that fails, keeps holdings equal to the records and the structure they rest on |
| `P2PCustody.ThroughoutIffOrderly` | contracts/p2p-trading/src/contract.rs:66-207 | custody holds at every point of a run if and only if each message meets that condition in the state it finds |
| `P2PCustody.RecordsRun` | contracts/p2p-trading/src/contract.rs:66-207 | over every run of outsiders, orderly or not, lists name real contracts only and no record is the contract's own |
| `P2PCustody.CustodyAlways` | contracts/p2p-trading/src/trade.rs:399-537 | from instantiation, after every run whose messages meet that condition, the contract holds of each coin, token and NFT exactly the total of its lists not yet withdrawn |
| `P2PCustody.NftDepositIffFresh` | contracts/p2p-trading/src/state.rs:93-108 | depositing an NFT keeps custody if and only if the contract did not own it yet |
| `P2PSettlement.StepMoves` | contracts/p2p-trading/src/trade.rs:874-984 | a message never changes an owner, a closed list, or a final state |
| `P2PSettlement.RunMoves` | contracts/p2p-trading/src/counter_trade.rs:264-333 | neither does any run |
| `P2PSettlement.StepPays` | contracts/p2p-trading/src/trade.rs:988-1015 | a message pays at most one whole list, to the side it is due to, and marks exactly that list withdrawn |
| `P2PSettlement.PaidAtMostOnce` | contracts/p2p-trading/src/trade.rs:524-537 | in any run each list is paid at most once, exactly when it is marked |
| `P2PSettlement.PayoutsRight` | contracts/p2p-trading/src/contract.rs:348-401 | every payout of a run went to the owner of an aborted list or across an accepted trade, and was the whole list |
| `P2PSettlement.SettlementSwapsWhatWasAgreed` | contracts/p2p-trading/src/trade.rs:874-924 | after an acceptance every payout of either list is that list as stored then, sent to the other side |
| `P2PAuthority.StepAuthorised` | contracts/p2p-trading/src/state.rs:150-199 | every change of a record is its owner's, or the other side's accepting, refusing, reviewing or countering and nothing more, or the fee contract's settling |
| `P2PAuthority.ListsChangeByOwner` | contracts/p2p-trading/src/trade.rs:96-133 | a list changes only at its owner's hands |
| `P2PNoStuck.RescueTradeWorks` | contracts/p2p-trading/src/trade.rs:959-1015 | an unpaid trade list is emptied by at most two messages, none of which fails |
| `P2PNoStuck.RescueCounterWorks` | contracts/p2p-trading/src/counter_trade.rs:264-333 | an unpaid counter list is emptied by at most two messages, none of which fails |
| `P2PNoStuck.NothingIsStuck` | contracts/p2p-trading/src/contract.rs:348-401 | after any run whose messages each keep custody some continuation of at most two messages per unpaid list leaves the contract holding nothing |
| `P2PNoStuck.SelfDealtIsStuck` | contracts/p2p-trading/src/contract.rs:375-393 | the list of a trade that accepted its own owner's counter is never paid, whatever follows |
| `P2PNoStuck.AcceptedListPayableIff` | contracts/p2p-trading/src/contract.rs:375-393 | an accepted trade's unpaid list can still be paid if and only if the counter is somebody else's |
| `P2PWitness.OwnCounterStrands` | contracts/p2p-trading/src/contract.rs:375-393 | six messages of one sender from instantiation reach a trade that accepted its owner's own counter, and no continuation pays the coin it lists |
| `P2PWitness.NftListedTwice` | contracts/p2p-trading/src/state.rs:93-108 | create and two deposits of one NFT: recorded twice, owned once |
| `P2PWitness.CoinPositionReleases` | contracts/p2p-trading/src/trade.rs:309-337 | in any state that outsiders' messages reach, the owner of a created trade with a coin position can have any cw20, cw1155 or cw721 the contract holds sent to them, up to what it holds, and no list changes its totals |
| `P2PWitness.NftLeavesListStays` | contracts/p2p-trading/src/trade.rs:322-337 | a run of two parties in which a removal names the other's NFT at a coin's position: the NFT leaves, its list stays, and holdings no longer equal the records |
| `P2PWitness.StrayCoinUnrecorded` | contracts/p2p-trading/src/contract.rs:66-207 | a coin sent along with the creation of a trade is held and recorded nowhere |
| `Nfts.PullAll` | contracts/nft-loans-non-custodial/src/execute.rs:446-481 | each NFT must be its giver's now; only cw721 and cw1155 are taken; one transfer each, in order |
| `Nfts.PullsIff` | contracts/nft-loans-non-custodial/src/execute.rs:446-481 | what is taken is exactly multi-tokens and NFTs owned by the giver now |
| `Nfts.SendAll` | contracts/nft-loans-non-custodial/src/execute.rs:641-676 | the whole list goes to one recipient, in order |
| `LoansContract.Contract.DepositCollateral` | contracts/nft-loans-non-custodial/src/execute.rs:38-85 | a listing under the borrower's next number, the first being nought |
| `LoansContract.Contract.ModifyCollateral` | contracts/nft-loans-non-custodial/src/execute.rs:90-125 | terms change only while published |
| `LoansContract.Contract.CancelLoan` | contracts/nft-loans-non-custodial/src/execute.rs:131-151 | a listing is withdrawn only while published |
| `LoansContract.Contract.RawOffer` | contracts/nft-loans-non-custodial/src/execute.rs:157-205 | an offer comes with exactly its principle and takes the next global number |
| `LoansContract.Contract.Cancel` | contracts/nft-loans-non-custodial/src/execute.rs:242-280 | an open offer of a published loan is cancelled and refunded |
| `LoansContract.Contract.WithdrawRefused` | contracts/nft-loans-non-custodial/src/execute.rs:287-316 | an offer that reads as refused is refunded, the derived state written through |
| `LoansContract.Contract.Refuse` | contracts/nft-loans-non-custodial/src/execute.rs:344-372 | the borrower refuses an open offer of a published loan |
| `LoansContract.Contract.StartLoan` | contracts/nft-loans-non-custodial/src/execute.rs:414-497 | acceptance writes loan and offer, pays the borrower and pulls the collateral |
| `LoansContract.Contract.Accept` | contracts/nft-loans-non-custodial/src/execute.rs:501-512 | only the offer's borrower accepts it |
| `LoansContract.Contract.AcceptOnTerms` | contracts/nft-loans-non-custodial/src/execute.rs:376-411 | an offer on the borrower's own terms, made and accepted at once |
| `LoansContract.Contract.Repay` | contracts/nft-loans-non-custodial/src/execute.rs:519-603 | the sent coin is split between lender and fee distributor, and the collateral returned |
| `LoansContract.Contract.WithdrawDefaulted` | contracts/nft-loans-non-custodial/src/execute.rs:608-639 | the active lender takes the collateral of a loan past its term, once |
| `LoansContract.Contract.ChangeFeeRate` | contracts/nft-loans-non-custodial/src/admin.rs:69-90 | rates of one or more are rejected |
| `LoansContract.Contract.Dispatch` | contracts/nft-loans-non-custodial/src/contract.rs:59-120 | every message is answered, and changes the records, exactly as the step relation says |
| `LoansContract.Contract.Execute` | contracts/nft-loans-non-custodial/src/contract.rs:59-120 | as Dispatch, and a failed message leaves the records as they were |
| `LoansProtocol.ListingIs` | contracts/nft-loans-non-custodial/src/execute.rs:38-85 | a listing is accepted exactly if it names collateral, and stored as named under the borrower's first unused number |
| `LoansProtocol.ModifyingIs` | contracts/nft-loans-non-custodial/src/execute.rs:90-125 | terms are changed exactly by the borrower of a published loan, to those named |
| `LoansProtocol.WithdrawingIs` | contracts/nft-loans-non-custodial/src/execute.rs:131-151 | so is a listing withdrawn |
| `LoansProtocol.OfferingIs` | contracts/nft-loans-non-custodial/src/execute.rs:157-205 | an offer is accepted if and only if the loan is published and the coins sent are exactly the principle; it is stored on exactly the terms named, that principle deposited in full |
| `LoansProtocol.OfferingRefused` | contracts/nft-loans-non-custodial/src/execute.rs:157-175 | why an offer is refused: no loan, not published, not one coin, or not the principle |
| `LoansProtocol.CancellingIs` | contracts/nft-loans-non-custodial/src/execute.rs:242-280 | an offer is cancelled exactly by its lender while it shows as open, and the principle goes back |
| `LoansProtocol.WithdrawingRefusedIs` | contracts/nft-loans-non-custodial/src/execute.rs:287-316 | the deposit of a refused offer goes back exactly to its lender, once |
| `LoansProtocol.RefusingIs` | contracts/nft-loans-non-custodial/src/execute.rs:344-372 | an offer is refused exactly by the borrower while it shows as open |
| `LoansProtocol.AcceptanceIs` | contracts/nft-loans-non-custodial/src/execute.rs:414-512 | an offer is accepted exactly by the borrower while it shows as open and the collateral is the borrower's; the loan starts at this block, the principle goes out and the collateral comes in |
| `LoansProtocol.OfferMsgRefused` | contracts/nft-loans-non-custodial/src/state.rs:157-175 | why a message about an offer is refused: no offer, the wrong party, or the wrong displayed state |
| `LoansProtocol.TakingIs` | contracts/nft-loans-non-custodial/src/execute.rs:376-411 | a loan is taken on the borrower's terms if and only if it is published with terms, the coin sent is exactly their principle and the collateral is there; the active offer then has exactly the terms listed, and exactly that principle goes to the borrower |
| `LoansProtocol.TakingRefused` | contracts/nft-loans-non-custodial/src/execute.rs:376-400 | why it is refused: no loan, no terms, not published, or the wrong coins |
| `LoansProtocol.ForeclosingIs` | contracts/nft-loans-non-custodial/src/execute.rs:608-639 | a started loan is foreclosed exactly by its lender past its term, who is sent the collateral |
| `LoansProtocol.ForeclosingRefused` | contracts/nft-loans-non-custodial/src/state.rs:125-147 | why a foreclosure is refused, case by case |
| `LoansProtocol.RepayRefused` | contracts/nft-loans-non-custodial/src/state.rs:111-147 | why a repayment is refused: no such loan of the sender's, not started, or past its term |
| `LoansProtocol.InstantiatedIs` | contracts/nft-loans-non-custodial/src/contract.rs:33-56 | the contract starts empty, at a fee rate below one |
| `LoansProtocol.AdministrationIs` | contracts/nft-loans-non-custodial/src/admin.rs:48-90 | fee distributor and rate are the owner's, and no rate reaches one |
| `LoansProtocol.StepAuthorised` | contracts/nft-loans-non-custodial/src/state.rs:157-187 | every change of a loan is its borrower's, an offer counted, a taking on the terms listed or its lender's foreclosure; every change of an offer is its lender's refund or its borrower's answer |
| `LoansProtocol.OffersWerePaid` | contracts/nft-loans-non-custodial/src/execute.rs:157-205 | over every run, each offer that joined came from a message of its lender's with exactly its principle, naming its terms or taking those listed |
| `LoansInvariant.StepInv` | contracts/nft-loans-non-custodial/src/execute.rs:414-443 | a loan started, ended or defaulted has a start block, lists only cw721 and cw1155, and it and its one accepted offer name each other; fee rates stay below one |
| `LoansInvariant.RunInv` | contracts/nft-loans-non-custodial/src/contract.rs:59-120 | so after every run |
| `LoansInvariant.RunMoves` | contracts/nft-loans-non-custodial/src/execute.rs:519-639 | over any run ended, defaulted and withdrawn loans are never touched, started ones can only end or default, accepted offers are frozen |
| `LoansInvariant.StartedHasOffer` | contracts/nft-loans-non-custodial/src/state.rs:149-155 | a started loan's active offer loads, is accepted, and is its own |
| `LoansInvariant.OneEndOpenIff` | contracts/nft-loans-non-custodial/src/state.rs:111-147 | at each height exactly one of repayment and default is open to a started loan, if and only if start plus duration is a block number; repayment exactly up to that block |
| `LoansInvariant.OverIsClosed` | contracts/nft-loans-non-custodial/src/execute.rs:519-639 | a loan not started can be neither repaid nor defaulted |
| `LoansInvariant.RepaymentIsNeutral` | contracts/nft-loans-non-custodial/src/execute.rs:545-596 | lender's part plus fee is exactly what was sent; the lender gets the principle and of the interest what the fee rate leaves, rounded down |
| `LoansInvariant.RepayAccepts` | contracts/nft-loans-non-custodial/src/execute.rs:519-541 | repayment of a started loan is accepted exactly with one coin of the right denomination and enough of it, up to the term |
| `LoansInvariant.NeverUnreachable` | contracts/nft-loans-non-custodial/src/execute.rs:653-676 | in every reachable state the Unreachable arms are dead |
| `LoansEscrow.CustodyIff` | contracts/nft-loans-non-custodial/src/execute.rs:446-481 | a message keeps the escrow if and only if no coin comes unasked and the loan it starts lists no NFT twice |
| `LoansEscrow.ThroughoutIffOrderly` | contracts/nft-loans-non-custodial/src/contract.rs:59-120 | holdings equal records at every point of a run if and only if each message meets that condition in the state it finds |
| `LoansEscrow.EscrowAlways` | contracts/nft-loans-non-custodial/src/execute.rs:157-335 | after every orderly run the contract holds exactly the deposits of offers not stored as accepted and the collateral of started loans |
| `LoansEscrow.NftSecuresOneLoan` | contracts/nft-loans-non-custodial/src/execute.rs:414-497 | an NFT is in custody if and only if a started loan lists it, and then only one does |
| `LoansOffers.OneRefundOpen` | contracts/nft-loans-non-custodial/src/state.rs:197-224 | each unaccepted funded offer has exactly one of cancelling and withdrawing open to its lender, and no other offer has either |
| `LoansOffers.DepositLeavesOnce` | contracts/nft-loans-non-custodial/src/execute.rs:242-335 | over any run a deposit made is still kept or has gone out exactly once |
| `LoansOffers.ReleasesRight` | contracts/nft-loans-non-custodial/src/execute.rs:414-443 | every deposit that went out in a run did so by a transfer of the whole principle, to the borrower if accepted and to the lender if not |
| `LoansOffers.LenderCanLeave` | contracts/nft-loans-non-custodial/src/execute.rs:242-316 | in any state of an orderly run one message gives the lender of an unaccepted offer the deposit back |
| `LoansCollateral.LenderCanForeclose` | contracts/nft-loans-non-custodial/src/execute.rs:608-639 | past its term a started loan is foreclosed by one message, after which the lender holds the whole collateral more than before, asset by asset |
| `LoansCollateral.BorrowerCanRepay` | contracts/nft-loans-non-custodial/src/execute.rs:519-603 | up to its term a borrower who holds principle and interest repays with one message; everybody's wallet afterwards is accounted for: the borrower gains the collateral for exactly that coin, the lender the principle and the interest less the fee, the distributor the fee |
| `LoansCollateral.StartedLoansCanEnd` | contracts/nft-loans-non-custodial/src/execute.rs:519-639 | from instantiation, after every orderly run, each started loan with a countable term can be ended so, with the collateral delivered |
| `LoansCollateral.EndlessForever` | contracts/nft-loans-non-custodial/src/state.rs:111-147 | over every run a started loan whose start plus duration is no block number stays as it is |
| `LoansCollateral.EndlessKeepsCollateral` | contracts/nft-loans-non-custodial/src/state.rs:111-147 | and its collateral stays with the contract after every orderly run |
| `LoansWitness.LoanWithoutEnd` | contracts/nft-loans-non-custodial/src/state.rs:111-147 | a listing and an acceptance from instantiation start such a loan |
| `LoansWitness.NftPledgedTwice` | contracts/nft-loans-non-custodial/src/execute.rs:446-481 | a listing of one NFT twice over and its acceptance break the escrow |
| `LoansWitness.StrayCoinKept` | contracts/nft-loans-non-custodial/src/execute.rs:38-85 | a coin sent along with a listing breaks the escrow |
| `RafflesContract.Prng.RandomBetween` | contracts/raffles/src/rand.rs:22-45 | a number of the inclusive range, from the generator's next word; the position advances |
| `RafflesContract.Contract.Create` | contracts/raffles/src/execute.rs:46-163 | a fresh raffle under the next id, options raised to the minima |
| `RafflesContract.Contract.Cancel` | contracts/raffles/src/execute.rs:167-200 | only before the first ticket, and neither cancelled nor claimed |
| `RafflesContract.Contract.Modify` | contracts/raffles/src/execute.rs:206-237 | only before the first ticket |
| `RafflesContract.Contract.RawBuy` | contracts/raffles/src/execute.rs:347-411 | price, time and both caps are checked, then the loop writes consecutive ticket numbers and both counters |
| `RafflesContract.Contract.Buy` | contracts/raffles/src/execute.rs:248-291 | coins sent must be the coins announced, unless the amount is nought |
| `RafflesContract.Contract.OnReceive` | contracts/raffles/src/execute.rs:297-342 | tokens received must be the tokens announced |
| `RafflesContract.Contract.Randomize` | contracts/raffles/src/execute.rs:417-434 | only while closed, only a later round |
| `RafflesContract.Contract.PickWinner` | contracts/raffles/src/state.rs:85-104 | the owner of the ticket drawn from the seed's first word |
| `RafflesContract.Contract.PayTakings` | contracts/raffles/src/state.rs:213-297 | provider, treasury and owner are paid their shares, empty ones skipped |
| `RafflesContract.Contract.ClaimRaffle` | contracts/raffles/src/execute.rs:443-481 | a finished raffle gets its winner, the winner the assets, the three parties the takings |
| `RafflesContract.Contract.Change` | contracts/raffles/src/contract.rs:203-257 | a parameter change that breaks the fee bound is rejected |
| `RafflesContract.Contract.Dispatch` | contracts/raffles/src/contract.rs:86-134 | every message is answered, and changes the records, exactly as the step relation says |
| `RafflesContract.Contract.Execute` | contracts/raffles/src/contract.rs:86-134 | as Dispatch, and a failed message leaves the records as they were |
| `RafflesProtocol.CreatingIs` | contracts/raffles/src/execute.rs:46-164 | a raffle is created exactly while unlocked, of NFTs owned by the sender and multi-tokens; it is stored as named, for the owner named or the sender, under the next number |
| `RafflesProtocol.CancellingIs` | contracts/raffles/src/execute.rs:167-203 | it is cancelled exactly by its owner before the first ticket, while neither cancelled nor claimed, and all raffled goes back |
| `RafflesProtocol.ModifyingIs` | contracts/raffles/src/execute.rs:206-245 | it is modified exactly by its owner before the first ticket |
| `RafflesProtocol.SetupRefused` | contracts/raffles/src/execute.rs:46-245 | why a raffle is not created, cancelled or modified |
| `RafflesProtocol.BuyingIs` | contracts/raffles/src/execute.rs:248-294 | tickets are sold exactly from start to closing, for price times number in exactly the coins sent, within both caps; the buyer gets the next numbers and no other entry changes |
| `RafflesProtocol.ReceivingIs` | contracts/raffles/src/execute.rs:297-345 | or for the tokens that came, to whom sent them |
| `RafflesProtocol.PurchaseRefused` | contracts/raffles/src/execute.rs:347-414 | why a purchase is refused: no raffle, an unpayable price, the wrong amount, not the time, the user's cap, or the raffle's |
| `RafflesProtocol.RoundIs` | contracts/raffles/src/contract.rs:293-369 | a round is taken exactly after closing, until the end or while there is none, if later than the one before; seed, number and sender are stored as they came |
| `RafflesProtocol.ClaimingIs` | contracts/raffles/src/execute.rs:443-482 | a raffle is claimed exactly past its end, with randomness and without a winner, by anybody; the winner stored owns ticket draw(seed) modulo tickets, or the raffle if there are none |
| `RafflesProtocol.OutcomeRefused` | contracts/raffles/src/execute.rs:417-470 | why a round or a claim is refused |
| `RafflesProtocol.LockingIs` | contracts/raffles/src/contract.rs:184-201 | the lock is the owner's |
| `RafflesProtocol.ParametersAre` | contracts/raffles/src/contract.rs:203-258 | so are the parameters, raised to the minima and with both fees together below one |
| `RafflesDraw.RandomnessIsLastRound` | contracts/raffles/src/contract.rs:293-369 | over every run the randomness stored is the seed, number and sender of the last round accepted for the raffle |
| `RafflesDraw.LastRoundDecides` | contracts/raffles/src/state.rs:85-108 | from instantiation, after every run, a claim of a raffle with tickets makes the owner of ticket draw(seed) modulo tickets the winner, for the seed of the last accepted round, and pays the provider's share to that round's sender |
| `RafflesDraw.WinnerIsKept` | contracts/raffles/src/state.rs:110-136 | over every run with block time not falling a winner so drawn stays |
| `RafflesTickets.StepInv` | contracts/raffles/src/execute.rs:347-411 | every message keeps ticket numbers without gaps, user counts equal to entries, sums equal to tickets sold, both caps, and the bounds on fees |
| `RafflesTickets.RunInv` | contracts/raffles/src/contract.rs:86-134 | so after every run |
| `RafflesTickets.WinnerHoldsTicket` | contracts/raffles/src/state.rs:85-104 | a raffle with tickets and randomness has a winner, who holds a ticket |
| `RafflesTickets.SplitSums` | contracts/raffles/src/state.rs:213-231 | the three shares sum to the takings, each rounded-down share is within a unit of its rate, and the owner's is positive |
| `RafflesTickets.OwnedBought` | contracts/raffles/src/execute.rs:391-404 | a purchase of n raises the buyer's entries by n and nobody else's |
| `Raffles.NewOptions` | packages/raffles/src/state.rs:162-195 | what is asked for is granted from the minima up, anything less or not asked for becomes the minimum, and the caps are those asked for |
| `Raffles.ModifiedOptions` | packages/raffles/src/state.rs:197-234 | a start is only put off; durations, timeouts and caps become what is asked for or stay, within the minima |
| `RafflesTickets.TicketsNearlyEqual` | contracts/raffles/src/rand.rs:22-45 | each ticket is drawn by as many 32-bit words as any other, or by one more |
| `RafflesLife.SoldStep` | contracts/raffles/src/execute.rs:167-237 | all a message can do to a raffle with tickets: sell the number it asks for while started, store the later round it brings, seed and sender, while closed, pay the drawn winner once finished |
| `RafflesLife.SoldRaffleFreezes` | contracts/raffles/src/execute.rs:417-466 | over any run with block time not falling: terms fixed, rounds rising, a winner kept, and from the end on tickets, randomness and winner decided |
| `RafflesLife.StateAdvances` | contracts/raffles/src/state.rs:110-136 | the state of a sold raffle only moves forward and is never cancelled |
| `RafflesLife.ClaimableSomedayIff` | contracts/raffles/src/state.rs:110-136 | a sold raffle with randomness can be claimed at some time if and only if its end is a countable timestamp |
| `RafflesLife.ClaimedAtMostOnce` | contracts/raffles/src/execute.rs:443-466 | over any run a raffle is claimed at most once, exactly when it has a winner |
| `RafflesEscrow.CustodyIff` | contracts/raffles/src/execute.rs:167-291 | in any state whose holdings equal the records, a message keeps them equal if and only if no coin comes unasked, no NFT is raffled twice over, no paid ticket of an open raffle is bought through the direct cw20 branch, and a raffle that has a winner neither takes money nor sends its assets again |
| `RafflesEscrow.WalletsFollow` | contracts/raffles/src/execute.rs:167-482 | after any message the holdings differ from the records by exactly the stray coins and tickets paid too late, less NFTs recorded twice, unpaid tickets and assets sent again |
| `RafflesEscrow.ModifyKeepsClaimedIff` | contracts/raffles/src/execute.rs:206-237 | a modified claimed raffle still reads as claimed exactly if its new end is past; otherwise its owner's cancellation is accepted, if its times are countable, and sends the assets again |
| `RafflesEscrow.ClosedRunsAreOrderly` | contracts/raffles/src/execute.rs:206-237 | in runs whose time does not go back and whose modifications leave the end of a claimed raffle past, no cancellation or purchase meets a raffle with a winner |
| `RafflesEscrow.ThroughoutIffOrderly` | contracts/raffles/src/contract.rs:86-134 | holdings equal records at every point of a run if and only if each message meets that condition in the state it finds |
| `RafflesEscrow.EscrowAlways` | contracts/raffles/src/execute.rs:248-482 | from instantiation, after every run whose messages meet that condition, the contract holds, over raffles neither claimed nor cancelled, exactly what is raffled and price times tickets |
| `RafflesEscrow.UncountableForever` | contracts/raffles/src/state.rs:110-136 | over every run a sold raffle whose end is no countable timestamp gets no winner |
| `RafflesEscrow.UncountableKeepsAll` | contracts/raffles/src/state.rs:110-136 | and what it lists and took in stays with the contract after every orderly run |
| `RafflesClaim.ClaimPaysAll` | contracts/raffles/src/state.rs:213-297 | a claim sends all that is raffled to the winner and splits price times tickets in three, to the unit |
| `RafflesClaim.ClaimAcceptsIff` | contracts/raffles/src/execute.rs:443-466 | the handler accepts a claim of a raffle with tickets exactly when it is finished |
| `RafflesClaim.FinishedCanBeClaimed` | contracts/raffles/src/execute.rs:443-482 | in any state of an orderly run anybody can claim a finished raffle with tickets; afterwards the winner holds all that is raffled more than before, and provider, treasury and owner their shares, to the unit |
| `RafflesClaim.CancelAcceptsIff` | contracts/raffles/src/execute.rs:167-200 | the owner's cancellation is accepted exactly before the first ticket, while neither cancelled nor claimed and its times countable |
| `RafflesClaim.UnsoldComesBack` | contracts/raffles/src/execute.rs:167-200 | in any state of an orderly run the owner of a raffle without buyers can cancel it, and holds all that was raffled more than before |
| `RafflesClaim.WinnersArePaid` | contracts/raffles/src/execute.rs:443-482 | from instantiation, after every orderly run, whoever claims a finished raffle with tickets hands the drawn winner all that is raffled |
| `RafflesClaim.OwnersGetUnsoldBack` | contracts/raffles/src/execute.rs:167-200 | from instantiation, after every orderly run, cancelling a raffle without buyers gives the owner everything back |
| `RafflesWitness.ReopenedPaysAgain` | contracts/raffles/src/execute.rs:206-237 | a run from instantiation in which a claimed raffle is prolonged, reads as started and is cancelled: its lot is sent a second time, and the contract holds that much less than its records |
| `RafflesWitness.ReopenedSellsUntracked` | contracts/raffles/src/execute.rs:248-291 | a ticket bought in the raffle so reopened is paid for and belongs to no record |
| `RafflesWitness.RaffleWithoutEnd` | contracts/raffles/src/state.rs:110-136 | two messages from instantiation sell a ticket of a raffle whose end is no timestamp, and no continuation finds a winner |
| `RafflesWitness.DirectCw20Unpaid` | contracts/raffles/src/execute.rs:256-272 | a run in which a ticket bought through the direct cw20 branch is credited though the contract holds no token more |
| `RafflesWitness.NftRaffledTwice` | contracts/raffles/src/execute.rs:70-103 | one NFT raffled twice over breaks the escrow |
| `RafflesWitness.StrayCoinKept` | contracts/raffles/src/contract.rs:86-134 | a coin sent along with a lock breaks the escrow |
| `FeeDistributorContract.MergeCoin` | contracts/fee_distributor/src/contract.rs:197-215 | a coin joins its own denomination or the end of the list |
| `FeeDistributorContract.RemoveRepeats` | contracts/fee_distributor/src/contract.rs:260-260 | first occurrences, in order |
| `FeeDistributorContract.Contract.CreditAddresses` | contracts/fee_distributor/src/contract.rs:194-218 | the loop credits each listed address once per occurrence |
| `FeeDistributorContract.Contract.WithdrawRegistered` | contracts/fee_distributor/src/contract.rs:254-275 | the loop pays and clears the linked accounts, each once |
| `FeeDistributorContract.Contract.Deposit` | contracts/fee_distributor/src/contract.rs:163-235 | one coin, split between the treasury and the listed accounts |
| `FeeDistributorContract.Contract.Modify` | contracts/fee_distributor/src/contract.rs:105-133 | shares above the whole are rejected |
| `FeeDistributorContract.Contract.Associate` | contracts/fee_distributor/src/contract.rs:136-159 | the administrator sets any fee address, anybody may save again the one stored |
| `FeeDistributorContract.Contract.Execute` | contracts/fee_distributor/src/contract.rs:53-84 | every message makes exactly the specified step, and a failed one leaves the records as they were |
| `FeeDistributorBooks.CreditedPerOccurrence` | contracts/fee_distributor/src/contract.rs:194-218 | a repeated address is credited once per occurrence |
| `FeeDistributorBooks.TreasuryBounds` | contracts/fee_distributor/src/contract.rs:178-191 | the treasury gets at least the amount less the projects' share, and less than one unit per address more |
| `FeeDistributorBooks.WithdrawEmptiesExactly` | contracts/fee_distributor/src/contract.rs:254-275 | a withdrawal empties the named linked accounts and no others |
| `FeeDistributorBooks.StepInv` | contracts/fee_distributor/src/contract.rs:105-133 | shares stay within bounds, accounts keep one coin per denomination, and deposits never underflow |
| `FeeDistributorBooks.BalancedIff` | contracts/fee_distributor/src/contract.rs:53-84 | a message keeps balance and accounts equal exactly when no coin comes unasked |
| `FeeDistributorBooks.BalanceIsAllocated` | contracts/fee_distributor/src/contract.rs:163-275 | over every orderly run the balance of each denomination is the sum of the accounts |
| `FeeDistributorBooks.StrayCoinKept` | contracts/fee_distributor/src/contract.rs:254-275 | a coin sent along with a withdrawal belongs to no account |
| `FeeDistributorBooks.DepositDistributes` | contracts/fee_distributor/src/contract.rs:163-235 | a deposit leaves unlinked accounts what they had and one share per occurrence, empties the linked ones named, and pays everybody exactly what those linked to them held by then, and the treasury the rest |
| `FeeDistributorBooks.FeesAreDelivered` | contracts/fee_distributor/src/contract.rs:240-275 | in any state of an orderly run a withdrawal goes through, whoever asks; every wallet afterwards holds exactly what the named accounts linked to it held more |
| `FeeDistributorBooks.LinkedAccountsArePaid` | contracts/fee_distributor/src/contract.rs:240-275 | from instantiation, after every orderly run, one message pays a linked account's total to its fee address and empties the account |
| `FeeDistributorAuthority.LinkingIs` | contracts/fee_distributor/src/contract.rs:136-159 | a link is accepted exactly from the administrator, or if it names the address stored; why it is refused else |
| `FeeDistributorAuthority.ModifyingIs` | contracts/fee_distributor/src/contract.rs:105-133 | owner, treasury and shares are changed exactly by the administrator, to what is named, with no share above the whole |
| `FeeDistributorAuthority.DepositAcceptsIff` | contracts/fee_distributor/src/contract.rs:163-176 | a deposit is accepted exactly with one coin |
| `FeeDistributorAuthority.InstantiatedIs` | contracts/fee_distributor/src/contract.rs:26-51 | the shares at first |
| `FeeDistributorAuthority.StepAuthorised` | contracts/fee_distributor/src/state.rs:10-37 | a message changes a link or a setting only if the stored administrator sent it, and then to exactly what it names |
| `FeeDistributorAuthority.SettingsStay` | contracts/fee_distributor/src/state.rs:10-37 | over every run without messages of the administrator's all links and settings stay |
| `FeeDistributorAuthority.LinksWereNamed` | contracts/fee_distributor/src/contract.rs:136-159 | over every run each link that joined is what a message of the administrator of that moment said |
| `FeeDistributorAuthority.PaidWhereNamed` | contracts/fee_distributor/src/contract.rs:254-275 | after the administrator links an account, and any orderly run without another message of theirs, a withdrawal brings the account's total to the address named |
| `LenderContract.UpdateInterestsAccrued` | contracts/lender/src/execute.rs:597-623 | the start moves only when interest did accrue; returns the interest due |
| `LenderContract.RepaySomeLoan` | contracts/lender/src/execute.rs:455-496 | interest first, then principle; returns the interest paid |
| `LenderContract.Contract.ExecuteRepay` | contracts/lender/src/execute.rs:212-376 | whole, partial and liquidating repayment, each with its guard, its new record, and the incentive, fee, vault part and collateral it orders |
| `LenderContract.Contract.LastCollateral` | contracts/lender/src/query.rs:103-115 | the search through the stored keys finds the borrower's greatest loan number, or none |
| `LenderContract.Contract.ExecuteBorrow` | contracts/lender/src/execute.rs:36-117 | unless borrowing is locked, a loan within the safe limit, starting now, under the number past the borrower's last; the collateral is taken and the vault pays the borrower |
| `LenderContract.Contract.ExecuteBorrowMore` | contracts/lender/src/execute.rs:121-201 | more on a continuous safe loan whose value stays within the safe limit, starting anew; the vault pays the borrower |
| `LenderContract.Contract.ExecuteRaiseRate` | contracts/lender/src/execute.rs:541-575 | each guard of a raise is answered as specified, and the records stay as they are |
| `LenderContract.Contract.ExecuteSetOwner` | contracts/lender/src/state.rs:15-24 | only the owner hands over |
| `LenderContract.Contract.ExecuteSetLock` | contracts/lender/src/state.rs:37-49 | only the owner locks borrowing |
| `LenderDefault.RepayersAreRight` | contracts/lender/src/query.rs:164-214 | an accepted repayment by the borrower is of a loan not in default, and by anybody else of a fixed loan past its last block or a continuous one worth more than 6,666 parts in 10,000 of the price |
| `LenderDefault.RepayAcceptsIff` | contracts/lender/src/execute.rs:212-376 | a repayment is accepted if and only if the collateral is there, the dates count, the payer is the right one, and the amount is the whole value, or any part of a continuous loan of one's own, and covers the fee |
| `LenderDefault.RepayInRuns` | contracts/lender/src/execute.rs:212-376 | so in every state a run from instantiation reaches |
| `LenderDefault.RepayRefused` | contracts/lender/src/query.rs:190-214 | why a repayment is refused, case by case |
| `LenderDefault.WholeIs` | contracts/lender/src/execute.rs:282-376 | a closing repayment empties the record, gives the payer the collateral and orders fee and vault part, the fee at its rate of all but the principle |
| `LenderDefault.PartIs` | contracts/lender/src/execute.rs:290-318 | a part pays interest first and orders fee and vault part, the fee at its rate of the interest paid |
| `LenderDefault.FeeWithin` | contracts/lender/src/execute.rs:418-453 | at a fee rate of at most the whole the fee is within the interest paid, and that within the payment |
| `LenderDefault.GivenBySettling` | contracts/lender/src/execute.rs:212-376 | collateral is given away only by a repayment of its loan, to its payer, who is the borrower or finds the loan in default |
| `LenderDefault.CollateralComesHome` | contracts/lender/src/query.rs:164-214 | over every run the collateral of a loan never in default stays, or went to its borrower for a repayment of theirs |
| `LenderDefault.BorrowingIs` | contracts/lender/src/execute.rs:36-117 | a loan is given exactly while unlocked, up to 3,333 parts in 10,000 of the price, on the constant terms of its mode, under the borrower's next number |
| `LenderDefault.BorrowingMoreIs` | contracts/lender/src/execute.rs:121-201 | more is lent exactly on one's own continuous loan in the safe zone within the same limit |
| `LenderDefault.BorrowingMoreRefused` | contracts/lender/src/execute.rs:121-165 | why no more is lent, case by case |
| `LenderDefault.ValuesAndZones` | contracts/lender/src/query.rs:79-145 | what a loan is worth, and the zones by its value |
| `LenderDefault.IncentiveIs` | contracts/lender/src/execute.rs:380-416 | the increasor of a raised loan gets its share of what the raise has yielded, rounded down |
| `LenderDefault.RezonedIs` | contracts/lender/src/execute.rs:300-318 | an expensive loan brought back to the safe limit is safe again at the ordinary rate |
| `LenderDefault.SettingsAre` | contracts/lender/src/state.rs:6-49 | owner and lock are the owner's |
| `LenderDefault.RaisingIs` | contracts/lender/src/execute.rs:541-575 | how each raise of a rate is answered, in terms of the loan; an accepted one stores nothing |
| `LenderInterest.InterestByTens` | contracts/lender/src/query.rs:147-158 | interest counts the greatest multiple of ten blocks not above, at the rate per block, rounded down |
| `LenderInterest.InterestSplits` | contracts/lender/src/query.rs:147-158 | interest over two stretches of blocks is at most interest over both at once |
| `LenderInterest.UpdateKeepsValue` | contracts/lender/src/execute.rs:597-623 | updating changes no value now and raises none later, and moves the start exactly if interest has accrued |
| `LenderInterest.RepaymentLowersExactly` | contracts/lender/src/execute.rs:455-496 | a partial repayment lowers the value at its block by exactly what was paid, interest first, and at any later block by at least that |
| `LenderInterest.NeverExpensive` | contracts/lender/src/execute.rs:541-575 | over every run, accepted raises of the rate included, no stored loan is in the expensive zone or has an increasor |
| `LenderInterest.RaiseIsLost` | contracts/lender/src/execute.rs:541-575 | a raise that is accepted and works out an expensive loan with an increasor stores nothing |
| `LenderInterest.BorrowingMoreDropsInterest` | contracts/lender/src/execute.rs:121-201 | after borrowing more the loan is worth its value before, plus what was borrowed, less all interest accrued, so nothing is lost if and only if none had accrued |
| `LenderWitness.InterestDropped` | contracts/lender/src/execute.rs:121-201 | a million borrowed and, ten blocks on, nothing more: from instantiation two messages bring the value at that block from 1,078,000 to 1,000,000 |
| `LenderInterest.SplittingNeverCosts` | contracts/lender/src/query.rs:117-157 | over any run leaving a continuous loan open and borrowing no more on it, paid plus value at any later block is at most the value there had nothing been paid |
| `LenderInterest.OneShotBound` | contracts/lender/src/query.rs:147-158 | a new continuous loan repaid in parts never costs more than principle and one-shot interest |
| `LenderInterest.OrdersConserve` | contracts/lender/src/execute.rs:418-453 | fee and vault part are together what was paid, the fee at its rate of the interest, rounded down |
| `LenderInterest.RepaymentConserved` | contracts/lender/src/execute.rs:212-453 | the orders of every accepted repayment sum to what was paid, and the collateral goes to the payer exactly if the loan closes, for its whole value |
| `Decimals.PrintParse` | packages/bignumber/src/math.rs:76-132 | every 256-bit decimal is parsed back from what it prints as, without overflow |
| `Decimals.ParsesIff` | packages/bignumber/src/math.rs:85-111 | a string parses if and only if it is digits with at most one dot and at most eighteen digits behind it, within 256 bits; the number read is exact |
| `Decimals.EmptyPartsParse` | packages/bignumber/src/math.rs:76-111 | the empty string and .23, ruled out by the comment, are read |
| `Decimals.TrailingZero` | packages/bignumber/src/math.rs:94-107 | up to the eighteenth digit a trailing zero changes nothing |
| `Decimals.FractionalRoundTrip` | packages/bignumber/src/math.rs:115-131 | padding to eighteen digits, trimming zeros and rescaling give the fractional part back |
| `Vault.RateIs` | contracts/ailiq_token/src/query.rs:19-36 | with 128-bit inputs no product overflows and the rate is assets over supply, rounded down |
| `Vault.ClaimIs` | contracts/ailiq_token/src/query.rs:50-59 | a holder's claim succeeds and is shares times rate, rounded down |
| `Vault.SharesAre` | contracts/ailiq_token/src/query.rs:38-48 | an amount buys exactly as many whole shares as it pays for at the rate, one for one before the first share; when it fails |
| `Vault.ClaimsCovered` | contracts/ailiq_token/src/query.rs:19-59 | all holders' claims succeed, together stay within total assets, and leave less than one unit per holder and one for each 10^18 shares |
| `Vault.NoGainFromShares` | contracts/ailiq_token/src/query.rs:38-59 | converting assets to shares and back gains nothing |
| `Vault.NoGainFromAssets` | contracts/ailiq_token/src/query.rs:38-59 | converting shares to assets and back gains nothing |

## Left out

- Queries with pagination, filters, previews, wanted NFTs and tokens, marketing data, response attributes: no effect on custody.
- Times and previews kept with comments and listings, and the comments of loans and raffles: informational.
- Address validation: addresses are strings; only the empty one, the deletion mark, is special.
- Token contracts and the bank beyond the ledger: their own rejections (zero amounts, frozen tokens, failing receive hooks) and dishonest behaviour.
- Overflow of 128-bit amounts beyond total supply, and exhaustion of 64-bit ids; 128-bit overflow is modelled where one message can cause it alone (principle plus interest, vault products).
- Signature verification of randomness rounds, SHA-256 and ChaCha: the verifier's answer is part of the message, the cipher an arbitrary function from seed and position to a 32-bit word.
- Ownership hand-over (but for the trading contract and the lender), migrations, parameter setters other than those that keep the fee bounds, the oracle and the fee-contract tiers: easy members.
- The sub-message and reply by which a randomness round is stored: one atomic step, as the chain runs it.
- LenderInterest.SplittingNeverCosts: of runs that borrow no more on the loan, because borrowing more adds principle and drops the interest accrued (execute.rs:121-201), as LenderInterest.BorrowingMoreDropsInterest states.
- The lender's checks that the coins or tokens sent are those announced (contract.rs:135-208), its oracle address, and prices and rates other than the constants the source returns.
- Vault deposits, withdrawals, redemption and repayment: only the share price and conversions are modelled; total assets and supply are inputs.
- RafflesEscrow.EscrowAlways: of runs in which each message meets the condition of RafflesEscrow.CustodyIff, since any other message breaks the equality at once (RafflesEscrow.ThroughoutIffOrderly); RafflesEscrow.WalletsFollow gives the difference it makes.
- RafflesTickets.TicketsNearlyEqual: counts 32-bit words, not seeds, because the cipher is arbitrary in the model.
- RafflesClaim.WinnersArePaid: states a lower bound, because the winner may also be owner, provider or treasury; RafflesClaim.FinishedCanBeClaimed is exact.
- FeeDistributorBooks.BalanceIsAllocated: sends of nothing succeed in the model (a treasury part of nought, an account already emptied), where the bank module would reject them.
- FeeDistributorBooks.FeesAreDelivered: likewise of accounts that were credited amounts of nought.
- P2PCustody.CustodyAlways: of runs in which each message meets the condition of P2PCustody.CustodyIff, since any other message breaks the equality at once (P2PCustody.ThroughoutIffOrderly).
- The `bigint` crate is not part of this model: its decimal parsing and printing are given by their documented meaning.
