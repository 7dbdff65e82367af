# Verification of the chain node's ledger, market and consensus cores

A Dafny model of the parts of this Graphene-style node whose state must stay right over whole runs, with proofs
about every run, every input or every reachable state of the model. Everything is checked by
`dafny verify dfyconfig.toml`; nothing here executes the node.

| file | what it models |
|---|---|
| `UndoLog.dfy`, `UndoDatabase.dfy`, `UndoRuns.dfy` | the undo log: stack of deltas, sessions, merge, commit, pop (a functional log, the object that implements it with its loops, and nested sessions in runs) |
| `ForkDatabase.dfy`, `ChainDatabase.dfy`, `ChainRuns.dfy` | the pruned block tree, pushing, popping and fork switching on top of it and the undo log, and runs of pushes |
| `LimitBook.dfy` | limit orders in a market without market-issued assets |
| `SmartCoin.dfy`, `SettlementPool.dfy`, `CollateralBids.dfy`, `MarginCalls.dfy`, `ForcedSettlement.dfy`, `CoinMarket.dfy` | a market-issued asset: positions, margin calls, black swans, the settlement fund, bids, revival, forced settlement, and whole runs of them |
| `Vesting.dfy`, `CoreLedger.dfy`, `Votes.dfy` | value over time: vesting balances, the core supply across budget periods, votes against locked stake |
| `WitnessSchedule.dfy`, `Irreversible.dfy`, `Synopsis.dfy` | slots and turns, the last irreversible block, and the exchange of a synopsis and its reply |
| `MemberIndex.dfy`, `AmountText.dfy` | the account membership maps against a scan, and printing and parsing amounts |
| `Sums.dfy`, `Money.dfy`, `Options.dfy` | totals, amounts and prices with the source's rounding, optional values |

Objects that the source updates in place are classes whose `Valid()` is the invariant and whose methods are proved
against functions of the old state; a class invariant therefore holds after every run of its methods. A coin, with
its orders, positions and balances spread over a dozen tables in the source, is one value (`SmartCoin.Coin`) that the
class `CoinMarket` holds and replaces. An operation that throws leaves the state as it was, as the undo log does for a
failed transaction.

## Assumptions

- An amount times a price is the product rounded down, checked against the largest amount
  (`libraries/chain/protocol/asset.cpp:76-93`); prices compare by cross multiplication.
- A block's number is its parent's plus one; an id carries the number and determines the parent.
- Ids are handed out by one counter for each index.
- Applying a block is a deterministic function of database and block (`ChainDatabases.Rules`).
- The call-price formula is any function of debt, collateral and maintenance ratio (`SmartCoin.Terms.callPrice`).
- Times are unbounded seconds and never run backwards; share amounts are unbounded integers except where a check of the
  source against its largest amount or 64 bits is modelled.

## What the proofs bring out

- Starting an undo session drops the layer of a session that is still open exactly when both the stack and the open
  sessions exceed the maximum size (`UndoLog.StartKeepsLiveLayers`). Edits behind a disabled log are harmless exactly
  when the top layer already covers them (`UndoLog.UntrackedEdit`).
- In a failed fork switch the fork database's head is set to the old branch before the bad blocks are popped, so those
  pops walk the old branch's ancestors; `ChainDatabases.Sticks` is the exact condition for getting stuck. With a branch
  one block longer, the only kind met while head and chain are in step, it cannot hold while the last irreversible block
  stays at or below the common ancestor (`ChainRuns.PushRemembered`); with longer ones it can, and nine pushes onto an
  empty chain lead there (`ChainRuns.GetStuck`).
- After a completed switch the fork database's head is not its highest block until the next block extends the chain
  (`ChainDatabases.SwitchLeavesHeadBehind`, `ChainRuns.PushInStep`). After a rejected block the head is one that was
  erased; pushing the tip again then erases the tip as well, with two named exceptions (`ChainRuns.HeadIsErased`).
- In the margin-call loop the flag for a filled order is never reset, so after the first order is used up every order
  that fills a position is passed over; and when an order is culled while that flag is still clear, the loop's iterator
  is left on a removed order. `MarginCalls.Strands` and `MarginCalls.Outlives` are the exact conditions, with an input
  for each (`StrandedBook`, `PassedOverBook`). The first cannot hold when every order asks at least one unit for each
  unit it sells.
- A position can lose all its collateral to rounding inside that loop, but the next black-swan test then always fires, so
  no position without collateral survives a call, and forced settlement always finds a position to match unless a debt
  exceeds the largest amount (`ForcedSettlement.PassFails` states exactly when not, `ForcedSettlement.DryRequest` is an
  input).
- Processing bids throws when the settlement price has a zero fund, since it multiplies by that price first
  (`CollateralBids.BidsThrow`); an accepted global settlement can leave such a price (`CoinMarkets.EmptyFund`).
- An account's votes count only once they are recounted together with a lock. Votes an account is created with, or gets by
  an update without a lock, escape that: `Votes.StaysCounted`, `Votes.ReplacedCounted` and `Votes.NewlyCounted` say exactly
  when totals stay right, and `Votes.CreatedVoting` is an input for which they do not.
- When two workers end in one period only the first is completed, and the other one sets a settlement time in the past in
  the next period, which throws (`CoreLedgers.PaidBackwards`, `CoreLedgers.PassedOverThrows`).
- Undoing the removal of an account leaves the membership maps without it (`MemberIndexes.MemberIndex.PutBack`).
- A linear vesting balance would accept deposits, against its documentation. From the cliff on, its assertion that the
  amount withdrawn so far is not negative then fails exactly when more was deposited than withdrawn
  (`Vesting.DepositsCount`, with the input `Vesting.LinearDeposit`). Only a direct caller of the object gets there: the
  node's two callers pay into coin-day balances (`Vesting.DepositLazily`, and workers, which are created with one).
- Slots carry over from the genesis block exactly when genesis lies on the block interval's grid
  (`WitnessSchedules.OffGridShifts`).
- With destroy workers the core supply can pass the maximum (`CoreLedgers.DestroyedAndPaid`);
  `CoreLedgers.WithinMaximum` states exactly when it does not.
- The parser cuts the whole part of a negative amount one character too late, point included; parsing of the digits
  ignores it (`AmountText.FrontOf`), but refuses a minus sign with the point right behind it, and lets a minus sign through
  that is not in front (`AmountText.ReadAsMeant`, `AmountText.MinusInside`).

## Model

| member | source | states |
|---|---|---|
| `UndoLog.UndoneIsBefore` | libraries/db/undo_database.cpp:95-123 | Undoing a layer that is exact for a step gives back the earlier objects and id counters; every object it looks up exists. |
| `UndoLog.RecordedIsDelta` | libraries/db/undo_database.cpp:47-93 | Recording a create, modify or remove keeps the top layer exact for everything since it was opened, and a removed object is never recorded as removed twice. |
| `UndoLog.MergeTable` | libraries/db/undo_database.cpp:138-178 | For two exact layers the cells of the 4x4 merge table marked N/A cannot occur, and the merged layer's cell is the one the table gives for the two. |
| `UndoLog.MergedIsDelta` | libraries/db/undo_database.cpp:180-243 | The merged layer is exact for the two steps together, for objects and id counters. |
| `UndoLog.MergeComposesUndo` | libraries/db/undo_database.cpp:125-244 | One undo of the merged layer equals undoing the upper layer and then the lower one. |
| `UndoLog.StepStaysFaithful` | libraries/db/undo_database.cpp:33-287 | Every session start, create, modify, remove, undo, merge, commit and pop keeps every layer on the stack exact for the database it was opened on. |
| `UndoLog.UntrackedEdit` | libraries/db/undo_database.cpp:47-51 | An edit made while the log is disabled leaves the kept layers right if and only if the top layer already covers what it changes. |
| `UndoLog.UnwindingRestores` | libraries/db/undo_database.cpp:95-123 | Unwinding down to any layer on the stack restores exactly the database that layer was opened on. |
| `UndoLog.TrimmingKeepsFaithful` | libraries/db/undo_database.cpp:40-41 | Dropping the oldest layers leaves all others exact. |
| `UndoLog.StartKeepsLiveLayers` | libraries/db/undo_database.cpp:33-46 | Starting a session keeps a layer for every open session if and only if the stack is within its size or the open sessions are. |
| `UndoLog.StepKeepsLiveLayers` | libraries/db/undo_database.cpp:95-123 | In guarded runs every open session owns a layer, so undo always finds one. |
| `UndoLog.RunRestores` | libraries/db/undo_database.cpp:33-287 | After every guarded run from a fresh log, unwinding to any layer still kept restores the objects and id counters of the moment it was opened. |
| `UndoRuns.SessionsAreCounted` | libraries/db/undo_database.cpp:33-249 | In every guarded run the open sessions at the end are those at the start plus the starts that pushed a layer, less the undos, merges and commits that went through. |
| `UndoRuns.LastSwitchCounts` | libraries/db/undo_database.cpp:30-44 | In every guarded run the log is switched off exactly after a disable with no enable, forced start or pop since, and its size is the last one set. |
| `UndoRuns.NestedUndoRestores` | libraries/db/undo_database.cpp:33-123 | Sessions nested to any depth the log can hold, each with any edits, can all be undone again, and that gives back the database, the sessions open at the start and their layers. |
| `UndoDatabases.UndoDatabase.OnCreate` | libraries/db/undo_database.cpp:47-59 | The stack after recording a creation is the recorded log step; the first counter value of an index is kept. |
| `UndoDatabases.UndoDatabase.OnModify` | libraries/db/undo_database.cpp:60-72 | The stack after recording a modification is the recorded log step; new and already saved objects are left alone. |
| `UndoDatabases.UndoDatabase.OnRemove` | libraries/db/undo_database.cpp:73-93 | The stack after recording a removal is the recorded log step in each of the four cases. |
| `UndoDatabases.UndoDatabase.Create` | libraries/db/undo_database.cpp:47-59 | A new object gets the next id of its index, the counter moves on, and the state is the log step for it; a missing index fails and changes nothing. |
| `UndoDatabases.UndoDatabase.Modify` | libraries/db/undo_database.cpp:60-72 | Modifying an existing object is the log step for it; a missing object fails. |
| `UndoDatabases.UndoDatabase.Remove` | libraries/db/undo_database.cpp:73-93 | Removing an existing object is the log step for it; a missing object fails. |
| `UndoDatabases.UndoDatabase.StartSession` | libraries/db/undo_database.cpp:33-46 | Trims the stack from the front until it is within its size, pushes an empty layer, and remembers the database it was opened on. |
| `UndoDatabases.UndoDatabase.RollBack` | libraries/db/undo_database.cpp:101-118 | The four loops of undo leave exactly the database the top layer was opened on; no lookup in them fails. |
| `UndoDatabases.UndoDatabase.UndoSession` | libraries/db/undo_database.cpp:95-123 | Restores the database the top layer was opened on and pops that layer; refused when disabled or without an open session. |
| `UndoDatabases.UndoDatabase.PopCommitted` | libraries/db/undo_database.cpp:251-287 | Restores the database before the last committed layer; refused with open sessions or an empty stack. |
| `UndoDatabases.UndoDatabase.CommitSession` | libraries/db/undo_database.cpp:245-249 | Closes a session and keeps its layer; refused without an open session. |
| `UndoDatabases.UndoDatabase.MergeSession` | libraries/db/undo_database.cpp:125-244 | Folds the top layer into the one below, or drops a lone layer; the new state is the log step for merge and later unwinding is unharmed. |
| `UndoDatabases.UndoDatabase.SetMaxSize` | libraries/db/include/graphene/db/undo_database.hpp:129-131 | Only the bound changes; no layer is touched until the next session starts. |
| `UndoDatabases.UndoDatabase.EnableLog` | libraries/db/undo_database.cpp:30-30 | Recording starts: the state is the log step for it, and every layer still restores its own database. A new log starts disabled. |
| `UndoDatabases.UndoDatabase.DisableLog` | libraries/db/undo_database.cpp:31-31 | Recording stops, with nothing else changed. |
| `UndoDatabases.MergeLayers` | libraries/db/undo_database.cpp:180-241 | The loops over old values, new ids, counters and removed objects compute the merged layer. |
| `UndoDatabases.FoldOldValues` | libraries/db/undo_database.cpp:180-197 | Old values of the upper layer are kept only for objects the lower layer neither created nor saved. |
| `UndoDatabases.FoldRemoved` | libraries/db/undo_database.cpp:220-241 | Removed objects of the upper layer cancel a creation, take over a saved value, or are carried down. |
| `ForkDatabases.ForkDatabase.StartBlock` | libraries/chain/fork_database.cpp:47-52 | The block becomes the head; the database stays in order if and only if the block is new and not below any stored block. |
| `ForkDatabases.ForkDatabase.Push` | libraries/chain/fork_database.cpp:58-105 | Too old and unlinkable blocks are refused exactly when the number or parent says so; otherwise the block is stored with its parent, a higher block becomes head, and exactly then nothing numbered below it by more than the size stays stored. Ids and parents stay sound even when the head is a block no longer stored, and a database in order stays in order. |
| `ForkDatabases.ForkDatabase.Prune` | libraries/chain/fork_database.cpp:96-100 | Exactly the blocks below the bound are erased. |
| `ForkDatabases.ForkDatabase.FetchBranchFrom` | libraries/chain/fork_database.cpp:198-240 | Succeeds if and only if the two lines of descent come to build on one block; returns two parent-linked lines from the arguments whose last blocks share a parent, with no higher pair at one height doing so. |
| `ForkDatabases.ForkDatabase.WalkDown` | libraries/chain/fork_database.cpp:213-224 | Follows parents to the other block's height, or finds that the two lines can never meet. |
| `ForkDatabases.ForkDatabase.WalkTogether` | libraries/chain/fork_database.cpp:225-238 | Goes down both lines until their ends share a parent, or finds that they never do. |
| `ForkDatabases.ForkDatabase.SetMaxSize` | libraries/chain/fork_database.cpp:128-157 | Keeps exactly the blocks above the new bound, and the database stays in order. |
| `ForkDatabases.ForkDatabase.PopHead` | libraries/chain/fork_database.cpp:39-45 | The head steps to its parent while that very item is still held, and otherwise the call fails and changes nothing. |
| `ForkDatabases.AncestorsAreKept` | libraries/chain/fork_database.cpp:74-105 | Above the pruning bound every line of descent can be followed to the bound or to a first block. |
| `ForkDatabases.PushedStaysInOrder` | libraries/chain/fork_database.cpp:91-103 | Storing and pruning keep every block above the bound linked to a stored parent, and the head has the greatest number. |
| `ForkDatabases.StartedInOrder` | libraries/chain/fork_database.cpp:47-52 | A starting block tops the index exactly when it is new and no stored number exceeds its own. |
| `ForkDatabases.DeadEnd` | libraries/chain/fork_database.cpp:213-233 | Once a line ends before the lines meet, no pair of ancestors meets anywhere. |
| `ChainDatabases.ChainDatabase.ApplyBlock` | libraries/chain/db_block.cpp:232-238 | An accepted block extends the applied chain and gives the database its edits lead to; a rejected one leaves chain and database as they were. |
| `ChainDatabases.ChainDatabase.PopBlock` | libraries/chain/db_block.cpp:528-544 | Pops one block: the chain loses its last block, the database is the one before it; fails exactly when the undo stack is empty or the fork head has no held parent. |
| `ChainDatabases.ChainDatabase.PopTo` | libraries/chain/db_block.cpp:180-181 | Pops k blocks exactly when k layers and k parents are still there; the chain and database are those of k blocks ago. |
| `ChainDatabases.ChainDatabase.ApplyLine` | libraries/chain/db_block.cpp:183-198 | Applies a line of blocks, oldest first, up to the first rejected one; exactly which that is, which blocks the fork database still stores, and when all layers of the accepted ones are still there. |
| `ChainDatabases.ChainDatabase.SwitchFork` | libraries/chain/db_block.cpp:174-226 | All or nothing: the chain becomes the common prefix followed by the new branch, or chain and database are exactly as before; which of them, or stuck, is decided exactly by what the branches, the log and the fork database hold beforehand. |
| `ChainDatabases.ChainDatabase.BackOut` | libraries/chain/db_block.cpp:199-223 | After a rejected block the old branch is back, with the database it had, if and only if every accepted block of the new branch kept its layers and the old head still has that many ancestors. |
| `ChainDatabases.ChainDatabase.Reapply` | libraries/chain/db_block.cpp:214-221 | Re-applying the old branch cannot be rejected and ends in the database the chain had before. |
| `ChainDatabases.ChainDatabase.PushBlock` | libraries/chain/db_block.cpp:157-249 | For any fork database whose ids and parents are sound, the head erased or not, and sound again afterwards: exactly which outcome a block has, stuck included; unless a switch is tried, exactly the chain, database, log and fork database it leaves. Refusal, ignoring and restoration leave chain and database as they were; getting stuck keeps the common prefix; as long as head and chain are in step a switch is to a branch one block longer, and extending or ignoring keeps them so. |
| `ChainDatabases.ChainDatabase.SwitchTo` | libraries/chain/db_block.cpp:172-226 | A head above the chain's tip starts a switch: refused with nothing changed exactly when the two lines never meet, and otherwise decided as above on the branches found. |
| `ChainDatabases.ChainDatabase.TryBlock` | libraries/chain/db_block.cpp:228-246 | A block that is tried extends the chain or is erased again, with the fork database resized either way. |
| `ChainDatabases.ReplayTop` | libraries/chain/db_block.cpp:214-221 | Applying the last q blocks again from the database q layers back runs through the remembered databases and is never rejected. |
| `ChainDatabases.ReversibleNeverSticks` | libraries/chain/db_update.cpp:99-101 | While the last irreversible block does not pass the common ancestor, a switch to a branch one block longer never gets stuck. |
| `ChainRuns.GetStuck` | libraries/chain/db_block.cpp:157-249 | Nine blocks pushed onto an empty chain with lawful rules whose last irreversible block never passes block 2: the ninth starts a switch and gets stuck. |
| `ChainRuns.LongerBranchSticks` | libraries/chain/db_block.cpp:210-212 | In the state they lead to, the branch is two blocks longer and the last irreversible block does not pass the common ancestor, and still the switch gets stuck. |
| `ChainRuns.RememberedNeverSticks` | libraries/chain/db_update.cpp:99-101 | With log and fork database sized as the chain sizes them, the old branch can be popped, and a switch to a branch one block longer, back to no further than the last irreversible block and not raising it past the common ancestor, never gets stuck. |
| `ChainRuns.NewChain` | libraries/chain/db_block.cpp:157-249 | A new chain reaches down to its last irreversible block. |
| `ChainRuns.PushRemembered` | libraries/chain/db_block.cpp:157-249 | In every run of extending and ignored blocks head and chain stay in step and log and fork database reach down to the last irreversible block; from there a push gets stuck only if the branches fork before that block, or before the first block, or the new branch makes a block past the fork irreversible. |
| `ChainRuns.PushInStep` | libraries/chain/db_block.cpp:157-249 | A switch made in step leaves the head behind the chain with nothing stored above the tip, and the next block that extends the chain brings both in step again. |
| `ChainRuns.TriedNotIgnored` | libraries/chain/db_block.cpp:228-244 | While the head stays on a rejected block above the tip, a block no higher is tried instead of being ignored: it extends the chain only if it builds on the tip, and is otherwise rejected and erased. |
| `ChainRuns.HeadIsErased` | libraries/chain/db_block.cpp:228-244 | After a rejected block, pushing the tip again changes nothing if the fork database keeps one block or lacks the tip's parent; in every other case it erases the tip, and then no block builds on the chain any more. |
| `ChainDatabases.SwitchLeavesHeadBehind` | libraries/chain/db_block.cpp:180-198 | After every completed switch the fork database's head lies below its highest block, by the length of the old branch. |
| `ChainDatabases.OldBranchIsApplied` | libraries/chain/db_block.cpp:177-181 | The old branch found in the fork database consists of the last applied blocks. |
| `ChainDatabases.ApplyAllStops` | libraries/chain/db_block.cpp:184-199 | A rejected block stops the whole branch, whatever follows it. |
| `ChainDatabases.LastEditWins` | libraries/chain/db_block.cpp:232-238 | Of the edits of a block the last one of an object decides what becomes of it. |
| `ChainDatabases.OthersAreKept` | libraries/chain/db_block.cpp:232-238 | Objects no edit of a block touches stay as they are. |
| `LimitBook.MatchIsFair` | libraries/chain/db_market.cpp:317-358 | A match moves equal amounts both ways, never more than either side has, uses up a side, gives the maker at least one unit and less than one unit below its own price; rounding is at the cost of the side used up. |
| `LimitBook.TakerGetsItsPrice` | libraries/chain/db_market.cpp:317-358 | When the orders cross, the taker also receives less than one unit below its own limit price. |
| `LimitBook.MatchNeverOverflows` | libraries/chain/protocol/asset.cpp:76-93 | The two products a match computes never exceed the largest amount, so their range checks never fire. |
| `LimitBook.BestDecides` | libraries/chain/db_market.cpp:279-284 | If the best resting order does not cross the new one, none does. |
| `LimitBook.SweepLaws` | libraries/chain/db_market.cpp:283-290 | The fills of a new order take the best orders in turn, all but the last completely, and stop at the first that does not cross or does not fill up. |
| `LimitBook.FillBoth` | libraries/chain/db_market.cpp:317-358 | One match with both fill_order calls: balances, fees, what is left of the maker, and which sides are done. |
| `LimitBook.MatchOrders` | libraries/chain/db_market.cpp:283-290 | The matching loop performs exactly the sweep of the book and pays all parties for it. |
| `LimitBook.RemainingBook` | libraries/chain/db_market.cpp:402-438 | What is left of the maker side is an ordered book of orders that ask for at least one unit, and none crosses a taker that still has something. |
| `LimitBook.PayMakersSupply` | libraries/chain/db_market.cpp:682-726 | Paying makers adds exactly what they receive, fees included, to the asset they buy. |
| `LimitBook.PayTakersSupply` | libraries/chain/db_market.cpp:402-438 | What makers' orders lose is exactly what the taker, the fees and the refunds of small remainders gain. |
| `LimitBook.OrderMoves` | libraries/chain/db_market.cpp:403-437 | Every account's balance after an order: its seller pays for it and gets what is filled less the fee, makers get what they receive less the fee and back what is too small to rest, nobody else is touched; what is left rests unless it is worth less than a unit. |
| `LimitBook.ApplyOrder` | libraries/chain/db_market.cpp:258-305 | Creating and matching an order keeps both books ordered, uncrossed, with distinct ids and free of orders asking for nothing, and keeps both supplies. |
| `LimitBook.LimitMarket.Place` | libraries/chain/market_evaluator.cpp:44-126 | Every run of placements keeps the book uncrossed and conserves both assets; a valid order is placed exactly unless it is fill-or-kill and would not fill, and a refused one changes nothing. Every account's balance in both assets is accounted for, fill by fill. |
| `LimitBook.LimitMarket.Cancel` | libraries/chain/market_evaluator.cpp:128-162 | Succeeds if and only if the account has an order with this id in the book; the unsold amount comes back to the seller and no other balance changes, the book stays in order, ids stay distinct and supplies are kept. |
| `Money.FeeWithinAmount` | libraries/chain/db_market.cpp:694-726 | The market fee never exceeds the amount it is taken from. |
| `Money.FeeIsGreatest` | libraries/chain/db_market.cpp:694-712 | The market fee is the largest whole amount within both the percentage and the cap. |
| `Money.TimesIsGreatest` | libraries/chain/protocol/asset.cpp:76-93 | An amount at a price is the largest whole amount whose product with the one side is within that of the other. |
| `Money.CreditAt` | libraries/chain/db_balance.cpp:82-122 | Adjusting a balance changes one account by that amount and no other. |
| `Money.PriceTransitive` | libraries/chain/protocol/asset.cpp:43-54 | Comparing prices by cross multiplication is transitive. |
| `SmartCoin.HoldingsWithinSupply` | libraries/chain/asset_evaluator.cpp:523-534 | No account, order or request holds more of the coin than its supply. |
| `SmartCoin.FillCallBooks` | libraries/chain/db_market.cpp:440-497 | Filling a position destroys as many coins as it reduces debt and pays collateral out of it; closing it returns the rest to the borrower. |
| `SmartCoin.FillCallAccounts` | libraries/chain/db_market.cpp:439-492 | Of all accounts only the borrower pays, owes less, and on closing gets the rest of the collateral back. |
| `SmartCoin.FillLimitBooks` | libraries/chain/db_market.cpp:402-438 | Filling an order selling the coin moves coins out and backing in, fees and the refund of a small remainder included. |
| `SmartCoin.FillLimitAccounts` | libraries/chain/db_market.cpp:403-437 | Of all accounts only the seller parts with coins, and gets what is received less the fee. |
| `SmartCoin.FillSettleBooks` | libraries/chain/db_market.cpp:499-532 | Filling a request moves coins out and backing in, fees included. |
| `SmartCoin.FillSettleAccounts` | libraries/chain/db_market.cpp:499-530 | Of all accounts only the owner of the request parts with coins, and gets what is received less the fee. |
| `SmartCoin.CancelSettleBooks` | libraries/chain/db_market.cpp:196-210 | Cancelling a request keeps all books. |
| `SmartCoin.CancelSettleAccounts` | libraries/chain/db_market.cpp:196-210 | A cancelled request goes back to its owner. |
| `SettlementPool.GloballySettle` | libraries/chain/db_market.cpp:47-100 | Succeeds exactly when there was no settlement and no position's debt overflows at the price; the result closes every position at it. |
| `SettlementPool.CloseAll` | libraries/chain/db_market.cpp:72-83 | The loop pays each position's debt at the price or all it has, refunds the rest, and gathers the payments. |
| `SettlementPool.RefundedTotal` | libraries/chain/db_market.cpp:72-83 | Refunds and payments together are exactly the collateral. |
| `SettlementPool.SwanPaysAll` | libraries/chain/db_market.cpp:72-82 | A position pays the most that its debt is worth at the price and its collateral covers. |
| `SettlementPool.SettledAccounts` | libraries/chain/db_market.cpp:56-99 | The fund is the sum of these payments, and every account gets the collateral of its own positions less their payments. |
| `SettlementPool.SettledBooks` | libraries/chain/db_market.cpp:85-97 | No position is left, the supply is unchanged, total collateral is exactly fund plus refunds, and the fund covers the supply exactly at the new settlement price. |
| `SettlementPool.ShareOfFund` | libraries/chain/asset_evaluator.cpp:530-534 | A share of the supply is worth at most that share of the fund, and paying it leaves fund*S0 at least supply*F0. |
| `SettlementPool.SettlementIsPaid` | libraries/chain/asset_evaluator.cpp:495-534 | A settlement succeeds if and only if the account has the amount and the price exists (or, before a swan, forcing is allowed and there is a feed): the check against the fund never fails. |
| `SettlementPool.RequestAccounts` | libraries/chain/asset_evaluator.cpp:518-556 | Before a black swan the account's coins become a request of its own, due after the delay; nobody else is touched. |
| `SettlementPool.ShareAccounts` | libraries/chain/asset_evaluator.cpp:518-545 | After it the account alone gives up coins and gets a share of the fund at the settlement price, rounded down, or all of it for the last coins. |
| `SettlementPool.SettleKeepsBooks` | libraries/chain/asset_evaluator.cpp:518-560 | Each settlement keeps the books and fund*S0 at least supply*F0; the holder gets the rounded-down share, the last one everything left; a request joins the queue by date. |
| `CollateralBids.PlaceBidKeepsBooks` | libraries/chain/market_evaluator.cpp:288-350 | Bidding replaces only the account's own bid, keeps the books, best bids first, and one bid for each account; a bid for no debt only takes the old one back. |
| `CollateralBids.BidTaken` | libraries/chain/market_evaluator.cpp:288-350 | A bid is taken exactly for a settled coin and up to the balance, with collateral for a debt, or with a bid to take back. |
| `CollateralBids.PlaceBidAccounts` | libraries/chain/market_evaluator.cpp:288-350 | Bidding moves an account's own collateral and touches no other account. |
| `CollateralBids.AcceptsExactly` | libraries/chain/db_maint.cpp:610-617 | A bid counts exactly when, with its share of the fund, the inverse of its call price is below the feed. |
| `CollateralBids.PositionIs` | libraries/chain/db_market.cpp:173-193 | The position made of a bid is the bidder's, with the bid's collateral and its share; none but the last is open to a margin call at the feed. |
| `CollateralBids.FindCover` | libraries/chain/db_maint.cpp:608-622 | Finds the least number of acceptable bids, best first, that cover the supply; stops over an amount out of range exactly when the first bid that is not covered and acceptable asks for one. |
| `CollateralBids.SharesFit` | libraries/chain/db_maint.cpp:625-641 | While bids leave debt uncovered, the fund still covers that debt at the settlement price. |
| `CollateralBids.ExecuteBids` | libraries/chain/db_maint.cpp:624-643 | Each bid becomes a position with its debt and its share of the fund; the last one takes whatever is left of both, so that the two checks at the end never fail. |
| `CollateralBids.ProcessBids` | libraries/chain/db_maint.cpp:592-646 | Revives with enough acceptable bids: the positions owe the supply, hold the whole fund, all other bids are returned and the collateral total is unchanged; throws if and only if there is a feed and the fund was empty at settlement or a share is out of range; otherwise says what is missing. |
| `CollateralBids.CancelBidsAndRevive` | libraries/chain/db_market.cpp:130-155 | Every remaining bid is returned, and price and fund are cleared. |
| `CollateralBids.Revive` | libraries/chain/db_market.cpp:102-128 | Succeeds exactly for a settled coin with a feed: the issuer takes over all debt and the whole fund, bids are returned, books are kept; with no supply the check that the fund is empty never fails. |
| `MarginCalls.LeastIsLeast` | libraries/chain/include/graphene/chain/market_object.hpp:176-200 | The first position in an index really has the least key. |
| `MarginCalls.LeastIsOldest` | libraries/chain/include/graphene/chain/market_object.hpp:176-200 | Of equal positions it is the oldest. |
| `MarginCalls.CheckForBlackSwan` | libraries/chain/db_update.cpp:239-298 | Settles at the first position's collateralization exactly when that is no better than the best order and the feed; refuses when swans are not allowed. |
| `MarginCalls.InsolventExactly` | libraries/chain/db_update.cpp:262-283 | The test finds a black swan exactly when the first position could pay its debt neither at the feed nor at the price of any order in the book. |
| `MarginCalls.SwanTakesAll` | libraries/chain/db_update.cpp:283-296 | Settled at its own collateralization the first position gives up exactly its collateral, and no other a larger share of its debt. |
| `MarginCalls.UnsecuredIsInsolvent` | libraries/chain/db_update.cpp:270-296 | A first position that lost all its collateral is a black swan at any price. |
| `MarginCalls.CallFillBooks` | libraries/chain/db_market.cpp:640-673 | A fill of a called position keeps supply equal to debts, conserves the backing asset, and uses up the position or the order. |
| `MarginCalls.CalledExactly` | libraries/chain/db_market.cpp:586-613 | A position is called exactly when an order within the short-squeeze limit and the feed have both come to the inverse of its call price. |
| `MarginCalls.MarginCallMoves` | libraries/chain/db_market.cpp:627-673 | In every margin call the borrower pays the order's seller at the order's price, less the fee, for as much as the smaller of them has; no other account changes. |
| `MarginCalls.TraceKeepsOne` | libraries/chain/db_market.cpp:586-673 | Through all margin calls of a run everybody keeps at most one position, each under an id of its own. |
| `MarginCalls.LimitAfter` | libraries/chain/db_market.cpp:644-673 | Which side is used up, and that orders asking at least one unit for each they sell never leave a remainder too small. |
| `MarginCalls.CheckCallOrders` | libraries/chain/db_market.cpp:545-680 | Terminates; every change is a margin call of the first, solvent position against an order in reach at that order's price, or a swan for a named reason; keeps the books and collateral behind every position; ends with nothing called against the order where matching stopped; throws only for named reasons. Undefined if and only if the book strands; otherwise it stays at the best order if and only if no order outlives a fill made after another was used up, and then does what always trading with the best order does. |
| `MarginCalls.LoopStrands` | libraries/chain/db_market.cpp:644-673 | The loop runs into a removed order if and only if some number of first positions, each solvent, called by the best order and able to pay it, leaves a remainder of it that is worth nothing while fewer do not, and the next position is solvent without it. |
| `MarginCalls.LoopIsIdeal` | libraries/chain/db_market.cpp:584-673 | Otherwise, as long as no order outlives a fill after another was used up, the loop agrees with always trading with the best order; exactly then it passes no order over. |
| `MarginCalls.OneOrderInReach` | libraries/chain/db_market.cpp:562-613 | With a single order in reach of the short-squeeze limit no order outlives such a fill. |
| `MarginCalls.BestOrderCovers` | libraries/chain/db_market.cpp:640-673 | Nor when the best order sells at least all the debt and every order asks at least one unit for each it sells. |
| `MarginCalls.StrandedBook` | libraries/chain/db_market.cpp:664-673 | A sound book with one order and two positions that strands. |
| `MarginCalls.PassedOverBook` | libraries/chain/db_market.cpp:669-673 | A sound book with two orders and two positions in which the second position stays although the passed order still calls it. |
| `MarginCalls.StillCalled` | libraries/chain/db_market.cpp:592-613 | Afterwards a position is still called by the best order only if the loop has passed over every order in reach. |
| `MarginCalls.ReachIsPrefix` | libraries/chain/db_market.cpp:562-575 | With the book in order, which every operation keeps, the orders in reach are exactly a front part of it, as the index bounds assume. |
| `MarginCalls.AdjustedBooks` | libraries/chain/market_evaluator.cpp:201-247 | Borrowing and covering change debt and supply together and only move collateral. |
| `MarginCalls.AdjustedAccounts` | libraries/chain/market_evaluator.cpp:201-247 | The account gets the coins it comes to owe and keeps its collateral as its own; the position's call price is that of its new debt and collateral; no other account changes. |
| `MarginCalls.UpdateCall` | libraries/chain/market_evaluator.cpp:164-286 | Accepted changes keep all books, cause no swan, and leave the account's position closed, bought out, or with a call price whose inverse is below the feed; a closing change, or one that calls nothing and leaves the position safe, is always accepted; undefined if and only if the changed book strands. |
| `ForcedSettlement.CapWithinSupply` | libraries/chain/asset_object.cpp:33-44 | The cap leaves room only while something is still owed. |
| `ForcedSettlement.MaxVolumeIs` | libraries/chain/asset_object.cpp:33-44 | The cap is the share of supply and settled volume that the option allows, rounded down. |
| `ForcedSettlement.MatchBooks` | libraries/chain/db_market.cpp:365-400 | A match keeps the books and leaves every position with collateral; supply falls by what is settled. |
| `ForcedSettlement.AlwaysACall` | libraries/chain/db_update.cpp:433-439 | While the cap leaves room something is owed; with a supply within the largest amount the search then finds a position. |
| `ForcedSettlement.FrontIsLeast` | libraries/chain/db_update.cpp:435-438 | The position found is the least collateralized of those the search can reach. |
| `ForcedSettlement.FrontIsOldest` | libraries/chain/db_update.cpp:435-438 | Of equally collateralized ones it is the oldest. |
| `ForcedSettlement.NoneSkipped` | libraries/chain/db_update.cpp:435-438 | A secured position is out of the search's reach exactly when its debt exceeds the largest amount times its collateral, which takes a supply above the largest amount. |
| `ForcedSettlement.SettleRequest` | libraries/chain/db_update.cpp:421-462 | The loop, which writes the settled volume back only at its end, does exactly what serving the request match by match does. |
| `ForcedSettlement.ServeKeeps` | libraries/chain/db_update.cpp:421-462 | Serving keeps the books, ends with the request gone or the cap reached, touches no other request and never passes the cap; it fails to find a position only over a debt above the largest amount. |
| `ForcedSettlement.ServeMoves` | libraries/chain/db_update.cpp:421-462 | Serving is a list of matches at the given price: the owner of the request gets what they pay less the fees, each borrower pays for what is taken off the debt and gets the rest back on closing; no other account changes. |
| `ForcedSettlement.StepMoves` | libraries/chain/db_update.cpp:353-463 | In every step of the pass these matches are at the feed price less the offset, less than two units below it for a whole request and less than three for a part. |
| `ForcedSettlement.PassKeepsOne` | libraries/chain/db_update.cpp:353-463 | Through the whole pass everybody keeps at most one position. |
| `ForcedSettlement.SameCap` | libraries/chain/db_update.cpp:401-402 | Supply plus settled volume is unchanged by settling, so the cap computed once is the cap throughout. |
| `ForcedSettlement.PassKeeps` | libraries/chain/db_update.cpp:353-463 | For one coin the pass ends with nothing left, nothing due, or no room; volume is at most the larger of its start and the cap; books and date order are kept. |
| `ForcedSettlement.PassFails` | libraries/chain/db_update.cpp:353-463 | The pass throws if and only if it comes to a due request, with room, whose worth is out of range; it finds no position if and only if it comes to one in range whose matches lead to a coin all of whose positions owe more than the largest amount times their collateral. |
| `ForcedSettlement.ServeStarves` | libraries/chain/db_update.cpp:421-462 | The same for the request in front: it finds no position if and only if matches that leave part of it lead to such a coin with room left. |
| `ForcedSettlement.DearRequest` | libraries/chain/db_update.cpp:420-424 | A sound coin and a due request for which the pass throws. |
| `ForcedSettlement.DryRequest` | libraries/chain/db_update.cpp:433-439 | A sound coin and a due request for which it finds no position. |
| `ForcedSettlement.IndexFinds` | libraries/chain/db_update.cpp:331-337 | A search in the one queue ordered by asset and date finds the first request of the first coin from there that has any, and nothing exactly when none has. |
| `ForcedSettlement.IndexIsOrdered` | libraries/chain/include/graphene/chain/market_object.hpp:202-221 | The queue lists requests by asset, then by date. |
| `ForcedSettlement.ClearExpired` | libraries/chain/db_update.cpp:324-463 | The one loop over all assets terminates, by requests, assets and room left; every coin ends exactly as its own pass leaves it, every step being on the first asset not finished; it fails if and only if some coin's pass does, and reports the first. |
| `CoinMarkets.CoinMarket.UpdatePosition` | libraries/chain/market_evaluator.cpp:164-286 | Across every run: supply equals the debts, holdings equal the supply, every position has collateral, nobody has two, and the backing asset is conserved. |
| `CoinMarkets.CoinMarket.CallPositions` | libraries/chain/db_market.cpp:545-680 | Margin calls keep that invariant, including the swan they may cause; the result is exactly that of the loop, undefined if and only if the book strands, and nothing but margin calls and a justified swan happens. |
| `CoinMarkets.CoinMarket.SettleGlobally` | libraries/chain/asset_evaluator.cpp:460-493 | Global settlement is accepted exactly when something is owed, the position the search finds can pay and nothing overflows, and keeps that invariant; undefined exactly when something is owed and the search finds no position. |
| `CoinMarkets.CoinMarket.Settle` | libraries/chain/asset_evaluator.cpp:495-560 | Settling keeps that invariant; after a swan it never fails for want of fund, and the last settler empties the pool. |
| `CoinMarkets.CoinMarket.Bid` | libraries/chain/market_evaluator.cpp:288-350 | Bidding keeps that invariant and the supply, and is accepted exactly as the evaluator demands. |
| `CoinMarkets.CoinMarket.Maintain` | libraries/chain/db_maint.cpp:714-719 | Maintenance resets the settled volume and revives the coin exactly when the best bids that cover the supply can all be accepted: its positions are theirs, the other bids are returned; it throws if and only if there is a feed and the fund was empty at settlement, or the first uncovered bid's share is out of range. |
| `CoinMarkets.EmptyFund` | libraries/chain/db_maint.cpp:599-601 | A sound coin whose accepted global settlement gathers nothing, after which maintenance throws. |
| `CoinMarkets.CoinMarket.PublishFeed` | libraries/chain/asset_evaluator.cpp:602-648 | The result is exactly: nothing for an equal feed, a failure for a settled coin with supply and no fund, otherwise revival where the feed allows it and then margin calls; keeps that invariant. |
| `CoinMarkets.CoinMarket.SettleDueRequests` | libraries/chain/db_update.cpp:324-463 | The pass keeps that invariant and leaves exactly what the pass over one coin leaves; unless the cap is reached no due request is left; it succeeds whenever no due request is too dear and no debt above the largest amount. |
| `CoinMarkets.CoinMarket.RestOrder` | libraries/chain/market_evaluator.cpp:100-118 | An order comes to rest exactly when its seller has the amount; keeps that invariant. |
| `CoinMarkets.RestedPlace` | libraries/chain/include/graphene/chain/market_object.hpp:81-90 | It stands behind exactly those orders whose price is at least as good, and all others keep their order. |
| `CoinMarkets.RestedAccounts` | libraries/chain/market_evaluator.cpp:101-121 | Only the seller's balance pays for the order; everybody has what they had. |
| `CoinMarkets.SameFeedExactly` | libraries/chain/include/graphene/chain/protocol/asset.hpp:203-207 | Feeds are the same exactly when prices and squeeze prices are the same fractions and ratios are equal. |
| `CoinMarkets.PublishedMeans` | libraries/chain/asset_evaluator.cpp:619-645 | A new feed calls the positions of a living coin; the issuer takes over a settled one exactly when nobody holds it or the position would not be called at that feed; without a fund it fails. |
| `CoinMarkets.PaysAtExactly` | libraries/chain/asset_evaluator.cpp:469-477 | A global settlement price is payable exactly when the debt of the position found, at that price, is below its collateral plus one unit. |
| `CoinMarkets.CoinMarket.CancelOrder` | libraries/chain/market_evaluator.cpp:128-162 | Succeeds if and only if the account has an order with this id; exactly that order goes, what it still offers comes back, and that invariant is kept. |
| `Synopsis.SharedPast` | libraries/app/application.cpp:624-629 | Chains whose ids determine their parents share everything before a shared block. |
| `Synopsis.ApartBeyond` | libraries/app/application.cpp:624-629 | Two chains have the same block at a height exactly up to their common prefix. |
| `Synopsis.StepsIncrease` | libraries/app/application.cpp:880-890 | The synopsis numbers start at the low block and strictly increase, none above the high block. |
| `Synopsis.StepsHalve` | libraries/app/application.cpp:880-890 | With no extra ids they end at the high block after floor(log2(high-low+1))+1 numbers. |
| `Synopsis.StepsAreClose` | libraries/app/application.cpp:889-889 | Between neighbouring numbers lies at most half of what remains. |
| `Synopsis.LineIsChain` | libraries/app/application.cpp:818-848 | The line being summarised is a chain, on a fork as well. |
| `Synopsis.LowIs` | libraries/app/application.cpp:786-868 | The low block is the last one that cannot be undone, as far as the line reaches, and at least the first. |
| `Synopsis.GetSynopsis` | libraries/app/application.cpp:777-896 | From the fork database, the chain and a reference block: yields the ids of the summarised line at exactly those numbers, the line being a chain; fails exactly for a reference numbered above the chain, one that is neither on the chain nor on a line meeting it, or a fork older than what can be undone. |
| `Synopsis.Summarise` | libraries/app/application.cpp:777-896 | The same for a given fork history. |
| `Synopsis.BlockIdsOnFork` | libraries/chain/db_block.cpp:124-137 | Fails if and only if the lines of the head and the block never meet; otherwise the ids go down parent by parent from the block to one on the chain. |
| `Synopsis.ForkHistory` | libraries/chain/db_block.cpp:124-137 | The branch found in the fork database, with the common ancestor, leaves the chain exactly there. |
| `Synopsis.WalkUp` | libraries/app/application.cpp:880-890 | The loop collects exactly the ids at the step numbers, from the chain or the fork. |
| `Synopsis.GetBlockIds` | libraries/app/application.cpp:640-689 | Replies with a stretch of the chain from the last recognised id, cut only by the limit, and counts what remains; throws exactly when, from the end, no id is recognised or one that is known but numbered above the chain comes first. |
| `Synopsis.LastRecognised` | libraries/app/application.cpp:663-677 | Where the search from the end of a synopsis ends: at a known id that is on the chain or numbered above it. |
| `Synopsis.KnownIffCommon` | libraries/app/application.cpp:666-671 | The peer recognises a block of the line exactly when it lies in the common part. |
| `Synopsis.Exchange` | libraries/app/application.cpp:640-689 | For chains agreeing through f at or above the low block: the reply starts at the greatest synopsis number at most f, our chain before it followed by the reply is a prefix of the peer's, and the overlap is at most half of the span above it. |
| `Synopsis.SomeBlockIsShared` | libraries/app/application.cpp:654-677 | Such a peer always recognises some block of the synopsis, and answers if and only if every block of it that it knows is numbered within its chain. |
| `Vesting.VestedGrows` | libraries/chain/vesting_balance_object.cpp:37-68 | What has vested never shrinks with time. |
| `Vesting.AllowedIsEarned` | libraries/chain/vesting_balance_object.cpp:111-119 | What may be withdrawn is covered by earned coin-seconds and by the balance. |
| `Vesting.CoinDaysAllow` | libraries/chain/vesting_balance_object.cpp:90-119 | An amount may leave a coin-day balance exactly once claims have started, as far as the balance goes, and when the coin-seconds earned till now cover max(vesting_seconds,1) for each unit. |
| `Vesting.LinearAllows` | libraries/chain/vesting_balance_object.cpp:37-68 | An amount may leave a linear balance exactly from the cliff on, when with all that has left it stays within the starting balance's share for the elapsed time. |
| `Vesting.EarnedTwice` | libraries/chain/vesting_balance_object.cpp:90-109 | Computing coin-seconds in two steps gives the same as in one. |
| `Vesting.UpdateIsInvisible` | libraries/chain/vesting_balance_object.cpp:105-142 | An intermediate update changes neither what is available later nor the outcome of the next operation. |
| `Vesting.Withdraws` | libraries/chain/vesting_balance_object.cpp:207-232 | An allowed withdrawal keeps the accounts; the allowance is between zero and the balance. |
| `Vesting.VestingBalance.Deposit` | libraries/chain/vesting_balance_object.cpp:207-212 | In every run coin-seconds stay within balance*max(vesting_seconds,1) and withdrawn*max(vesting_seconds,1) within the time integral of the balance plus vested credits; linear payouts net of deposits within the vested floor. |
| `Vesting.VestingBalance.DepositVested` | libraries/chain/vesting_balance_object.cpp:214-219 | The same for vested deposits, which a linear balance refuses; defined exactly unless the product of amount and seconds passes 63 bits. |
| `Vesting.VestingBalance.Withdraw` | libraries/chain/vesting_balance_object.cpp:226-232 | The same for withdrawals: allowed exactly up to the allowance, which is never negative. |
| `Vesting.DepositsCount` | libraries/chain/vesting_balance_object.cpp:56-63 | For a linear balance in any run: from the cliff on, the assertion that what was withdrawn is not negative holds if and only if no more was deposited than withdrawn; deposits add to the allowance at once. |
| `Vesting.LinearDeposit` | libraries/chain/vesting_balance_object.cpp:56-63 | A linear balance of five with a deposit of one, for which that assertion fails and the deposit can be taken out with nothing vested. |
| `Vesting.DepositLazily` | libraries/chain/db_balance.cpp:124-177 | The node pays only into coin-day balances of the same length: a linear balance is left as it is and a new one is opened instead. |
| `CoreLedgers.BudgetWithinReserve` | libraries/chain/db_maint.cpp:352-399 | With a reserve there is always a budget, not negative and at most reserve, fees and unused witness budget together. |
| `CoreLedgers.BudgetIsRate` | libraries/chain/db_maint.cpp:352-396 | A period may spend 17 parts in 2^32 of the reserve for each second, rounded up, at most all of it; from an overdrawn reserve nothing, or it throws. |
| `CoreLedgers.SetAsideIs` | libraries/chain/db_maint.cpp:426-456 | Witnesses are paid for every block interval begun, workers for the share of a day, candidates their award, each as far as the budget goes. |
| `CoreLedgers.SetAside` | libraries/chain/db_maint.cpp:434-456 | The three budgets together fit in the total; a shortfall is all the witness budget's. |
| `CoreLedgers.SelectWorkers` | libraries/chain/db_maint.cpp:111-125 | The walk over the index it re-keys: everything in front of the first worker whose time is over is considered, that worker is completed and sets the settlement time, and the rest is passed over; it runs off its range exactly when that worker is not the last one and others were completed before. |
| `CoreLedgers.ActiveIs` | libraries/chain/db_maint.cpp:111-128 | Exactly the workers in front of the first ended one that have begun are paid. |
| `CoreLedgers.RequestedIs` | libraries/chain/db_maint.cpp:134-141 | The pay is the share of the daily pay for the time, rounded down; none can be computed for a negative time or beyond 64 bits. |
| `CoreLedgers.PaidInTurn` | libraries/chain/db_maint.cpp:129-150 | Workers are paid in turn, in full or what is left, and special ones do not use up the budget. |
| `CoreLedgers.PassedOver` | libraries/chain/db_maint.cpp:114-120 | A period leaves a worker behind whose time was over if and only if two were. |
| `CoreLedgers.PaidBackwards` | libraries/chain/db_maint.cpp:114-135 | The next period pays for a negative time if and only if the first worker whose time is over had ended before the last budget; with one end per period it never does. |
| `CoreLedgers.BackwardsThrows` | libraries/fc/include/fc/uint128.hpp:95-99 | Paid for a negative time, the payments fail if and only if some worker at work is special or there is a budget. |
| `CoreLedgers.PassedOverThrows` | libraries/chain/db_maint.cpp:114-137 | Two workers ending in one period: the next period takes a time before the last budget and throws. |
| `CoreLedgers.BudgetIsPaidOut` | libraries/chain/db_maint.cpp:126-147 | What leaves the worker budget is exactly what vesting and burn workers get. |
| `CoreLedgers.PayWorkers` | libraries/chain/db_maint.cpp:126-147 | The loop pays every worker the lesser of its request and the budget; destroy and issuance workers move the maximum instead; it fails if and only if some worker reached has a pay that cannot be computed or would destroy more than the reserve. |
| `CoreLedgers.HandedAt` | libraries/chain/db_maint.cpp:153-240 | Every candidate gets their own payouts. |
| `CoreLedgers.CoreLedger.PayFee` | libraries/chain/account_object.cpp:50-62 | Accepted exactly when the payer has the amount; supply stays equal to holdings, fees and budgets together. |
| `CoreLedgers.CoreLedger.PayWitness` | libraries/chain/db_update.cpp:103-114 | Witness pay keeps that equation, and never exceeds the witness budget. |
| `CoreLedgers.CoreLedger.AddWorker` | libraries/chain/worker_evaluator.cpp:35-102 | Accepted exactly when it begins now or later, ends after that and has a pay in range; it comes last. |
| `CoreLedgers.CoreLedger.PayOut` | libraries/chain/db_maint.cpp:109-148 | Workers and candidates are paid: what leaves the old budgets is exactly what accounts and vesting balances gain. |
| `CoreLedgers.CoreLedger.ProcessBudget` | libraries/chain/db_maint.cpp:404-501 | Every budget period, from any reserve, keeps that equation, ends as decided exactly beforehand, and gives the new supply, maximum, budgets, workers and balances exactly. |
| `CoreLedgers.WithinMaximum` | libraries/chain/db_maint.cpp:466-478 | The supply ends within the maximum if and only if destroy workers took no more than was issued, came back or was left out of the new budgets. |
| `CoreLedgers.MaximumIsKept` | libraries/chain/db_maint.cpp:466-478 | Without destroy workers, and with candidate pay within its budget, the supply never passes the maximum. |
| `CoreLedgers.Overdrawn` | libraries/chain/db_maint.cpp:371-397 | Past the maximum by more than fees and unused budget make good, nothing new is set aside and the supply does not grow. |
| `CoreLedgers.DestroyedAndPaid` | libraries/chain/worker_evaluator.cpp:104-113 | A destroy worker beside a vesting worker leaves the supply above the maximum, and then throws in the next period. |
| `Votes.SortVotes` | libraries/chain/account_evaluator.cpp:99-123 | The loops sort votes into added, changed, cancelled, affected and kept ones. |
| `Votes.Recount` | libraries/chain/account_evaluator.cpp:124-163 | The loop changes exactly the affected candidates, and fails when one does not exist. |
| `Votes.DeltaIsWeight` | libraries/chain/account_evaluator.cpp:60-91 | A candidate's change is the change of the locked stake this account adds to it, less the new lock for a vote kept from before there was one. |
| `Votes.RevotedIs` | libraries/chain/account_evaluator.cpp:305-357 | An update replaces the lock and the votes of one kind and no other; only what a smaller lock sets free leaves the balance. |
| `Votes.RecountIsRight` | libraries/chain/account_evaluator.cpp:60-165 | An update leaves by how much a total is off as it was, except for that lock. |
| `Votes.StaysCounted` | libraries/chain/account_evaluator.cpp:60-165 | Starting from right totals an update leaves them right if and only if stake was locked for the kind before or none of the old votes is kept. |
| `Votes.CreatedVoting` | libraries/chain/account_evaluator.cpp:203-210 | An account created with a vote that then locks ten for it adds ten to no total. |
| `Votes.ReplacedCounted` | libraries/chain/account_evaluator.cpp:317-354 | New options without a lock leave totals right if and only if the votes of every kind with a lock stay the same. |
| `Votes.NewlyCounted` | libraries/chain/witness_evaluator.cpp:50-69 | A new candidate's total is right if and only if nobody with a lock of its kind votes for it already. |
| `Votes.VoteBook.UpdateVotes` | libraries/chain/account_evaluator.cpp:240-355 | Accepted exactly when votes are of one kind and within the limit, stake is locked exactly with votes, all candidates exist, and the balance covers the locks; keeps 0 <= locked <= balance; totals stay right exactly as above, and in runs without unbacked votes always. |
| `Votes.VoteBook.ReplaceVotes` | libraries/chain/account_evaluator.cpp:317-354 | An update without a lock replaces the votes and recounts nobody; exactly when that leaves totals right. |
| `Votes.VoteBook.DropVotes` | libraries/chain/account_evaluator.cpp:256-354 | An update with a lock for nobody drops all votes and recounts nobody; exactly when that leaves totals right. |
| `Votes.VoteBook.AdjustBalance` | libraries/chain/db_balance.cpp:82-122 | A debit is refused exactly when it would leave less than what is locked; totals are unchanged. |
| `Votes.VoteBook.Stand` | libraries/chain/witness_evaluator.cpp:50-81 | Accepted exactly when the balance covers the freeze with all other locks; the candidate starts with its freeze as total, and the freeze is locked. |
| `Votes.VoteBook.Open` | libraries/chain/account_evaluator.cpp:199-238 | A new account has the votes of its options and no locks; totals stay right, but votes are backed only if there are none. |
| `WitnessSchedules.SlotAtIsLast` | libraries/chain/db_witness_schedule.cpp:42-78 | The slot at a time is the last one that has begun. |
| `WitnessSchedules.FirstSlot` | libraries/chain/db_witness_schedule.cpp:42-70 | The first slot begins at the next multiple of the interval after the head block, and skipped intervals later after maintenance. |
| `WitnessSchedules.SlotsCarryOver` | libraries/chain/db_update.cpp:48-86 | After a non-maintenance block at slot s, new slot k has the time of old slot s+k. |
| `WitnessSchedules.OffGridShifts` | libraries/chain/db_witness_schedule.cpp:48-57 | For the first block this holds if and only if genesis lies on the interval's grid. |
| `WitnessSchedules.TurnsCarryOver` | libraries/chain/db_witness_schedule.cpp:34-40 | Without a reshuffle new slot k also has the witness of old slot s+k. |
| `WitnessSchedules.OneTurnEach` | libraries/chain/db_witness_schedule.cpp:34-40 | Any n consecutive slots schedule each of n witnesses exactly once. |
| `WitnessSchedules.ShuffleIsPermutation` | libraries/chain/db_witness_schedule.cpp:100-117 | Whatever the generator yields, the swaps permute the witnesses. |
| `WitnessSchedules.MixedValues` | libraries/chain/db_witness_schedule.cpp:101-110 | Two values of the generator behind the shuffle. |
| `WitnessSchedules.Shuffle` | libraries/chain/db_witness_schedule.cpp:100-117 | The swaps in place give exactly that order. |
| `WitnessSchedules.UpdateSchedule` | libraries/chain/db_witness_schedule.cpp:86-119 | Once every round the order becomes a permutation of the active witnesses, and otherwise stays. |
| `WitnessSchedules.ShuffledIsDistinct` | libraries/chain/db_witness_schedule.cpp:94-116 | A shuffled order names every active witness exactly once. |
| `Irreversible.EnoughRemain` | libraries/chain/db_update.cpp:139-139 | All but the offset are at least the threshold share, and one fewer would not be. |
| `Irreversible.NthIsGreatest` | libraries/chain/db_update.cpp:139-146 | The selected number is the greatest confirmed by all but the offset. |
| `Irreversible.CountOfPermutation` | libraries/chain/db_update.cpp:141-144 | Counting confirmations does not depend on how the witnesses are arranged. |
| `Irreversible.PartitionedIsNth` | libraries/chain/db_update.cpp:141-146 | The element at the offset of a partition is the number counting asks for. |
| `Irreversible.NthElement` | libraries/chain/db_update.cpp:141-144 | The witnesses are permuted and partitioned at the offset. |
| `Irreversible.Update` | libraries/chain/db_update.cpp:123-153 | The last irreversible block never decreases; above its old value it is exactly the greatest number confirmed by the threshold share. |
| `Irreversible.Finality.Apply` | libraries/chain/db_update.cpp:103-154 | Along every chain it never decreases, never passes the head, and is raised only to numbers the threshold share has confirmed. |
| `MemberIndexes.InsertAll` | libraries/chain/account_object.cpp:98-108 | Adds the account under every named member and nowhere else. |
| `MemberIndexes.EraseAll` | libraries/chain/account_object.cpp:116-126 | Removes the account under every named member and nowhere else. |
| `MemberIndexes.Move` | libraries/chain/account_object.cpp:140-205 | Moving between the sets before and after keeps a map in agreement with a scan. |
| `MemberIndexes.Answers` | libraries/chain/account_object.cpp:63-94 | What a map that agrees with the scan answers: the accounts whose owner or active authority, or memo key, names the account, key or address asked for. |
| `MemberIndexes.MemberIndex.Insert` | libraries/chain/account_object.cpp:93-109 | After every run all three maps agree with a scan of all accounts. |
| `MemberIndexes.MemberIndex.Remove` | libraries/chain/account_object.cpp:111-127 | The same after a removal. |
| `MemberIndexes.MemberIndex.AboutToModify` | libraries/chain/account_object.cpp:129-138 | Saves the members the account has before the change. |
| `MemberIndexes.MemberIndex.Modify` | libraries/chain/account_object.cpp:129-205 | The same after a modification. |
| `MemberIndexes.MemberIndex.PutBack` | libraries/db/undo_database.cpp:117-118 | After undoing a removal the map by account agrees if and only if the account names none, and the maps by key and address never do. |
| `AmountText.ScaleLeads` | libraries/chain/asset_object.cpp:163-165 | Adding the scale prints as a one followed by the padded fraction. |
| `AmountText.AmountToString` | libraries/chain/asset_object.cpp:149-169 | Prints sign, whole units and a padded fraction; fails exactly for precisions above 18. |
| `AmountText.AmountFromString` | libraries/chain/asset_object.cpp:94-145 | Scans, splits, pads and adds as the parser specified by its rules; every refusal included. |
| `AmountText.Scan` | libraries/chain/asset_object.cpp:96-116 | Accepts exactly digits with at most one minus sign and one point. |
| `AmountText.Shape` | libraries/chain/asset_object.cpp:160-168 | A printed amount is well formed, with a sign exactly when negative and a point exactly with a fraction. |
| `AmountText.RoundTrip` | libraries/chain/asset_object.cpp:94-169 | Parsing a printed amount returns it, for every precision and every magnitude up to the largest amount, negatives and padded fractions included. |
| `AmountText.ReadAsMeant` | libraries/chain/asset_object.cpp:94-147 | Every text of a sign, digits and perhaps a point and digits is read as the decimal it stands for, except above the largest amount, with too many digits behind the point, or with the point right behind a minus sign. |
| `AmountText.Splits` | libraries/chain/asset_object.cpp:95-116 | Every text the scan lets through is of that form unless its minus sign is not in front. |
| `AmountText.MinusInside` | libraries/chain/asset_object.cpp:122-125 | A text with the minus sign inside that is let through, and read without its first character. |

## Left out

- Contracts and their virtual machine, process-value encryption, context flushing, NFTs, files, world views, crontab and
  temporary authorities.
- Threads, timeouts, signatures, authorities, hashing, serialization, RPC, p2p set-up and genesis loading.
- The block store: which ids are stored under which block during a fork switch, and entries left above the head by popped
  blocks, for which `is_included_block` compares ids instead of throwing.
- Matching of two limit orders in a market with a market-issued asset: `LimitBook` covers pairs without one, and
  `CoinMarkets.CoinMarket` orders that rest; margin calls after an order or a cancellation are a separate operation there.
- Deferred fees of limit orders, contract share fees, and `total_core_in_orders`.
- Expiry of limit orders in `clear_expired_orders`.
- The guards that keep a market-issued asset from being issued or reserved directly (`libraries/chain/asset_evaluator.cpp:179-232`).
- The median feed itself and the short-squeeze price: both are inputs.
- Floating-point shares in `pay_candidates`, in `pay_fee` and in `estimation_gas`: payouts are arbitrary amounts.
- The lists of supporters kept for candidates of interest, and candidates standing down.
- Unique-key collisions inside the multi-index containers.
- Wrap-around of 32-bit block numbers, slots and times.
- What a step does to the state once the source's behaviour is undefined: it is only said exactly when that happens.
- ChainDatabases.ChainDatabase.PushBlock: requires that blocks with equal ids are equal, which the hash promises.
- CoinMarkets.CoinMarket.PublishFeed: feeds whose squeeze ratios differ but give the same squeeze price count as equal.
- CoreLedgers.CoreLedger.PayFee: covers fees in the core asset; others go to a vesting balance and touch no core amount.
- CoreLedgers.PayWorkers: a pay from 2^63 up to 2^64, which the source stores in a signed amount, is kept as it is.
