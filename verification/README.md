# Ledger under forks: a verified model of the taincoin node

This project models the part of the taincoin node that keeps its ledger while branches of the
block tree compete, and proves that its parts stay in agreement:

* the tree of stored blocks with the hash of its top (`Tree`, `Blockchain`);
* the doubly linked index of the primary branch, at the level of the bytes that are stored
  (`Storage`, `LinkIndex`);
* the index of transactions and spends over all branches (`TxIndex`, `Drop`);
* the cache of unspent outputs, updated block by block, undone on a switch of branches and
  rebuilt by a backward scan (`UnspentCache`, `Cancel`, `Switch`, `Reindex`);
* the pool of pending transactions, what may enter it and why anything leaves it (`Pending`,
  `Submission`, `ConflictDetection`, `Retention`);
* the checks of transactions and blocks, their rules in numbers and signatures, and the making
  of a block (`Verification`, `Rules`, `Growth`, `Prepare`, `MakeBlock`);
* the step that drives all of it, the events that change a node, and runs of events
  (`NodeState`, `NodeManager`, `Shortfall`, `Events`, `Runs`, `Indexes`, `Continuation`);
* concrete runs over accepted blocks, for what the code does not keep (`Witnesses`, `Oddities`,
  `Losses`, `StrayLoss`).

On top of these stand theorems about money: when outputs are spent once, how much can exist
(`Supply`, `SupplyBound`), balances and histories (`History`, `PendingBalance`, `PoolBalance`),
and the choice of outputs (`CoinSelection`).  Three smaller cores complete it: the Merkle tree
(`Merkle`), the thousands separators (`Format`) and requests on the wire (`Wire`).

## How to read it

`Ledger` gives the meaning of a chain of transactions twice: `Replay` applies one transaction
after the other to the cache; `Unspent` takes the outputs of a transaction minus the indices
that any input spends.  `Tracks(u, es)` says that a cache holds exactly the unspent outputs of
the chain `es`, compared on transaction, index, value, owner and block.  The sender and the
coinbase mark of a cache record are left out of the comparison because the code computes them
differently where it adds, restores and rebuilds records.

`NodeState.Step` is the relation between two states of a node that one call of `AddBlock`
implements (`NodeManager.AddBlock` is the imperative program and is proved to make exactly such
a step).  `Events.EventStep` adds the other ways in which a node changes: a submitted
transaction (`Submission.ReceivedNewTransaction`), a prepared block
(`Prepare.NodeBlockMaker.PrepareNewBlock`) and a cancelled transaction (`Pending.Delete`).
`Runs.Run` is any sequence of events from the genesis block.  Safety over whole runs is proved on
`Run`, and that of the indexes on the wider `Indexes.StoreRun`; `Continuation` shows that every
run can go on with every proper block.

What the code relies on without checking is stated as preconditions.  `NodeState.Shaped` is what
every theorem about a given block asks for: a hash of the common length that is not all zero, a
height one above the parent's, ids that are not empty.  Ids are plain fields that nothing
recomputes, and `VerifyBlock` does not look for a transaction that is listed twice.  The step
theorems (`NodeManager.AddBlock`, `NodeState.StepCache`, `Runs.NextExact`) and `Indexes` cover such
blocks as well.  The other run theorems are about `NodeState.Proper` blocks: ids identify
transactions, and the block repeats nothing (`Growth.Unrepeated`, which can be checked on the block
and its branch).  `Growth.NewIdsExact` proves that for accepted blocks this is exactly what new and
unique ids come from.
Hashes are otherwise opaque; key hashing, signatures and the hash of the proof of work
are parameters (`Structures.Crypto`); amounts are reals.

## Where the code does less than it seems to

* `CheckBlockIsInRange` ends by comparing heights.  A block of a third branch can pass for one
  on the branch (`Branches.Stray`); `Branches.RangeExact` says exactly when the answer is right.
* `UpdateOnBlockCancel` stops at the first input that the previous block's branch does not hold,
  so an input from the same block keeps later inputs from being restored.
* Because of both, undoing a block does not always restore the cache.  `Cancel.CancelExact` and
  `Switch.SwitchExact` give the exact conditions, `Runs.RunExact` lifts them to runs, and
  `Runs.RunReplays` proves the intended property from conditions that are easy to see.  What
  undoing loses is missing, never too much (`Runs.RunNeverOverstates`).
  `Losses.SameBlockInputRun` and `StrayLoss.StrayRun` are runs of accepted blocks, one for each
  cause, that end with an output lost.  (These runs and those below take signatures and proofs
  of work for granted, `Witnesses.Lenient`; the trees and payments are what matters.)
* `VerifyBlock` compares neither the inputs of two transactions of a block nor, when they are on
  the chain, two inputs of one transaction.  `SupplyBound.AcceptedSpends` shows that this is the
  only way in which accepted blocks can spend an output twice, and `Oddities.DoubleSpendRun`
  that one accepted block does it.
* `VerifyBlock` accepts a transaction without inputs and outputs (`Growth.EmptyTx`).  The
  rebuilding scan and the reading of pending balances panic on its missing first input, exactly
  when there is such a transaction (`Reindex.FindunspentTransactions`,
  `PendingBalance.GetPreparedBy`); `Oddities.EmptyTxRun` is a run that puts one on the primary
  branch.
* Submitted again, such a transaction enters the pool although the primary branch holds it
  (`Oddities.EmptyTxReturns`).  `Events.SubmitClear` and `Runs.RunClear` show that nothing else
  does.
* When the proof of work runs out of nonces, `Run` returns the last nonce with the hash of the
  one before it.
* An accepted block may list a transaction again: a payment of its own, a coinbase of its
  branch, or a payment without inputs.  Adding it overwrites the record of the first listing, so
  an output that was spent comes back.  `Ledger.ReplayExact` and `Runs.NextExact` say exactly when that makes the
  cache wrong, and `Oddities.RepeatRun` is one accepted block that does it without any switch.
* `BlockRemoved` drops the spend records of an output whichever block wrote them
  (`Drop.SpendsRestored`).
* `GetBranchesReplacement` reads the base block before it looks at the error, so its callers
  must pass stored blocks above the genesis block; `NodeManager.SwitchStarts` shows they do.
* `Validate` checks that the proof of work is below the target, not that the block bears that
  hash.  The comment of `DeleteBlock` disclaims that the top stays highest, and the model follows.

## Model

| member | source | states |
|---|---|---|
| `Runs.RunExact` | node/nodemanager/node.go:374-428 | In every run of given blocks that repeat nothing, submitted and cancelled transactions and prepared blocks from the genesis block on, in any order, the cache is the unspent outputs of the primary branch in every state if and only if every switch of the run is harmless, that is, every output whose record the cancels lose is spent on the new branch |
| `Runs.NextExact` | node/nodemanager/node.go:374-428 | Whatever block of the right shape a run is given next, repetitions included: a right cache stays right if and only if no output that was spent comes back by a transaction listed again, and a switch is harmless |
| `Runs.RunNeverOverstates` | node/transactions/unspent.go:461-634 | In every state of every run, whatever undoing has lost before, the cache holds nothing but outputs that are unspent on the primary branch |
| `Shortfall.StepWithin` | node/transactions/unspent.go:461-634 | Every step over a block that repeats nothing leaves of each record the unspent outputs in order, but for some that are lost |
| `Runs.RunReplays` | node/nodemanager/node.go:374-428 | When at every switch no side branch starts below the fork and same-block inputs come last on the old branch, the cache agrees on every output (value, owner, place, block) with replaying all blocks from genesis to the top |
| `Runs.RunKeepsState` | node/nodemanager/node.go:374-428 | Every state of every run over blocks that repeat nothing, submissions and preparations included, has a well-formed tree, a highest top, exact indexes, sound branches, a cache of nothing but unspent outputs, and a pool keyed by id in which no two transactions share an input |
| `Runs.RunClear` | node/transactions/pending.go:304-398 | In a run whose submissions use ids that stand for one transaction each, whatever the cache has lost, the pool holds no transaction of the primary branch in any state if and only if no event submits a payment without inputs that this branch holds already |
| `Events.EventKeepsOk` | node/transactions/manager.go:227-259 | Every single event keeps tree, indexes, branches, a cache of nothing but unspent outputs, and the pool without shared inputs; no transaction without an id and no coinbase is ever pooled |
| `Events.MinedRefused` | node/transactions/manager.go:505-531 | A payment of the primary branch that has an input is refused when it is submitted again, whatever the cache has lost |
| `Events.SubmitClear` | node/transactions/manager.go:322-334 | In every state of a run a submission keeps the pool clear of the primary branch if and only if the transaction is not a payment of that branch without inputs |
| `Continuation.StepExists` | node/nodemanager/node.go:374-428 | Every block of the right shape leads every right state to a next one: the step is total, also through a switch |
| `Indexes.RunLinks` | node/database/blockchain.go:208-400 | In every state of every run, whatever the blocks hold and however the checks answer, a hash is linked exactly when it is on the path from genesis to top; prev and next are inverse, genesis alone has no prev and the top alone no next |
| `Indexes.RunKeepsIndexes` | node/transactions/index.go:47-125 | In the same runs the links are those of the path to a highest top, the transaction index lists exactly the stored blocks and spends, and none of its lists is empty |
| `Runs.InitialState` | node/nodemanager/blockchain_create.go:174-223 | Storing the genesis block establishes all invariants of the state, the cache and the pool |
| `NodeManager.AddBlock` | node/nodemanager/node.go:374-428 | For every block of the right shape one call is exactly one step of the state machine: outcome (a panic of the checks told from a refusal), store, top, link index, transaction index, cache and pool after it, including the undo of the old branch and the redo of the new one; a refused block changes nothing |
| `NodeManager.AddFirstBlock` | node/nodemanager/blockchain_create.go:174-223 | From an empty database the state becomes the initial one of a run |
| `NodeManager.CheckBlockState` | node/nodemanager/blockchain.go:148-169 | Tells a known block from one that can be added and one whose parent is unknown |
| `NodeManager.CheckAndStore` | node/nodemanager/blockchain.go:95-127 | The block is stored exactly when it is new, its parent is stored and it passes all checks; otherwise the state is unchanged, and the outcome tells a refusal from a panic |
| `NodeManager.BlockAdded` | node/transactions/manager.go:227-237 | The index gets the block; on top of the chain the pool loses its payments and the cache is its replay |
| `NodeManager.BlockAddedToPrimaryChain` | node/transactions/manager.go:248-252 | The pool loses the block's payments and the cache is its replay |
| `NodeManager.BlockRemovedFromPrimaryChain` | node/transactions/manager.go:255-259 | Payments return to the pool unless they conflict, and the cache is cancelled by one block |
| `NodeManager.CancelOldChain` | node/nodemanager/node.go:404-413 | The loop over the old chain cancels it block by block from its end to the fork |
| `NodeManager.AddNewChain` | node/nodemanager/node.go:414-422 | The loop over the new chain replays exactly the transactions above the fork, in order |
| `NodeManager.SwitchBranches` | node/nodemanager/node.go:396-424 | After a switch cache and pool are those that undoing the old and redoing the new branch give |
| `NodeState.StepKeepsCore` | node/nodemanager/node.go:374-428 | Every step over a block of the right shape keeps tree, links and transaction index, and keeps all branches sound if and only if a stored block has new ids |
| `NodeState.StepCache` | node/nodemanager/node.go:374-428 | Over any block of the right shape a correct cache stays correct if and only if no spent output comes back when the block is appended, and a switch to it is harmless |
| `NodeState.StepPool` | node/nodemanager/node.go:374-428 | Every step over a block of the right shape keeps the pool free of shared inputs and of transactions on the primary branch |
| `NodeState.SimpleIsHarmless` | node/transactions/unspent.go:575-586 | A switch with no branch starting below the fork and with same-block inputs last loses nothing |
| `Growth.AcceptedSound` | node/consensus/manager.go:252-313 | A block that passes the checks, with new transaction ids, continues its branch with unique ids and inputs that spend existing outputs of earlier transactions |
| `Growth.NewIdsExact` | node/consensus/manager.go:284-311 | When ids identify transactions, the ids of an accepted block are new and different if and only if its transactions are pairwise different and neither its coinbase nor a payment without inputs is on the branch already |
| `Growth.AcceptedIsNew` | node/transactions/manager.go:538-619 | A payment with an input that is accepted is not on the branch: its first input would look spent |
| `Growth.EmptyTx` | node/structures/transaction.go:256-328 | A transaction without inputs passes the amount check if and only if it has no outputs |
| `Switch.SwitchExact` | node/transactions/unspent.go:549-634 | After the blocks of a branch were cancelled down to any height and any others added, the cache is that of the new branch if and only if every lost output is spent there and no spent output comes back |
| `Switch.CancelStep` | node/transactions/unspent.go:549-634 | Closed form of what repeated cancelling leaves: the outputs of the shorter branch without those lost to stray records or to inputs the loop did not reach |
| `Switch.CleanSwitch` | node/transactions/unspent.go:549-634 | If every single cancel is clean, a switch loses nothing |
| `Cancel.CancelExact` | node/transactions/unspent.go:549-634 | Cancelling a block turns the cache of its branch into that of its parent's branch if and only if the cancel is clean: no unspent output is hidden by a stray record or spent by an input behind a same-block input |
| `Cancel.SimplyClean` | node/transactions/unspent.go:575-586 | Same-block inputs last and no third branch below the fork suffice for a clean cancel |
| `Losses.SameBlockInputLoses` | node/transactions/unspent.go:582-586 | On a concrete tree of accepted blocks an input from the same block comes first, cancelling stops there, and the output of the earlier block stays lost, whatever the index holds |
| `Losses.SameBlockInputRun` | node/nodemanager/node.go:374-428 | A run of three accepted blocks whose last one switches branches: the cache is right before and wrong after it, because of that input |
| `StrayLoss.StrayLoses` | node/blockchain/manager.go:945-969 | On a concrete tree of accepted blocks a block of a third branch, at a height between, makes an output look spent and a switch loses it, whatever the index holds as long as it is exact |
| `StrayLoss.StrayRun` | node/nodemanager/node.go:374-428 | A run of five accepted blocks whose last one switches branches: the cache is right before and wrong after it, because of that block |
| `Oddities.DoubleSpendRun` | node/consensus/manager.go:284-311 | A run of one accepted block after which the primary branch spends an output twice |
| `Oddities.RepeatRun` | node/transactions/unspent.go:461-544 | One accepted block appended on top that lists a payment again after its output was spent: the cache is right before and holds the spent output after it, together with that of the spender |
| `Oddities.EmptyTxRun` | node/transactions/unspent.go:372-452 | A run of one accepted block after which the primary branch holds a transaction without inputs, on which the scan crashes |
| `Oddities.EmptyTxReturns` | node/transactions/manager.go:322-334 | Continued by submitting that transaction again, the run ends with it both pooled and on the primary branch |
| `Ledger.ReplayIsUnspent` | node/transactions/unspent.go:461-544 | Replaying a chain gives exactly, for every transaction, its outputs minus those that inputs spend, in order |
| `Ledger.TracksReplay` | node/transactions/unspent.go:461-544 | Adding further transactions to a correct cache gives the correct cache of the longer chain |
| `Ledger.CoinsAfterReplay` | node/transactions/unspent.go:461-544 | What replaying any list leaves of a transaction, ids repeated or not: all outputs of its last listing without those spent after that |
| `Ledger.ReplayExact` | node/transactions/unspent.go:461-544 | Whatever is added to a correct cache, it stays correct if and only if no output that was spent comes back |
| `Ledger.CoinsAfterTx` | node/transactions/unspent.go:470-538 | One transaction removes the outputs it spends, adds its own, and touches no other record |
| `Ledger.RecordWritten` | node/transactions/unspent.go:524-538 | All fields of the records that adding a transaction writes, the sender being the owner of the key of the last input |
| `Ledger.ReplayedEmpty` | node/transactions/unspent.go:505-516 | A record that runs empty is deleted: an empty record was there before or belongs to a transaction without outputs |
| `UnspentCache.UpdateOnBlockAdd` | node/transactions/unspent.go:461-544 | The bucket becomes the replay of the block's transactions |
| `UnspentCache.SpendInput` | node/transactions/unspent.go:480-522 | The spent output leaves its record; an empty record is deleted; an unknown transaction is ignored |
| `UnspentCache.UpdateOnBlockCancel` | node/transactions/unspent.go:549-634 | Records of the block's transactions go; records reached by the inputs, up to the first that is not found, become what the index gives under the previous block; all others stay |
| `UnspentCache.RestoreInput` | node/transactions/unspent.go:572-630 | One input: found exactly when its transaction is on the branch, and then its record is rebuilt without spent and stray outputs |
| `UnspentCache.SoundSenders` | node/transactions/unspent.go:592 | On a sound branch every transaction whose record is rebuilt has a first input to read |
| `Reindex.FindunspentTransactions` | node/transactions/unspent.go:372-452 | One scan from the top down crashes if and only if some transaction of the branch has no inputs; otherwise it gives exactly what replaying the branch from genesis gives, and so the unspent outputs |
| `Reindex.ReindexUnspent` | node/transactions/unspent.go:318-366 | Crashes in that case only; otherwise the rebuilt bucket holds exactly the unspent outputs of the primary branch and the answer is the number of outputs over all its records |
| `Reindex.CountUnspentOutputs` | node/transactions/unspent.go:289-315 | The number of outputs over all records of the bucket |
| `Storage.Database.AddToChain` | node/database/blockchain.go:208-260 | Each error exactly in its case, otherwise both records are written; an error changes nothing |
| `Storage.Database.RemoveFromChain` | node/database/blockchain.go:263-320 | Only the last block can be removed; its predecessor becomes the last one |
| `Storage.Database.BlockInChain` | node/database/blockchain.go:322-350 | True exactly for linked hashes; the empty hash is an error |
| `Storage.Database.GetLocationInChain` | node/database/blockchain.go:352-400 | Gives prev and next as stored, with zero bytes read as none |
| `LinkIndex.LinksInverse` | node/database/blockchain.go:208-400 | An index of a path is a doubly linked list: prev and next are inverse, only the ends lack one |
| `LinkIndex.RecordBytes` | node/database/blockchain.go:208-260 | The bytes of each record: the hash before and the hash after on the path, zeros for none |
| `LinkIndex.LinkErrors` | node/database/blockchain.go:208-320 | On an index of a path: an unknown hash is not found, one that is not the last has a next or is not the last, and success comes exactly for the last |
| `LinkIndex.AppendLink` | node/database/blockchain.go:208-260 | Linking a new hash to the end of an indexed path succeeds and gives the index of the longer path |
| `LinkIndex.RemoveLast` | node/database/blockchain.go:263-320 | Unlinking the last hash succeeds and gives the index of the shorter path |
| `LinkIndex.AddThenRemove` | node/database/blockchain.go:208-320 | Linking and unlinking restores the records byte for byte |
| `LinkIndex.IndexDeterminesPath` | node/database/blockchain.go:208-320 | An index holds one path only |
| `Blockchain.AddBlock` | node/blockchain/manager.go:54-156 | The outcome by cases, the new store and top; the link index follows the top and the top stays highest |
| `Blockchain.UpdateChainOnNewBranch` | node/blockchain/manager.go:162-245 | Terminates, no link operation fails, and the link index moves from the path to the old top to the path to the new one |
| `Blockchain.SwitchIsOneLonger` | node/blockchain/manager.go:119-140 | A switch happens only to a branch exactly one block longer than the old one |
| `Blockchain.DeleteBlock` | node/blockchain/manager.go:256-296 | The top block leaves the store and the link index and its parent becomes the top; a chain of the genesis block alone ends without a top |
| `Blockchain.DropUndoesAppend` | node/blockchain/manager.go:256-296 | Appending a block to the top and deleting it restores the store, the top hash and the link index byte for byte |
| `Blockchain.GetSideBranch` | node/blockchain/manager.go:585-686 | Fails exactly for unknown or genesis blocks; otherwise returns the fork block, the side path downwards and the main path upwards, both without it |
| `Blockchain.BaseIsDeepestCommon` | node/blockchain/manager.go:585-686 | The fork block is on both branches and every block on both is an ancestor of it |
| `Blockchain.GetBranchesReplacement` | node/blockchain/manager.go:696-721 | Nothing when the side block is on the branch of the tip, else both parts above the fork |
| `Blockchain.ChooseHashUnderTip` | node/blockchain/manager.go:744-873 | Returns a listed hash on the branch of the tip, and none only when no listed hash is on it; fails only for an unknown tip |
| `Blockchain.CheckBlockIsInRange` | node/blockchain/manager.go:876-972 | The answer in all cases, and failure exactly where a block cannot be loaded |
| `Branches.RangeExact` | node/blockchain/manager.go:945-969 | The answer agrees with walking parent links from top to bottom if and only if the block is no stray: off the branch, but at a height between the bottom and the fork |
| `Branches.ChainBlockIsNoStray` | node/blockchain/manager.go:945-969 | A block of the indexed chain is never a stray |
| `Blockchain.BlockchainIterator.Next` | node/blockchain/iterator.go:41-66 | Returns the current block and moves to its parent; an unknown hash gives nothing and stays |
| `Structures.ReverseInPlace` | node/structures/block.go:39-63 | Reverses a slice in place |
| `Tree.PathsMeet` | node/blockchain/manager.go:640-680 | Two branches agree at a height exactly below their fork: they never meet again |
| `Tree.Extend` | node/blockchain/manager.go:54-118 | Storing a block under a stored parent keeps all paths and adds one |
| `TxIndex.BlockAdded` | node/transactions/index.go:47-125 | Every transaction gets the block hash and every input a record of its spend |
| `TxIndex.IndexingKeepsMatch` | node/transactions/index.go:47-125 | The index stays exact over all stored blocks of all branches |
| `TxIndex.IndexedSpends` | node/transactions/index.go:47-125 | The records that a block adds are exactly those of its inputs, each with output, spending transaction, position of the input and block, behind the records there were |
| `TxIndex.FilterOutputsSpent` | node/transactions/index.go:398-422 | Keeps exactly the records whose block is answered to be in range |
| `TxIndex.GetTranactionOutputsSpent` | node/transactions/index.go:366-396 | The outputs spent on the branch, and those of stray records |
| `TxIndex.GetTransactionAllInfo` | node/transactions/index.go:425-466 | Finds the transaction exactly when the branch holds it, with its block, and the outputs spent there up to stray records |
| `TxIndex.GetTransactionFromBlock` | node/blockchain/manager.go:300-315 | Finds the first transaction of that id in the block, and fails exactly when the block is unknown or holds none |
| `Drop.BlockRemoved` | node/transactions/index.go:138-231 | Drops the block hash and every record of the outputs the block spends, whichever block wrote it; empty lists are deleted |
| `Drop.SpendsRestored` | node/transactions/index.go:138-231 | Indexing and removing a block restores the spend records if and only if no other block recorded a spend of the same outputs |
| `Drop.AppendThenDrop` | node/blockchain/manager.go:256-296 | Appending and dropping restores store, top, link index and block lists exactly, and the spend records exactly under that condition |
| `Verification.VerifyTx` | node/structures/transaction.go:256-328 | Accepts exactly: existing sources, owner's key and signature for each input, no output below the smallest unit, totals that differ by less; a coinbase exactly with one output of the reward; of an accepted payment every signature verifies for the owner of the key |
| `Verification.CheckInputsWereBefore` | node/transactions/pending.go:62-101 | Fails exactly when an input repeats or its transaction is not listed before; otherwise adds the first listed one |
| `Verification.InputsState` | node/transactions/manager.go:538-619 | Fails exactly when an input looks spent on the branch; otherwise splits inputs into found and missing |
| `Verification.VerifyTransaction` | node/transactions/manager.go:186-209 | Accepts exactly the transactions whose inputs are unspent on the branch or come from transactions before, with correct amounts and signatures |
| `Verification.VerifyBlock` | node/consensus/manager.go:252-313 | Accepts exactly: proof of work, count limits, one coinbase, every transaction accepted after the ones before it; panics exactly when the first transaction that is not accepted reads beyond a list |
| `Rules.BlockRules` | node/consensus/proofofwork.go:24-46 | In numbers, a block is accepted exactly when: the number of its proof of work is below 2^240, from height 1000 on below 2^232; it has at least one payment, at least as many as its height or 1000, at most 10000; one transaction is a coinbase; each transaction is accepted after those before it |
| `Rules.AcceptedSigned` | node/structures/transaction.go:285-309 | Every payment of an accepted block names the key of the owner of each output it spends and carries a valid signature of that owner; each output is there, on the branch or before it in the block |
| `Rules.RunSigned` | node/structures/transaction.go:285-309 | In every state of every run that holds for every payment of every stored block above the genesis block |
| `Rules.QuickSigned` | node/transactions/manager.go:505-531 | It holds for a submitted payment that passes the quick check, with outputs of the cache or the pool |
| `Rules.AcceptedAmount` | node/structures/transaction.go:256-328 | An accepted coinbase has one output of 10 coins; of an accepted payment no output is below 0.00000001 and the totals differ by less |
| `Rules.AcceptedInputs` | node/transactions/pending.go:62-101 | An accepted payment spends nothing that its branch has spent, and no output from its own block twice |
| `Pending.DetectConflictsForNew` | node/transactions/pending.go:434-479 | Finds a pooled transaction exactly when one shares an input |
| `Pending.Add` | node/transactions/pending.go:304-336 | Refuses exactly conflicting transactions and those with an empty id; otherwise pools the new one |
| `Pending.Delete` | node/transactions/pending.go:341-365 | Removes the id and tells whether it was there |
| `Pending.DeleteFromBlock` | node/transactions/pending.go:387-398 | Removes exactly the block's payments |
| `Pending.AddFromCanceled` | node/transactions/pending.go:534-549 | Returns the payments one by one, skipping coinbases and conflicts |
| `Pending.AddKeepsPool` | node/transactions/pending.go:304-336 | Adding keeps the pool free of shared inputs and keyed by id |
| `Pending.RemoveKeepsPool` | node/transactions/pending.go:341-398 | Deleting keeps it so |
| `Pending.CanceledKeepsPool` | node/transactions/pending.go:534-549 | Returning cancelled payments keeps it so, loses no entry and adds only their ids |
| `Pending.CanceledAreAnswered` | node/transactions/pending.go:534-549 | Every returned payment is pooled or shares an input with one that is; no pooled one is lost or replaced |
| `Pending.NothingLost` | node/nodemanager/node.go:404-422 | After a switch every payment of the old branch is represented: it, or one that shares an input with it, is in the pool or on the new branch |
| `Retention.BlockRetains` | node/nodemanager/node.go:374-428 | Whatever block of the right shape is given, for whatever branch: a pooled payment stays in the pool unless a block on the path to the new top holds it, with the same transaction when ids identify, and only payments of blocks that left the path come back |
| `Retention.EventRetains` | node/transactions/manager.go:227-259 | For every event: what leaves the pool was taken by the primary branch, found unfit while a block was prepared, or cancelled; what enters was submitted and passed, or was taken off the primary branch |
| `Retention.PreparedClears` | node/transactions/manager.go:103-164 | Unless checking crashes, a listed transaction that is still pooled after a block was prepared is one that the block takes |
| `Retention.RunRetains` | node/nodemanager/node.go:374-428 | A payment that waits in one state of a run and no longer in a later one has left in between for one of these reasons |
| `Submission.VerifyTransactionsOutputsAreNotSpent` | node/transactions/unspent.go:712-779 | Splits the inputs into those whose output is cached, with the transaction from the block the cache names, and the others; fails exactly when such a block does not hold it |
| `Submission.CheckInputsArePrepared` | node/transactions/pending.go:22-54 | Fails exactly when one of the other inputs repeats a place or its transaction is not pooled; otherwise adds the pooled ones |
| `Submission.VerifyTransactionQuick` | node/transactions/manager.go:505-531 | Accepts and panics exactly: every input from the cache or the pool, no place outside the cache twice, amounts and signatures right |
| `Submission.ReceivedNewTransaction` | node/transactions/manager.go:322-334 | Pools the transaction exactly when it passes, has an id and shares no input with a pooled one |
| `ConflictDetection.DetectConflicts` | node/transactions/pending.go:487-531 | Splits the list by whether all inputs of a transaction are unused so far |
| `ConflictDetection.GoodIsDistinct` | node/transactions/pending.go:487-531 | The kept transactions use no output twice |
| `ConflictDetection.KeptWhole` | node/transactions/pending.go:487-531 | The list is kept whole if and only if its inputs are pairwise distinct |
| `ConflictDetection.SplitInOrder` | node/transactions/pending.go:487-531 | Both parts follow the order of the list and every position is in exactly one |
| `ConflictDetection.AsideForReason` | node/transactions/pending.go:487-531 | A transaction is put aside only when two of its inputs are at one place, or one at a place that a transaction listed before it uses |
| `Prepare.GetTransactions` | node/transactions/pending.go:252-287 | Different pooled transactions, as many as asked for if there are, by rising time; when children are later than their pooled parents, each parent before its child |
| `Prepare.GetUnapprovedTransactionsForNewBlock` | node/transactions/manager.go:103-164 | Exactly the conflict-free part of those pooled transactions that pass, each verified after the ones that passed before it; rejected and conflicting ones leave the pool; fails exactly when none passes |
| `Prepare.Run` | node/consensus/proofofwork.go:73-101 | The first nonce whose number is below 2^240, or below 2^232 from height 1000 on, with that hash; or the last nonce with the hash of the one before it |
| `Prepare.MadeIsReady` | node/consensus/manager.go:205-239 | A block made on the top, one higher, of the payments in their order and a coinbase of the reward at the end, meets every rule of VerifyBlock but the proof of work, if the payments are accepted and within the limits |
| `Prepare.NodeBlockMaker.DoPrepareNewBlock` | node/consensus/manager.go:114-160 | Nothing happens while the pool is too small; otherwise a panic exactly when checking one of the chosen transactions panics, an error exactly when too few of them remain, else the prepared block holds exactly those that remain |
| `Prepare.NodeBlockMaker.PrepareNewBlock` | node/consensus/manager.go:33-59 | An error without any change when a block is prepared already, nothing while the pool is too small, else the outcome of preparing |
| `Prepare.PreparedIsReady` | node/consensus/manager.go:114-160 | With a pool without shared or repeated inputs and coinbases, the prepared block keeps all that passed and meets every rule of VerifyBlock but the proof of work |
| `Prepare.NodeBlockMaker.CompleteBlock` | node/consensus/manager.go:164-201 | Only nonce and hash change; the hash is that of the nonce, at the last nonce that of the one before; if the chain has not moved and Run stops early, the completed block is accepted by VerifyBlock |
| `Prepare.CleanDistinct` | node/transactions/pending.go:487-531 | Transactions of a pool without shared or repeated inputs have pairwise distinct inputs |
| `MakeBlock.TryToMakeBlock` | node/nodemanager/node.go:296-369 | A whole try is nothing, or one preparation event followed, when enough transactions pass, by the event of giving the completed block of exactly those to the node; from a clean pool that block always becomes the new top, unless the nonces ran out or its hash is known; if the pool is clear of the branch the block repeats nothing |
| `MakeBlock.TryLimits` | node/consensus/manager.go:316-339 | In numbers: nothing happens while fewer are pooled than the next height, or than 1000; from a clean pool a block is made exactly when that many of the chosen ones pass |
| `Supply.TxMoves` | node/transactions/unspent.go:470-538 | A transaction changes the total, for all or for one owner, by its outputs less the outputs it spends |
| `Supply.CacheTotal` | node/transactions/unspent.go:461-544 | The total of any correct cache is what was received less what was spent along the chain |
| `SupplyBound.AcceptedSpends` | node/consensus/manager.go:284-311 | An accepted block keeps its branch free of double spends if and only if its own inputs spend different outputs |
| `SupplyBound.AcceptedAmounts` | node/structures/transaction.go:312-325 | Accepted blocks keep payments balanced up to less than the smallest unit and coinbases at the reward |
| `SupplyBound.SupplyNear` | node/structures/transaction.go:312-325 | The unspent total differs from ten coins for each coinbase by at most one smallest unit for each payment |
| `SupplyBound.SupplyExact` | node/structures/transaction.go:312-325 | With amounts in whole units the total is exactly ten coins for each coinbase |
| `SupplyBound.RunSupply` | node/nodemanager/node.go:374-428 | Both bounds hold in every state of every run with a correct cache in which no block repeats an output |
| `SupplyBound.RunSupplyAtMost` | node/nodemanager/node.go:374-428 | In every state of every run in which no block repeats an output, whatever undoing has lost, the cache is worth at most ten coins for each block and one smallest unit for each payment, and at most ten coins for each block when amounts are whole |
| `History.GetAddressBalance` | node/transactions/unspent.go:60-82 | The sum over all cached outputs of the address |
| `History.GetAddressHistory` | node/blockchain/iterator.go:69-142 | Crashes if and only if a coinbase of the branch that does not spend from the address has no outputs; otherwise the records of all transactions from the top block down, in order |
| `History.RecordNames` | node/blockchain/iterator.go:85-130 | Whom a record names: the owner of the last output to another, the owner of the last key, the coinbase, or the address itself when no value moved |
| `History.RecordCount` | node/blockchain/iterator.go:96-132 | One outgoing record of what went to others, or two without value, out and in, for a payment to itself; otherwise at most one incoming record |
| `History.OlderRecordsLast` | node/blockchain/iterator.go:69-142 | The history goes from the top down: that of an older block is the end of that of a newer one |
| `History.RecordsInOrder` | node/blockchain/iterator.go:75-131 | Within a block the records follow its transactions |
| `History.HistoryIsBalance` | node/blockchain/iterator.go:69-142 | With exact amounts and one owner of the inputs of each transaction, incoming less outgoing records are the approved balance |
| `History.AcceptedOwned` | node/structures/transaction.go:285-292 | In an accepted transaction each input carries the key of the owner of the output it spends |
| `PendingBalance.GetPreparedBy` | node/transactions/pending.go:110-204 | Crashes if and only if a pooled transaction has no inputs; otherwise gives the inputs signed by the key, the outputs of the pool they leave unused, and those inputs that use no pooled output |
| `PendingBalance.GetInputValue` | node/transactions/unspent.go:85-117 | The value of the cached output at that place, or an error exactly when there is none |
| `PoolBalance.GetAddressPendingBalance` | node/transactions/manager.go:450-498 | Crashes if and only if a pooled transaction has no inputs; otherwise, for a pool that can be put into blocks, what the whole pool adds to the balance |
| `PoolBalance.GetWalletBalance` | node/transactions/manager.go:63-89 | The same crash; otherwise approved is the balance in the cache, total the balance in the cache after the whole pool was applied |
| `PoolBalance.PendingIs` | node/transactions/pending.go:110-204 | Whatever the order in which the pool is read, unused outputs less approved inputs are what the pool adds |
| `CoinSelection.ChooseSpendableOutputs` | node/transactions/unspent.go:120-184 | Exactly the owned outputs not pending, all of them when they miss the amount, else the ascending prefix that reaches it and misses it without its last output |
| `CoinSelection.MostOutputs` | node/transactions/unspent.go:166-180 | No selection that reaches the amount and needs each of its outputs has more outputs than that prefix |
| `CoinSelection.PrefixNeeded` | node/transactions/unspent.go:166-180 | A prefix in ascending order needs every one of its outputs if and only if it misses the amount without its smallest one |
| `Merkle.NewMerkleTree` | lib/utils/merkle_tree.go:20-51 | Pairs only nodes that exist and returns the first node after half as many rounds as there are data |
| `Merkle.RootCoversAll` | lib/utils/merkle_tree.go:36-48 | These rounds bring every leaf under the root: its leaves begin with the hashes of all data in order |
| `Merkle.RootWellHashed` | lib/utils/merkle_tree.go:54-70 | Every inner node under the root holds the hash of the hashes of its children, left before right |
| `Merkle.RootBinds` | lib/utils/merkle_tree.go:54-70 | If the hash is injective on what is hashed, equal roots of lists of equal padded length mean equal padded lists, and conversely |
| `Merkle.LevelShrinks` | lib/utils/merkle_tree.go:36-48 | Every level is even and not empty and loses at least two nodes a round until two are left |
| `Format.FormatLogfmtInt64` | log/format.go:391-396 | For all 64-bit integers, the least one included: a text that denotes the number |
| `Format.FormatLogfmtUint64` | log/format.go:399-401 | The same for all unsigned 64-bit integers |
| `Format.FormatUint64` | log/format.go:403-435 | Digits, commas and sign never leave the 26 bytes and form the separated numeral |
| `Format.FormatLogfmtBigInt` | log/format.go:438-469 | The same for every whole number; the buffer of len+len/3 bytes always suffices |
| `Format.TextGivesNumeral` | log/format.go:391-469 | Removing the commas gives back sign and decimal numeral |
| `Format.TextDenotes` | log/format.go:391-469 | The texts are exactly those that denote the number: a minus in front exactly of negative numbers, digits whose value is the magnitude without leading zeros, below 100000 no comma and from there on one before every group of three digits from the right |
| `Format.RoomLeft` | log/format.go:410-433 | While digits are left there is room for one more byte, and for the sign |
| `Wire.CommandToBytes` | lib/net/network.go:62-70 | Twelve bytes: the command and zeros |
| `Wire.BytesToCommand` | lib/net/network.go:73-83 | The bytes that are not zero |
| `Wire.CommandRoundTrip` | lib/net/network.go:62-83 | The field gives back every command or auth string of at most twelve one-byte characters that are not zero |
| `Wire.LengthRoundTrip` | lib/nodeclient/nodeclient.go:536-546 | The four length bytes give back the length modulo 2^32 |
| `Wire.FrameLayout` | lib/nodeclient/nodeclient.go:522-556 | The layout of a request byte by byte: command and zeros in twelve bytes, each length in four with the lowest byte first, payload, extra data |
| `Wire.DoBuildCommandData` | lib/nodeclient/nodeclient.go:522-556 | Command, both lengths, payload and extra data in this order |
| `Wire.BuildCommandDataWithAuth` | lib/nodeclient/nodeclient.go:511-514 | The extra data is the auth string in a command field |
| `Wire.ReadFromConnection` | node/server/server.go:410-453 | Returns exactly the next bytes and leaves the rest, or fails; it fails only when there are too few bytes or 32 reads in a row gave nothing during the call, and such a pause always makes it fail |
| `Wire.ReadRequest` | node/server/server.go:348-407 | Gives back command, payload and extra data of a frame, and the auth string of a request built with one, and leaves what follows, for every cutting of the stream without too long a pause |

## Left out

- BoltDB files, locks, connections and gob or JSON encoding: a bucket is a map with atomic updates and its values are typed; errors of storage and decoding do not occur.
- ECDSA, SHA-256, RIPEMD and Base58: parameters of the model; an address is represented by the hash of its key.
- Floating-point rounding: amounts are reals, so the bounds on the supply do not cover rounding of float64.
- Command line, daemon, wallet files, timers, peer lists, inventory exchange and the queue in Redis: plumbing with shallow facts only.
- `Node.DropBlock` as a whole: the block is deleted before the filter of spends loads it, so nothing is claimed about the cache there; store, top, link index and transaction index are covered by `Drop.AppendThenDrop`.
- `InitBlockchainFromOther`: it calls the index hook for every block as if it were on top; only `addFirstBlock`, which it shares with `CreateBlockchain`, is modelled.
- `PrepareNewTransaction` and `ExtendNewTransactionInputs`: choosing the outputs and the quick check are modelled, encoding and signing are not.
- `GetNextBlocks`, `GetBlocksShortInfo`, `GetFirstBlocks` and `GetBlockAtHeight`: walks of the kind proved for GetSideBranch, which would only add easy members.
- The rest of the log package: wrappers around the printers modelled here.
- UnspentCache.UpdateOnBlockCancel: the sender and the coinbase mark of restored records are not compared, because the code writes another sender and the mark of the cancelled transaction there.
- PoolBalance.GetWalletBalance: states the pools that could be put into blocks as they are (inputs distinct, resolvable, signed by the owner), which is what adding to the pool is meant to keep.
- Prepare.GetTransactions: the library sort is an insertion by time; among equal times its order is one of those the source allows.
- CoinSelection.ChooseSpendableOutputs: the library sort is an insertion by value, with the same remark.
- Runs.RunExact: like the other theorems on `Run` it ends before a block that repeats a transaction is stored, since verification and undoing are modelled for branches with unique ids; the step over that block is covered by Runs.NextExact, and the indexes by Indexes.RunKeepsIndexes.
- MakeBlock.TryToMakeBlock: validating the minter address and sending blocks and transactions to other nodes are not modelled; the coinbase has an id.
- Pool and cache are read in the order of a set, not in the order of keys of a bucket: contracts do not depend on the order.
- Wire.ReadRequest: commands are one-byte characters; for others the field would not hold the string at all. The pause between two reads is a read that yields nothing, time itself is not modelled.
- Merkle.RootBinds: injectivity is asked for only on the inputs that building the two trees hashes, since no hash of fixed length is injective everywhere.
- Recursion over the loops of a source function is split into several methods where one loop body is a step of its own; the order of operations is that of the source.
