# Relos, verified

Relos replicates a table over a shared log. This project models the parts of it that make replication
correct and proves what they promise, from the quorum protocol at the bottom to the rows a client reads
at the top. `dafny verify dfyconfig.toml` checks all of it.

From bottom to top:

- **NativeLoglet** (`NativeTasks`, `NativeProtocol`, `NativeSafety`, `NativeTheorems`, `NativeCollect`,
  `NativeProgress`). The sequencer and log server tasks are classes; the counting loops of append and seal
  are methods. The protocol is a transition system over one sequencer, any number of servers and any number
  of concurrent append, seal, read, trim and check_tail calls. Messages are delivered in any order, may be
  lost, and a call may be abandoned at any step. The transition system runs the same functions that the
  classes are proved against.
- **Chain and flat log** (`Chain`, `FlatLog`, `LogletSpec`). Segments of global positions and the one
  sequence that a chain of loglets stands for. `LogletSpec` is what the layers above rely on in a loglet;
  NativeLoglet refines it.
- **Reconfiguration** (`Reconfig`, `ReconfigSafety`, `ReconfigTheorems`, `ReconfigProgress`,
  `ReconfigWitness`). Any number of virtual logs share one MetaStore and one set of loglets. A step is one
  await of the source; steps of all calls of all replicas interleave, loglets are sealed from outside, and
  calls fail between any two steps.
  The two reads in which reconfigure looks up version and chain are two steps, and sync_chain creates one
  loglet per step. Joining creates a chain's loglets at once, which nobody can tell from one at a time: a
  loglet that exists and is empty answers like one that does not exist yet.
- **One virtual log** (`MemoryLoglet`, `VirtualLog`, `VirtualLogViews`, `VirtualLogObject`). A virtual log
  over in-memory loglets, with append's retry loop, reconfiguration, reads and trims, answers like one
  sequence with one trim point.
- **Keys and store** (`KeyCodec`, `KeyOrder`, `LocalStore`). A concrete primary-key encoding (bincode layout:
  4-byte little-endian tag, 8-byte little-endian length and integers; lowercase base 16 as in section 8 of
  RFC 4648), the key layout and its order, ordered prefix scan and transactions.
- **Table** (`Table`, `TableReads`). The applicator on the flat store against a map from table names to
  relations.
- **Engine** (`Engine`). The apply loop over a shared log that others append to at any time.
- **Group commit** (`Batching`, `GroupCommit`). The flush loop and the batching applicator.
- **The whole stack** (`EndToEnd`, `DelosTable`, `Stack`). What a replica's store, and so a client, sees is
  the relational database made by the commands of the shared log. `Stack` runs engines and virtual logs in
  one transition system: each engine boots with a virtual log of its own, awaits one call at a time, and
  crashes between any two steps.

## What the code needs, and what happens without it

- *One reconfiguration at a time per virtual log.* reconfigure picks the active loglet first and reads the
  chain and version later, so two overlapping ones in the same virtual log can close a newer segment at an
  older loglet's end. `ReconfigTheorems` assumes the discipline (`Reconfig.Disciplined`); nothing is assumed
  across replicas. `Stack.EnginesAreDisciplined` proves that engines supply it.
  `ReconfigWitness.OverlapLosesEntry` is a run without it in which two appends are both acknowledged at
  position 1, and `ExtensionSafeIff` says exactly which extensions of the stored chain are safe.
- *The factory returns the same loglet for the same id.* This is how `Reconfig.Create` behaves. The factories
  in the repository ignore the id; `VirtualLogObject.TwoFactories` shows two virtual logs over such factories
  that both acknowledge position 1.
- *The initial loglet id is not `loglet-k` with k >= 1.* `Chain.IdsDistinct` proves this is exactly the
  condition under which ids stay distinct.
- *Trims do not pass the tail.* A trim point beyond the tail is not carried over a reconfiguration. The object
  proofs keep the code as it is: the trim point becomes the smaller of itself and the tail.
  `VirtualLogViews.ReconfigureKeepsReadsIff` proves that answers are unchanged exactly when it had not passed
  the tail, and `VirtualLogObject.LostTrim` is a run that shows the loss.
- *Table names without a slash.* Rows of `a/b` lie behind the scan prefix of `a`. `Table.DropSimulatesIff` and
  `TableReads.ScanOwnRowsIff` give the exact condition; `Table.SlashBreaksDrop` is a command sequence that
  shows it is needed. The invariant of stored rows holds for all names.
- *The applicator ignores position and headers*, for batching to preserve meaning. The table applicator does
  (`EndToEnd.TablePayloadOnly`).

The loglet interface documents that all appends after a seal return Sealed. A virtual log offers that
interface, but its append never answers Sealed: `VLog.SealThenAppend` seals and appends, and `VLog.Append`
gives the exact condition under which an append fails. The model follows the code. A trim error of the
virtual log carries a position local to the loglet; the model specifies the kind of the error only.

## Model

| member | source | states |
|---|---|---|
| `NativeTasks.SequencerTask.HandleNextPos` | crates/relos-log/src/native_loglet.rs:46-54 | the handler that hands out positions, proved equal to the transition used by the protocol: next position once, none after a seal |
| `NativeTasks.SequencerTask.HandleSeal` | crates/relos-log/src/native_loglet.rs:55-58 | sealing stops further positions and reports the next one |
| `NativeTasks.SequencerTask.HandleCheckTail` | crates/relos-log/src/native_loglet.rs:59-61 | the next position to be given |
| `NativeTasks.ServerTask.HandleStore` | crates/relos-log/src/native_loglet.rs:149-163 | sealed, occupied or stored, with the tail raised past the position |
| `NativeTasks.ServerTask.HandleRead` | crates/relos-log/src/native_loglet.rs:164-172 | trimmed exactly below the trim point, found exactly if the entry is there, and then that entry |
| `NativeTasks.ServerTask.HandleSeal` | crates/relos-log/src/native_loglet.rs:173-177 | seals and reports the tail |
| `NativeTasks.ServerTask.HandleTrim` | crates/relos-log/src/native_loglet.rs:178-189 | the removal loop leaves exactly the entries from the new trim point on; a smaller point changes nothing |
| `NativeTasks.DecideAppend` | crates/relos-log/src/native_loglet.rs:328-357 | Ok exactly with a quorum of acknowledgements; otherwise Sealed with the last sealed tail exactly if some server was sealed; lost replies count for nothing |
| `NativeTasks.DecideSeal` | crates/relos-log/src/native_loglet.rs:394-422 | Ok exactly with a quorum of replies, and then the maximum of the sequencer's tail and all tails replied |
| `NativeTasks.QuorumIsMajority` | crates/relos-log/src/native_loglet.rs:230-245 | a number of servers is a quorum if and only if it is a bare majority |
| `NativeCollect.AppendCollects` | crates/relos-log/src/native_loglet.rs:328-357 | for any replies, lost ones included, a call of the transition system ends exactly as the counting loop decides, with the last sealed tail in a Sealed answer |
| `NativeCollect.SealCollects` | crates/relos-log/src/native_loglet.rs:394-422 | the same for seal, with the tails it counted and the tail it returns |
| `NativeCollect.MajorityAppends` | crates/relos-log/src/native_loglet.rs:328-357 | a call ends acknowledged if and only if more than half of the servers acknowledged, whatever the others replied |
| `NativeCollect.MajoritySeals` | crates/relos-log/src/native_loglet.rs:394-422 | a seal succeeds if and only if more than half of the servers replied, with the largest of the sequencer's tail and all tails replied |
| `NativeSafety.StepKeeps` | crates/relos-log/src/native_loglet.rs:308-423 | every step of every call, task and message loss keeps the protocol invariant and only adds to the history |
| `NativeTheorems.Agreement` | crates/relos-log/src/native_loglet.rs:149-163 | in every reachable state positions are issued once and acknowledged to one call, no two servers differ at a position, and "already occupied" is never replied |
| `NativeTheorems.QuorumsMeet` | crates/relos-log/src/native_loglet.rs:230-245 | two quorums of n servers share a server |
| `NativeTheorems.QuorumSealSafety` | crates/relos-log/src/native_loglet.rs:308-423 | once a seal has returned, every append that ever returns Ok(pos) was stored by one of the replying servers before that server sealed; pos is below that server's tail, the largest replied tail and the returned tail |
| `NativeTheorems.UnstoredNeverAcked` | crates/relos-log/src/native_loglet.rs:308-423 | a position that no replying server had stored is acknowledged at no time |
| `NativeTheorems.SequencerLeads` | crates/relos-log/src/native_loglet.rs:41-62 | in every reachable state no server's tail passes the sequencer's next position, and a sealed server or a set flag means a sealed sequencer |
| `NativeTheorems.SealIsFinal` | crates/relos-log/src/native_loglet.rs:386-423 | after a seal returned no more positions are ever issued |
| `NativeTheorems.OneFinalTail` | crates/relos-log/src/native_loglet.rs:386-423 | all successful seals, concurrent or repeated, return the same tail |
| `NativeTheorems.NoAppendAfterSeal` | crates/relos-log/src/native_loglet.rs:308-358 | an append begun after a seal returned is never acknowledged |
| `NativeTheorems.StableRead` | crates/relos-log/src/native_loglet.rs:364-374 | a read begun after append returned Ok(pos), once it answers, answers with that entry, or with a trim error if a trim beyond pos has begun; it never finds nothing |
| `NativeTheorems.TrimErrorMeansTrim` | crates/relos-log/src/native_loglet.rs:164-172 | a read answers with a trim error only if a trim beyond its position has begun |
| `NativeTheorems.SealSetsFlag` | crates/relos-log/src/native_loglet.rs:386-423 | once a seal or an append has answered that the loglet is sealed, the fast-path flag is set for ever |
| `NativeTheorems.TailCoversAcked` | crates/relos-log/src/native_loglet.rs:360-362 | a check_tail begun after append returned Ok(pos) reports a tail beyond pos, and never beyond the next position |
| `NativeTheorems.TrimmedStaysTrimmed` | crates/relos-log/src/native_loglet.rs:376-384 | a read begun after a trim returned never answers below the trim point without a trim error |
| `NativeTheorems.ReadsAgree` | crates/relos-log/src/native_loglet.rs:364-374 | two reads of a position never find different entries, acknowledged or not |
| `NativeTheorems.RefinesLoglet` | crates/relos-log/src/native_loglet.rs:308-423 | every step is a step of the abstract loglet: one position issued, sealed, or nothing |
| `NativeTheorems.AnswersLikeLoglet` | crates/relos-log/src/native_loglet.rs:308-423 | what calls return is what the abstract loglet allows: an acknowledged append is held at its position, a seal returned its tail, an append that answers Sealed found it sealed, a reported tail is at most its tail, and an entry read is held |
| `NativeProgress.AppendCompletes` | crates/relos-log/src/native_loglet.rs:308-358 | from every state with the loglet unsealed and a bare majority of servers unsealed, a new append can be acknowledged at the next position, by exactly those servers |
| `NativeProgress.SealedAppendCompletes` | crates/relos-log/src/native_loglet.rs:308-323 | from every reachable sealed state a new append can be told so, with the final tail |
| `NativeProgress.SealCompletes` | crates/relos-log/src/native_loglet.rs:386-423 | from every reachable state a new seal can succeed |
| `NativeProgress.ReadCompletes` | crates/relos-log/src/native_loglet.rs:364-374 | from every reachable state a new read can be answered, at an acknowledged position that no trim asked to pass with the acknowledged entry |
| `NativeProgress.TrimCompletes` | crates/relos-log/src/native_loglet.rs:376-384 | from every reachable state a new trim can succeed, with every server trimmed up to it |
| `NativeProgress.TailCompletes` | crates/relos-log/src/native_loglet.rs:360-362 | from every state a new check_tail can report the next position |
| `Chain.LogChain.constructor` | crates/relos-log/src/chain.rs:23-31 | one open segment from position 1 |
| `Chain.LogChain.Find` | crates/relos-log/src/chain.rs:39-47 | the search loop returns the first covering segment |
| `Chain.LogChain.ExtendWith` | crates/relos-log/src/chain.rs:50-63 | closes an open last segment at the seal position and opens one there |
| `Chain.FindSegmentUnique` | crates/relos-log/src/chain.rs:39-47 | in a contiguous chain every position from 1 on has exactly one covering segment and find_segment returns it, empty segments included |
| `Chain.NothingAtZero` | crates/relos-log/src/chain.rs:39-47 | position 0 lies in no segment |
| `Chain.ExtendPartition` | crates/relos-log/src/chain.rs:50-63 | extending keeps the chain contiguous if and only if the seal position is not before the open segment; the old chain is an older view of the new one |
| `Chain.LogletIdInjective` | crates/relos-log/src/virtual_log.rs:213-215 | different chain lengths give different ids |
| `Chain.LogletIdReads` | crates/relos-log/src/virtual_log.rs:213-215 | an id is the text loglet- and a decimal that reads back as the chain length |
| `Chain.IdsDistinct` | crates/relos-log/src/virtual_log.rs:213-215 | all ids are distinct if and only if the initial id is none of the generated ones |
| `FlatLog.FlatAt` | crates/relos-log/src/virtual_log.rs:202-210 | local position l of a segment is global position start + l - 1 of the flat log |
| `FlatLog.ExtendFlat` | crates/relos-log/src/virtual_log.rs:123-163 | closing the open segment where its sealed loglet ends and opening an empty one changes nothing in the flat log |
| `ReconfigTheorems.StepKeeps` | crates/relos-log/src/virtual_log.rs:57-181 | every step of every replica, with outside seals, lost CAS, failures and stale views, keeps the invariant and only extends the log |
| `ReconfigTheorems.StepAppends` | crates/relos-log/src/virtual_log.rs:57-73 | a step adds at most one entry to the global log, that of the append which took it |
| `ReconfigTheorems.ChainPartition` | crates/relos-log/src/chain.rs:23-63 | in every reachable state the stored chain is contiguous from 1 with only the last segment open, closed lengths equal their sealed loglets' entry counts, ids are distinct, and every replica's chain is an older view |
| `ReconfigTheorems.AckedForever` | crates/relos-log/src/virtual_log.rs:57-181 | an entry acknowledged at g is what g maps to through the newest chain at every later moment |
| `ReconfigTheorems.AcksDistinct` | crates/relos-log/src/virtual_log.rs:57-73 | two acknowledged appends, on any replicas at any times, never have the same global position |
| `ReconfigTheorems.RealTimeOrder` | crates/relos-log/src/virtual_log.rs:57-73 | an append begun when the log has length n is acknowledged beyond n, so after every append acknowledged before it began, on whatever replicas |
| `ReconfigTheorems.StampsAreCalls` | crates/relos-log/src/virtual_log.rs:57-73 | every entry of the log was appended by a call that has begun |
| `ReconfigTheorems.StaleReadsSafe` | crates/relos-log/src/virtual_log.rs:83-97 | an entry read at g through however old a chain is the g-th entry of the log then and ever after |
| `ReconfigTheorems.TailsSafe` | crates/relos-log/src/virtual_log.rs:76-80 | a reported tail never lies beyond the log |
| `ReconfigTheorems.OwnTailCovers` | crates/relos-log/src/virtual_log.rs:76-80 | a tail that a replica reports, to a check begun after that replica acknowledged an append at g, lies beyond g |
| `ReconfigTheorems.CurrentTailCovers` | crates/relos-log/src/virtual_log.rs:76-80 | a tail reported by a replica whose chain was the stored one when the check began lies beyond the whole log of that moment |
| `ReconfigTheorems.OwnReadFinds` | crates/relos-log/src/virtual_log.rs:83-97 | a read of g by a replica that had acknowledged an append at g answers with that entry or a trim error, never with nothing |
| `ReconfigProgress.NewAppendCompletes` | crates/relos-log/src/virtual_log.rs:57-181 | from every reachable state, however old its replica's view and whether or not its loglet is sealed, a new append that runs alone can be acknowledged, and its entry is in the log there |
| `ReconfigProgress.NewTailCompletes` | crates/relos-log/src/virtual_log.rs:76-80 | from every reachable state a new check_tail can report one past what its replica's view shows |
| `ReconfigProgress.NewReadCompletes` | crates/relos-log/src/virtual_log.rs:83-97 | from every reachable state a new read of a position that its replica's view shows can answer with the log's entry there |
| `ReconfigTheorems.SharedLogContract` | crates/relos-log/src/virtual_log.rs:57-97 | for any two moments and all replicas: the log only grows, an append begun at the first is acknowledged at the second beyond what was there with its entry at its position, entries read are those at their positions, and tails do not exceed the log |
| `ReconfigTheorems.FlatInverse` | crates/relos-log/src/virtual_log.rs:202-210 | the loglet that covers g holds, at g's local position, the g-th entry of the log |
| `ReconfigTheorems.RetryRaisesVersion` | crates/relos-log/src/virtual_log.rs:57-181 | whenever an append comes back from a reconfiguration, won or lost, its replica's chain version has strictly risen |
| `ReconfigWitness.ExtensionSafeIff` | crates/relos-log/src/virtual_log.rs:130-141 | installing an extension keeps the chain sound if and only if the last loglet is sealed and ends at the seal position |
| `ReconfigWitness.OverlapLosesEntry` | crates/relos-log/src/virtual_log.rs:123-141 | without the discipline: a run from the initial state in which two appends of one replica are both acknowledged at position 1 |
| `MemoryLoglet.MemLoglet.Append` | crates/relos-log/src/memory_loglet.rs:39-47 | refuses when sealed, otherwise the entry goes to the tail and the history grows by it |
| `MemoryLoglet.MemLoglet.Read` | crates/relos-log/src/memory_loglet.rs:54-65 | trimmed below the trim point, otherwise what was appended there, although trimmed slots were cleared |
| `MemoryLoglet.MemLoglet.Trim` | crates/relos-log/src/memory_loglet.rs:67-80 | raises the trim point only, clears exactly the slots below it and loses nothing from it on |
| `MemoryLoglet.MemLoglet.SealIt` | crates/relos-log/src/memory_loglet.rs:82-86 | seals and reports the tail |
| `MemoryLoglet.MemLoglet.CheckTail` | crates/relos-log/src/memory_loglet.rs:49-52 | one past the entries ever appended |
| `MemoryLoglet.MetaStore.Write` | crates/relos-log/src/metastore.rs:41-49 | compare-and-swap: the chain and version change if and only if the expected version is current |
| `VirtualLog.ReadIsFlat` | crates/relos-log/src/virtual_log.rs:83-97 | reading through the covering segment, trims included, is reading the flat log with one trim point |
| `VirtualLog.ExtendTrims` | crates/relos-log/src/virtual_log.rs:130-152 | a new segment carries the trim point over unless it had passed the tail |
| `VirtualLogViews.ReconfigureGood` | crates/relos-log/src/virtual_log.rs:123-181 | from every good view, whether the CAS wins or is lost to an earlier one whose loglet was never created, one more segment is installed, open, empty and starting at the tail, with the log unchanged |
| `VirtualLogViews.ReconfigureKeepsReadsIff` | crates/relos-log/src/virtual_log.rs:100-163 | a completed reconfiguration keeps the answer to every read if and only if the trim point had not passed the tail |
| `VirtualLogObject.LostTrim` | crates/relos-log/src/virtual_log.rs:100-163 | a run in which position 1 is trimmed beyond the tail, and after a reconfiguration and an append is read again |
| `VirtualLogObject.VLog.constructor` | crates/relos-log/src/virtual_log.rs:35-53 | for any stored chain: that chain with new empty loglets; a first chain gives the empty flat log with nothing trimmed, a longer one gives a view whose closed segments nothing fills |
| `VirtualLogObject.VLog.Append` | crates/relos-log/src/virtual_log.rs:57-73 | for every pattern of outside seals and creation failures the loop ends; Ok carries the flat tail and appends exactly the entry; it fails if and only if some turn is reached, finds the loglet sealed and cannot create the next one, never with Sealed and appending nothing; the version rises by at most one more than the outside seals, and the trim point moves only with it |
| `VirtualLogObject.VLog.SealThenAppend` | crates/relos-log/src/virtual_log.rs:57-73 | an append right after a seal of the virtual log does not answer Sealed: it gets the position that the seal returned |
| `VirtualLogObject.VLog.CheckTail` | crates/relos-log/src/virtual_log.rs:76-80 | one past the flat log |
| `VirtualLogObject.VLog.Read` | crates/relos-log/src/virtual_log.rs:83-97 | the flat log's answer for every position, 0 and positions beyond the tail included |
| `VirtualLogObject.VLog.Trim` | crates/relos-log/src/virtual_log.rs:100-117 | the loop over segments raises the one global trim point and leaves the log alone |
| `VirtualLogObject.VLog.SealActive` | crates/relos-log/src/virtual_log.rs:236-241 | seals the active loglet and returns its global end; without a known active loglet an internal error and no change |
| `VirtualLogObject.VLog.SyncChain` | crates/relos-log/src/virtual_log.rs:167-181 | for any stored chain: adopts it and creates exactly the missing loglets, or stops at the first that cannot be created, keeping those created before and the old chain |
| `VirtualLogObject.VLog.Reconfigure` | crates/relos-log/src/virtual_log.rs:123-163 | success raises the version by one and leaves an empty active loglet at the tail, failure leaves a state from which the next call succeeds; the log never changes |
| `VirtualLogObject.TwoFactories` | crates/relos-log/src/native_loglet.rs:449-452 | with factories that ignore the id, two virtual logs of one MetaStore both acknowledge position 1 and read different entries there |
| `KeyCodec.SerializeInjective` | crates/relos-table/src/applicator.rs:205-215 | different values serialize differently |
| `KeyCodec.HexInjective` | crates/relos-table/src/applicator.rs:205-215 | base 16 loses nothing |
| `KeyCodec.EncodePrimaryKeyInjective` | crates/relos-table/src/applicator.rs:205-215 | different primary-key lists, of any lengths, encode differently |
| `KeyCodec.RowKeyInjective` | crates/relos-table/src/applicator.rs:28-31 | a row key determines its table and primary key, for all names |
| `KeyCodec.SchemaKeyInjective` | crates/relos-table/src/applicator.rs:23-25 | a schema key determines its table |
| `KeyCodec.KeyKindsDisjoint` | crates/relos-table/src/applicator.rs:23-36 | schema, row and cursor keys never coincide, and no scan prefix covers a schema or the cursor |
| `KeyCodec.PrefixCovers` | crates/relos-table/src/applicator.rs:34-36 | the scan prefix of t covers a row of u if and only if u is t or starts with t followed by a slash |
| `KeyOrder.KeysSpelled` | crates/relos-table/src/applicator.rs:23-36 | the fixed parts of schema and row keys, spelled out |
| `KeyOrder.KeyJoined` | crates/relos-table/src/applicator.rs:205-215 | key values are joined by a zero byte |
| `KeyOrder.HexSpelled` | crates/relos-table/src/applicator.rs:205-215 | base 16 is lower case with the high digit first |
| `KeyOrder.CursorSpelled` | crates/relos-engine/src/base_engine.rs:13-13 | the cursor's key, spelled out |
| `KeyOrder.SerializeBack` | crates/relos-table/src/applicator.rs:205-215 | a serialized value reads back as itself, with variants numbered in the order they are declared |
| `KeyOrder.HexKeepsOrder` | crates/relos-table/src/applicator.rs:205-215 | base 16 keeps the order of bytes |
| `KeyOrder.RowOrder` | crates/relos-table/src/applicator.rs:28-31 | rows with one key column sort as their serialized keys do |
| `KeyOrder.ValueOrder` | crates/relos-table/src/applicator.rs:205-215 | false sorts before true, and texts of equal length in byte order |
| `KeyOrder.IntegersOutOfOrder` | crates/relos-table/src/applicator.rs:205-215 | integers do not sort in numeric order: 256 comes before 1 |
| `LocalStore.PrefixBlock` | crates/relos-store/src/memory.rs:140-145 | keys with a common prefix form one block of the key order |
| `KeyOrder.LexByFirstDifference` | crates/relos-store/src/memory.rs:140-145 | the key order is decided by the first difference |
| `LocalStore.ScanExact` | crates/relos-store/src/memory.rs:140-145 | the scan returns, ascending and without repetition, exactly the keys with the prefix |
| `LocalStore.WriteTxn.Put` | crates/relos-store/src/memory.rs:106-109 | changes the working copy only |
| `LocalStore.WriteTxn.Delete` | crates/relos-store/src/memory.rs:111-114 | changes the working copy only |
| `LocalStore.WriteTxn.Commit` | crates/relos-store/src/memory.rs:116-125 | the store becomes the working copy in one step |
| `LocalStore.WriteTxn.Rollback` | crates/relos-store/src/memory.rs:127-132 | the store is not touched |
| `Table.DropSimulatesIff` | crates/relos-table/src/applicator.rs:107-125 | dropping t does to the store what it does to the database if and only if no other table with rows continues its name after a slash |
| `Table.CommandSimulates` | crates/relos-table/src/applicator.rs:89-200 | each command gives the same answer and the related state, errors included |
| `Table.AnswerIff` | crates/relos-table/src/applicator.rs:89-175 | a command is answered Ok if and only if it creates a new table, drops or deletes from an existing one, or puts a row of the right width into one whose key columns exist; it fails if and only if a key column is unknown; otherwise it is refused and changes nothing |
| `Table.RelationalRefinement` | crates/relos-table/src/applicator.rs:89-200 | over every command sequence with slash-free names the flat store and the relational database give the same replies and the same failure and end related |
| `Table.SlashBreaksDrop` | crates/relos-table/src/applicator.rs:107-125 | a command sequence with a slash in a name after which they are not related |
| `TableReads.Get` | crates/relos-table/src/table.rs:64-73 | the row that the database has under the key, or none |
| `TableReads.Scan` | crates/relos-table/src/table.rs:81-92 | the rows behind the table's prefix in key order |
| `TableReads.ScanOwnRowsIff` | crates/relos-table/src/table.rs:77-93 | a scan meets only rows of its own table if and only if no other table with rows continues its name after a slash |
| `TableReads.ScanListsTable` | crates/relos-table/src/table.rs:77-93 | then it lists every row of the table exactly once |
| `TableReads.TableInvariant` | crates/relos-table/src/applicator.rs:55-175 | in every store reached by commands on any names: each row's table has a schema, the row has its width and sits under its own primary key; the only failure is a primary-key column that does not exist |
| `Table.KeyExtracts` | crates/relos-table/src/applicator.rs:55-82 | key extraction on a row of the right width fails if and only if some key column is not in the schema |
| `Table.PrimaryKeyIs` | crates/relos-table/src/applicator.rs:55-82 | the primary key is, in the order in which the key columns are named, the row's value in the first column of each name |
| `TableReads.ExtractPrimaryKey` | crates/relos-table/src/applicator.rs:55-82 | the loop computes the primary key, each value that of the first column with the named name, or the first error |
| `TableReads.DropTableIn` | crates/relos-table/src/applicator.rs:107-125 | deleting scanned rows one by one removes exactly the schema and everything behind the prefix |
| `TableReads.PutIn` | crates/relos-table/src/applicator.rs:127-158 | the put on a transaction is the specified one, and errors leave the transaction as it was |
| `TableReads.ApplyIn` | crates/relos-table/src/applicator.rs:185-202 | the applicator on a transaction is the specified command function; a payload that is no command is a serialization error |
| `Engine.BaseEngine.Recover` | crates/relos-engine/src/base_engine.rs:43-77 | starts at the persisted cursor, refuses one that does not decode, and any store left by an earlier engine gives a valid engine |
| `Engine.BaseEngine.ApplyOne` | crates/relos-engine/src/base_engine.rs:158-180 | it fails if and only if the read failed or found nothing or the applicator refused, with that error and nothing changed; otherwise effect and cursor are committed together |
| `Engine.BaseEngine.HandlePropose` | crates/relos-engine/src/base_engine.rs:111-133 | a successful answer is the result of applying this very entry to the state made by all earlier entries, whatever others append meanwhile; an error is the append's, or that of applying the entry at the cursor before it was reached |
| `Engine.BaseEngine.HandleSync` | crates/relos-engine/src/base_engine.rs:136-152 | it returns the log's tail t with the cursor moved to t, or left where it was beyond t, so the store covers every entry below t; an error is the tail check's, or that of applying the entry at the cursor |
| `Engine.BaseEngine.Serve` | crates/relos-engine/src/base_engine.rs:82-108 | every request is answered once and in order, and successful proposals sit in the log in the order they were made |
| `Engine.ApplyReplayed` | crates/relos-engine/src/base_engine.rs:158-180 | applying the entry at the cursor moves the replayed prefix on by exactly one |
| `Engine.ReplayPasses` | crates/relos-engine/src/base_engine.rs:111-180 | a store is the replay of n entries if and only if it is the last of the states that the applicator passes through, entry i at position i, each with the next cursor committed |
| `Engine.SameCursorSameStore` | crates/relos-engine/src/base_engine.rs:158-180 | stores at the same cursor of the same log are equal |
| `Batching.ApplyBatchIn` | crates/relos-engine/src/batching.rs:236-268 | the loop over a batch on a transaction computes the specified result, malformed batches refused |
| `Batching.BatchIsOneByOne` | crates/relos-engine/src/batching.rs:236-268 | a batch reaches the state, or the first error, of its payloads applied one by one |
| `Batching.BatchReturnsLast` | crates/relos-engine/src/batching.rs:256-262 | a batch returns what its last payload returned, applied to the state that the others reached |
| `Batching.BatchingPreserves` | crates/relos-engine/src/batching.rs:236-268 | for every way of cutting proposals into batches, the batched log reaches the state or the first error of the proposals one by one |
| `Batching.FlushLoop.FlushBatch` | crates/relos-engine/src/batching.rs:136-188 | the whole pending list goes downstream as one batch and each caller in it is answered once |
| `Batching.FlushLoop.Serve` | crates/relos-engine/src/batching.rs:109-131 | what was handled followed by what is pending grows by exactly the request, in order; a batch is sent exactly when full, on a timeout or before a sync, and sizes stay between 1 and the maximum |
| `Batching.FlushLoop.Run` | crates/relos-engine/src/batching.rs:79-133 | at exit the requests handled downstream are exactly those received, in order, so a sync follows every earlier proposal; answer i answers request i, with the result or tail that the downstream engine gave for it; batches that serialize, and only those, were proposed; nothing is pending |
| `Batching.AnswersHandled` | crates/relos-engine/src/batching.rs:109-188 | each handled request is answered once, in the order handled |
| `Batching.AnswersCarry` | crates/relos-engine/src/batching.rs:120-188 | every caller of a batch is answered with the outcome of that batch, every caller of a sync with its tail |
| `GroupCommit.GroupCommitMeaning` | crates/relos-engine/src/batching.rs:136-188 | for every run of the loop, with batches that fail to serialize or whose proposal fails downstream: the entries that ended in the log reach the state, or the first error, that exactly the received proposals of those batches reach one by one, and every proposal answered Ok is among them |
| `GroupCommit.GroupCommitWhole` | crates/relos-engine/src/batching.rs:136-188 | when nothing failed, the entries sent reach the state that all received proposals reach one by one |
| `GroupCommit.ShareIsProposed` | crates/relos-engine/src/batching.rs:136-172 | the entries proposed downstream are the batches in order |
| `EndToEnd.TablePayloadOnly` | crates/relos-table/src/applicator.rs:184-202 | the table applicator looks at the payload only |
| `EndToEnd.CursorInvisible` | crates/relos-engine/src/base_engine.rs:172-175 | writing the cursor does not change what the tables hold |
| `EndToEnd.EntryApplied` | crates/relos-engine/src/batching.rs:236-268 | an entry that applies at all is plain or a well-made batch of commands, with the effect of those commands in order |
| `EndToEnd.ReplayIsDatabase` | crates/relos-engine/src/base_engine.rs:158-180 | replaying any log through both applicators represents the relational database made by the commands in it |
| `EndToEnd.ReplayKeepsInv` | crates/relos-table/src/applicator.rs:89-200 | for all table names every replayed store keeps the invariant of its rows |
| `EndToEnd.RowStays` | crates/relos-table/src/applicator.rs:127-175 | commands that do not write or remove a row leave it |
| `EndToEnd.LeavesRowIff` | crates/relos-table/src/applicator.rs:89-175 | which commands leave a row alone in every database: exactly those that do not drop its table, write its key or delete it |
| `EndToEnd.WriteIsRead` | crates/relos-table/src/applicator.rs:127-175 | a row put by any command of the log, alone or inside a batch, is what the database has under its key at every later point up to which no command overwrites or removes it |
| `EndToEnd.RowSeenLater` | crates/relos-table/src/applicator.rs:89-200 | what the database has under a key stays until a command writes or removes that row or drops its table |
| `DelosTable.CommandAnswered` | crates/relos-table/src/table.rs:97-112 | the engine's answer to a command is the database's answer, at the command's own place in the log |
| `DelosTable.ScanOfLog` | crates/relos-table/src/table.rs:77-93 | what a scan of a replayed store returns lists every row of the table in the database of the log once |
| `DelosTable.DelosTable.ProposeAndCheck` | crates/relos-table/src/table.rs:97-112 | Ok means that the command is the log's entry at its position, was accepted by the database made by everything before it, and the replica has applied it; an error is the engine's, or says that the database refused |
| `DelosTable.DelosTable.Get` | crates/relos-table/src/table.rs:60-74 | catches up with the tail and answers with the database's row, failing only if it cannot catch up |
| `DelosTable.DelosTable.WriteThenGet` | crates/relos-table/src/table.rs:42-74 | a write answered Ok, any other requests, then a get answered Ok on the same replica: the get returns the row put, or none after a delete, unless a command in the log between disturbed that row |
| `DelosTable.AcceptedLater` | crates/relos-table/src/table.rs:60-112 | what an accepted command left under a key is in the database that every later read of the log reaches, unless disturbed |
| `DelosTable.DelosTable.Scan` | crates/relos-table/src/table.rs:77-93 | catches up with the tail and answers with every row of the table once, failing only if it cannot catch up |
| `Stack.EnginesAreDisciplined` | crates/relos-engine/src/base_engine.rs:91-105 | engines that run one call at a time on virtual logs of their own never overlap two reconfigurations of one virtual log |
| `Stack.StepKeeps` | crates/relos-engine/src/base_engine.rs:43-180 | every step of engines and virtual logs together, crashes and restarts included, keeps the invariant of both, with no discipline assumed |
| `Stack.AlwaysDisciplined` | crates/relos-engine/src/base_engine.rs:91-105 | in every run each step that engines cause in the virtual logs is disciplined |
| `Stack.StackAcks` | crates/relos-log/src/virtual_log.rs:57-181 | acknowledged appends of all engines have distinct positions and keep them |
| `Stack.StackAnswers` | crates/relos-engine/src/base_engine.rs:111-152 | a proposal that an engine finishes has the result of applying its own entry, at its position in the shared log, to the state made by all earlier entries; a sync has the store cover every entry below its tail |
| `Stack.WaysOut` | crates/relos-engine/src/base_engine.rs:91-180 | a proposal or sync ends only by finishing, by giving up because its call failed or its entry could not be read or applied, or in a crash |
| `Stack.ExactlyOnce` | crates/relos-engine/src/base_engine.rs:43-180 | at every moment every store is the log, as the shared loglets hold it, replayed up to its cursor, and stores at the same cursor at any two moments are equal |
| `Stack.StackTable` | crates/relos-engine/src/base_engine.rs:43-180 | every store represents the relational database made by the commands that the shared loglets hold below its cursor, through every reconfiguration, batch, failure and crash |

## Left out

- The gRPC service, the server program, configuration and the protobuf conversions: plumbing with easy facts only.
- The observer engine, metrics and the stack builder: pass-through layers.
- View tracking: apply records the entry's own position instead of the cursor in the header and keeps the map outside the transaction, so the documented safe-trim guarantee is not what the code decides.
- Liveness: timeouts, fairness, an engine stuck at an entry its applicator rejects, and recovery from holes in a sealed NativeLoglet. `NativeProgress` and `ReconfigProgress` prove that calls can complete, not that every schedule completes them.
- Gap-free appends over NativeLoglet: a failed append may leave a hole or a readable minority copy, so no theorem says that every position below its tail is filled.
- Linearizable tails across replicas: a replica with an old chain may report an old tail. Tails are proved never to lie beyond the log.
- Per-caller results of a batch: all callers get the last payload's value. State, delivery and order are proved.
- Concurrent write transactions on the store: commit replaces the whole map, so the apply loop is the only writer.
- 64-bit overflow of positions, versions and counters: positions are unbounded naturals.
- Serialized bytes of entries, rows, schemas, commands and cursors: these are typed values, and reading a value of another kind is a serialization error. Primary keys are concrete bytes. Names are byte sequences, so that they are valid UTF-8 is not required.
- tokio channels, locks and tracing: messages are a set, locks are atomic steps.
- SharedLog: `Engine` and `DelosTable` run over this class, whose contract is what `ReconfigTheorems.SharedLogContract` proves of the virtual logs; `Stack` runs the engine's steps over the virtual logs themselves, without the class.
- VLog: the map of loglets holds the loglets as values (`Mem`), which the class `MemLoglet` is proved against one by one; aliasing of loglet objects between virtual logs is the subject of `Reconfig` instead. Its factory makes a new empty loglet each time, as the in-memory one does; a factory that finds existing loglets is `Reconfig.Create`.
- TailsSafe, StaleReadsSafe, OwnReadFinds: trimming is not a step of `Reconfig`, so a read there may answer with a trim error at any time. A read of a position that was not acknowledged when it began, or that the replica's view did not show, may find nothing.
