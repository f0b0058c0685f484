# Verified model of soroban-fork

A Dafny model of soroban-fork, which forks a Stellar network into a local Soroban environment: it
fetches ledger entries lazily over JSON-RPC, runs contracts against them, serves them to clients, and
explains what happened as call and authorisation trees. `dafny verify dfyconfig.toml` checks the project.

| files | what they model |
|---|---|
| `Trace`, `TraceLaws`, `TraceRoundTrip` | the stack parser that turns diagnostic events into a call forest |
| `Outline`, `TracePrinter`, `AuthTree` | the indented printers, as lines of (depth, text) |
| `Source`, `Views`, `Overlay`, `Readers`, `WriteRaces` | the three-state lazy cache, its meaning as an overlay, racing readers, and writes among them |
| `Actor`, `ActorViews`, `WorkerReplies`, `ReadErasure`, `Histories` | the worker that runs one command at a time, what its clients see, and its histories |
| `Handlers`, `HandlerOutcomes`, `Interleaving`, `Serialisability`, `SharedKeys`, `EtchRaces` | the write-side handlers, alone and as interleaved programs |
| `Balances`, `Tokens`, `Hex` | `fork_setBalance` on classic assets and on token contracts; hashes in hexadecimal |
| `Rpc`, `Batches`, `SaveProtocol`, `Session` | retries, jitter, batching, crash-safe saving, and the step from one session to the next |
| `Wrappers`, `Seqs`, `Ledger` | vocabulary |

Each imperative part of the program is a class or a method whose contract ties it to a function on
values (`RpcSnapshotSource` to `AfterGet`, `AfterChanges` and so on; `Worker` to `Exec` and `Run`; the
handlers to `FinishOn`; the parser loop to `Parse`). The laws are then lemmas about those functions.

What stands outside is a parameter. The remote ledger is a finite map with a set of keys that cannot be
fetched (`Remote`); the Soroban host is an arbitrary function of ledger view, clock, call and source
account that yields a result, a change list and the keys it touched (`Env.host`); the transaction hash,
SHA-256, the fee formula, line labels, the wall clock and the outcome of each HTTP attempt are arguments
too. A Strict fetch failure ends the worker (`alive` becomes false and every later reply is
`WorkerGone`). `Reliable` says that no fetch can panic: the mode is Lenient, or every key is reachable.

## Where a plausible law fails

Each of these has a member that shows it failing at a concrete input, and one that gives the exact condition.

- **Trace round trip.** It is not enough that trapped frames lie on the last-child chain. `fn_return` pops
  whatever is on top, so a returned call above a trapped one comes back the other way round
  (`TraceRoundTrip.TrapBelowReturnIsLost`). The round trip holds if and only if the trapped calls are an
  initial stretch of that chain and no call has a single `Void` or vector argument
  (`TraceRoundTrip.EmitThenParseIff`; with ignored events strewn in, `TraceRoundTrip.RoundTripIff`).
- **The cache as an overlay of writes.** `bump_account_seq` acts only on accounts already cached, so whether
  an account was read before decides whether a send moves its sequence number
  (`Overlay.BlindBumpExists`). Every history answers as the overlay would if and only if no bump misses an
  account that only the remote holds (`Overlay.CacheRefinesOverlayIff`).
- **Read erasure.** For the same reason a read can be what lets a later bump land; with it struck, a later
  read or a later receipt differs (`ReadErasure.StruckReadCanShow`). At every point of the
  history every read that could be sent is answered as before if and only if, in the run as it happened,
  every bump that lands is of an account that a kept command had touched (`ReadErasure.ErasureRepliesIff`).
- **Repeated `fork_setBalance`.** The last call wins, unless the first one created the account and ledgers
  were closed in between: the new account's sequence number keeps the earlier ledger
  (`Balances.RepeatedCallsCanDiffer`, `Balances.RepeatedCallsEqualLastIff`).
- **Session round trip.** An empty export writes no file, so an older file survives and is loaded again: a
  session that removes the last entry it had loaded finds it back in the next one
  (`Session.EmptyExportKeepsOldFile`, `Session.SessionRoundTripIff`).
- **Line counts.** A string is printed as it is, so an argument with a newline adds a line of text
  (`TracePrinter.NewlineAddsLine`). The counts are those of the text if and only if no label has a newline
  (`TracePrinter.TextLineCountIff`, `AuthTree.TextLineCountIff`).
- **Writes beside racing readers.** A write between a reader's miss and its insert is lost
  (`WriteRaces.WriteIsLost`); it survives if and only if no such insert follows it, or the remote says the
  same (`WriteRaces.WriteSurvivesIff`). Inside the server the worker is serial and this cannot happen.
- **Retry loop.** The attempt count is computed in 32 bits; with `retries` at its maximum it wraps to zero
  and the loop falls through without an attempt (`Rpc.MaximumRetriesAskNothing`; exactly then, by
  `Rpc.RpcPost`). This follows release arithmetic; a debug build panics there instead.

Where comments and code disagree the model follows the code. `apply_changes` replaces the live-until hint
by the change's own hint, or by none (src/source.rs:223), though its comment says the old hint is kept
(src/source.rs:196-198). A send does not advance the ledger (src/server/actor.rs:570-658), though the
comment on the receipt says it does (src/server/actor.rs:248-250).

## Model

| member | source | states |
|---|---|---|
| Trace.FromEvents | src/trace.rs:143-197 | the two loops over `stack` and `roots` compute `Parse`, about which the trace laws are proved |
| Trace.AttachInPlace | src/trace.rs:220-226 | a closed frame goes last under the innermost open frame, or last among the roots when none is open |
| TraceLaws.OrdersAreKept | src/trace.rs:143-197 | for every stream, preorder of the forest is exactly the well-formed diagnostic `fn_call` events in order, and postorder of its returned frames exactly the non-orphan `fn_return` values in order |
| TraceLaws.InterpretIsRaw | src/trace.rs:152-236 | an event opens a frame iff it is a diagnostic `fn_call` with a contract hash and a UTF-8 name, and closes one iff it is a diagnostic `fn_return`; the frame opened has those parts and the `failed_call` mark |
| TraceLaws.FrameCountIsCalls | src/trace.rs:199-212 | for every stream, `frame_count` is the number of accepted calls |
| TraceLaws.TrappedFramesAreOneSpine | src/trace.rs:187-194 | for every stream, the trapped frames are one last-child chain from the last root, all rolled back, as long as accepted calls exceed matched returns |
| TraceLaws.HadFailuresIff | src/trace.rs:204-218 | `had_failures` holds iff a call went unanswered or an accepted call or matched return carried `failed_call` |
| TraceRoundTrip.PackingRoundTrip | src/trace.rs:245-257 | unpacking undoes the host's arity packing iff the arguments are not one lone `Void` or vector |
| TraceRoundTrip.IgnoredEventsDoNotMatter | src/trace.rs:148-184 | dropping every non-diagnostic, unknown, malformed or orphan event changes nothing |
| TraceRoundTrip.OnlyCallsAndReturnsMatter | src/trace.rs:152-184 | deleting every event that is neither a well-formed `fn_call` nor an `fn_return`, and every orphan return, leaves the trace as it is |
| TraceRoundTrip.RoundTripIff | src/trace.rs:143-257 | a stream that is, up to ignored events, what the host emits for some calls parses to exactly those calls, with rolled-back = call failed, return failed or trapped, iff traps lie on the spine and no call is ambiguous |
| TraceRoundTrip.EmitThenParseIff | src/trace.rs:143-257 | what the host emits for some calls parses to exactly those calls iff traps lie on the spine and no call is ambiguous |
| TraceRoundTrip.EmissionIsKept | src/trace.rs:148-184 | an emission holds no event that the parser would ignore |
| TraceRoundTrip.TrapBelowReturnIsLost | src/trace.rs:168-178 | the failing input: the emission of a returned call whose last child trapped does not parse to it |
| TracePrinter.Display | src/trace.rs:282-296 | the printer writes a header and then the outline of the forest, or the empty header alone |
| TracePrinter.RenderFrame | src/trace.rs:298-327 | one frame appends its opening line, its children one step deeper, and its result line one step deeper |
| TracePrinter.FrameBlock | src/trace.rs:298-327 | a frame prints its call at its depth, rollback mark included, then its children's blocks deeper, then its result one step in |
| TracePrinter.PrintedShapeIsUnique | src/trace.rs:282-327 | the printed lines determine every label and the whole nesting, whatever the labelling |
| TracePrinter.PrintedAlikeIff | src/trace.rs:282-327 | two traces print the same iff they nest the same way and corresponding calls and results print the same, whatever the labels abbreviate |
| TracePrinter.PrintedTextIff | src/trace.rs:282-327 | the same of the characters printed, two spaces a depth, for lines without newline or leading space |
| TracePrinter.LineCount | src/trace.rs:282-327 | 1 + 2 * frame_count lines are written |
| TracePrinter.TextLineCountIff | src/trace.rs:298-351 | as text the output has 1 + 2 * frame_count lines iff no call or result prints with a newline in it, and never fewer |
| TracePrinter.NewlineAddsLine | src/trace.rs:350-351 | the failing input: an argument that prints over two lines |
| Outline.ReadsBack | src/auth_tree.rs:190-215 | reading the (depth, text) lines of a forest gives the forest back, with whatever shallower lines follow |
| Outline.LinesAreInjective | src/auth_tree.rs:190-215 | two forests with the same lines are the same forest |
| AuthTree.Display | src/auth_tree.rs:157-171 | the printer writes a header and then the outline of the payloads, or the empty header alone |
| AuthTree.RenderPayload | src/auth_tree.rs:173-188 | a payload appends its line at depth 1 and its invocation at depth 2 |
| AuthTree.PayloadsAreNumbered | src/auth_tree.rs:166-188 | payloads are numbered from 0 in order, each over its own invocation |
| AuthTree.RenderInvocation | src/auth_tree.rs:190-215 | an invocation appends its line and its sub-invocations one step deeper |
| AuthTree.Blocks | src/auth_tree.rs:157-215 | a payload's line at depth 1 over its invocation at depth 2, an invocation's line over its sub-invocations one step deeper, one after another |
| AuthTree.PrintedShapeIsUnique | src/auth_tree.rs:157-215 | the printed lines determine every label and the whole nesting of the payloads |
| AuthTree.PrintedAlikeIff | src/auth_tree.rs:157-215 | two trees print the same iff they have the same payloads in the same order over alike invocations, sub-invocations included |
| AuthTree.PrintedTextIsUnique | src/auth_tree.rs:157-215 | the same of the characters printed, for lines without newline or leading space |
| AuthTree.LineCount | src/auth_tree.rs:127-149 | 1 + payloads + invocation_count lines are written |
| AuthTree.TextLineCountIff | src/auth_tree.rs:157-215 | as text the output has that many lines iff no label has a newline in it, and never fewer |
| Source.RpcSnapshotSource.constructor | src/source.rs:93-100 | a new source knows no key and has asked for none |
| Source.RpcSnapshotSource.Preload | src/source.rs:110-118 | entries are inserted in order, the last one for a key winning, and nothing is fetched |
| Session.PreloadHits | src/source.rs:110-118 | after a preload each key holds the last entry listed for it, with its hint |
| Source.RpcSnapshotSource.SetEntry | src/source.rs:147-151 | exactly the one key becomes known-present with the given entry and hint |
| Source.RpcSnapshotSource.BumpAccountSeq | src/source.rs:165-186 | a cached account's sequence number goes up by one, wrapping, and is returned; any other key or shape is left alone and answers nothing |
| Views.BumpFrame | src/source.rs:165-186 | a bump raises the one sequence number modulo 2^64 and keeps every other field of the account, its hint and every other key; for an unknown, absent or other entry it changes nothing and answers nothing |
| Source.RpcSnapshotSource.ApplyChanges | src/source.rs:209-233 | the cache becomes the left-to-right fold of the read-write changes, and the reply counts them, capped at 32 bits |
| Views.WritesAreCounted | src/source.rs:215-231 | the count reported is the number of changes that are not read-only |
| Source.RpcSnapshotSource.Entries | src/source.rs:243-257 | every present key is listed exactly once with its entry and hint, and no absent key is listed |
| Source.RpcSnapshotSource.FetchFromRpc | src/source.rs:264-302 | the remote is asked once and the answer remembered, absence included; a Strict failure panics after counting and before remembering |
| Source.RpcSnapshotSource.Get | src/source.rs:306-326 | a known key is answered from the cache without asking; an unknown one is fetched and remembered |
| Views.UnknownKeyIsFetched | src/source.rs:264-302 | for an unknown key the remote's entry and hint, or their absence, are returned and remembered; unreachable, Strict panics and remembers nothing, Lenient remembers an absence |
| Views.KnownKeyIsAnswered | src/source.rs:306-326 | for a known key the cached entry and hint are returned and nothing changes |
| Views.ViewShows | src/source.rs:60-65 | a reader sees the cached entry, nothing for a known absence, and else what the reachable remote holds |
| Views.GetKeepsView | src/source.rs:306-326 | a read changes nobody's view of any key, and answers with that view |
| Views.WriteIsSeen | src/source.rs:147-151 | a write is seen at its key and nowhere else |
| Views.ChangesAreSeen | src/source.rs:209-233 | the view after a change batch is the fold of its writes over the view before |
| Views.LastWriteWins | src/source.rs:215-231 | after a batch each written key shows the value and the hint of its last read-write change, or nothing if that removed it |
| Views.UnwrittenKeyKeeps | src/source.rs:216-218 | a key with no read-write change keeps its entry |
| Views.BumpIsSeen | src/source.rs:165-186 | a bump shows in the view iff the account is in the cache |
| Overlay.CacheRefinesOverlayIff | src/source.rs:110-233 | over every history of preload, get, set, apply and bump the cached source answers as an uncached overlay of writes, and shows the same entries, iff no bump was blind |
| Overlay.BlindBumpExists | src/source.rs:165-171 | the failing input: bumping an account before and after its first read |
| Overlay.AskedOnce | src/source.rs:259-302 | no history asks the remote twice for one key |
| Overlay.RemovedStaysRemoved | src/source.rs:199-218 | a key known to be absent stays so, unasked, until it is written; being read by a transaction is no write |
| Readers.RacesAgreeWithPreloadOverRemote | src/source.rs:306-326 | with lookup, count, fetch and insert as separate steps of any number of threads, every reachable cache agrees with preload-over-remote and every finished `get` returned that value |
| Readers.TwoReadersMayBothFetch | src/source.rs:314-325 | the lock is not held across the fetch: two readers of one key can both miss it and both fetch |
| Readers.FinishedKeysAreNeverFetched | src/source.rs:3-6 | a `get` begun after another of the same key has finished is answered at once from the cache |
| Readers.FetchCountIsMisses | src/source.rs:120-126 | the fetch counter is, in 32 bits, the number of misses minus the threads about to count theirs |
| Readers.WholeGetIsGet | src/source.rs:264-327 | the steps of one thread with nobody else moving are the `get` of the class: same cache, same reply or panic, same count |
| WriteRaces.WriteSurvivesIff | src/source.rs:66-71 | in any race of readers and writers a write stays iff no reader inserts under its key after it or the remote says the same, and only a reader that missed before it can |
| WriteRaces.WriteIsLost | src/source.rs:296-299 | the failing input: one write between one reader's fetch and its insert |
| Actor.Worker.ReadBatch | src/server/actor.rs:786-812 | keys are answered in order through the cache; a panic stops the batch |
| Actor.Worker.FetchFeeConfiguration | src/fees.rs:37-48 | the six settings are read in order, stopping at the first that is missing, misshapen or panics |
| Actor.Worker.SimulateTransaction | src/server/actor.rs:480-554 | the reply carries the host's result and the fee by the memoised schedule; only the cache of reads and the memo change |
| WorkerReplies.SimulateAnswered | src/server/actor.rs:500-554 | the fee is that of the recording's resources and the transaction's size on the remembered schedule, or on the one the view shows, which is then remembered; there is none where a setting is missing or misshapen or the recording failed |
| WorkerReplies.ScheduleIsShown | src/fees.rs:37-108 | the schedule is made of the six settings named one by one, each filled from the entry found |
| WorkerReplies.FeesByNumber | src/fees.rs:37-108 | entries kept under their own numbers make a schedule of exactly those six |
| Actor.Worker.SendTransaction | src/server/actor.rs:570-658 | on success the changes are applied and then the source bumped; on failure neither; the receipt is stored under the hash either way |
| WorkerReplies.SendAnswered | src/server/actor.rs:570-658 | an answered send is answered with the hash of its envelope and a receipt with that envelope, time, ledger, result and number of changes applied, stored under the hash; nothing else touches the receipts |
| Actor.Worker.Handle | src/server/actor.rs:374-467 | each command does to the worker's state and replies what `Exec` says |
| WorkerReplies.EntriesAnswered | src/server/actor.rs:408-414 | each key asked is answered, in order, with what the view shows |
| WorkerReplies.ClockIsAnswered | src/server/actor.rs:391-466 | metadata replies tell the clock, and closeLedgers the saturated clock it moved to |
| WorkerReplies.PanicLosesWorker | src/source.rs:274-294 | a Strict source that cannot be reached for a key asked loses the worker; reads and sends are lost in no other way |
| Actor.Worker.WorkerLoop | src/server/actor.rs:366-471 | commands run one after another in arrival order, one reply each; after a panic every reply is lost |
| ActorViews.ReadCommandKeepsView | src/server/actor.rs:473-479 | simulate, getLedgerEntries, getTransaction and metadata commands leave ledger view, clock and receipts as they were and forget nothing cached |
| ActorViews.SendOnView | src/server/actor.rs:610-648 | a send shows as its changes followed by the bump, the bump only if the source is cached by then |
| ActorViews.FailedSendKeepsView | src/server/actor.rs:610-624 | a send that fails changes no key |
| ReadErasure.ReadErasureIff | src/server/actor.rs:374-466 | striking any set of read commands from any history leaves the ledger the same after every prefix iff, in the run as it happened, no bump lands on an account that no kept command had touched |
| ReadErasure.ErasureRepliesIff | src/server/actor.rs:408-414 | after every prefix, a read of any key is answered alike with and without the struck reads, iff no bump of the real run hangs on a struck read |
| ReadErasure.ErasedRepliesAgree | src/server/actor.rs:374-554 | then, the fee settings being left alone, every remaining reply is unchanged as well, fees included |
| ReadErasure.DifferencesAreVisible | src/server/actor.rs:408-414 | two workers show one ledger iff every single-key read answers alike on both |
| ReadErasure.StruckReadCanShow | src/server/actor.rs:626-648 | the failing input: a read of the source account struck from before a send changes the reply to a later read, and the receipt of a later send |
| Histories.SeqCountsSuccesses | src/server/actor.rs:626-648 | a cached account nobody force-writes, under a host that keeps its sequence number, ends at start plus successful sends, in wrapping 64 bits |
| Histories.HostThatLeavesItAlone | src/server/actor.rs:626-648 | its premise on the host is met by any host that never writes the account |
| Histories.ReceiptIsLatestSend | src/server/actor.rs:428-441 | a hash finds the receipt of the latest send answered with it, and nothing iff there was none |
| WorkerReplies.TransactionAnswered | src/server/actor.rs:428-441 | after any history a live worker answers with the receipt that the last send of that envelope hash deserved when it ran, and with nothing iff there was no such send |
| Histories.ClockCountsCloses | src/lib.rs:167-181 | only closeLedgers moves the clock, by the saturated sum of its arguments |
| Handlers.Ask | src/server/actor.rs:294-305 | a command to a lost worker fails; otherwise it is executed and answered |
| Handlers.HandleForkSetStorage | src/server/handlers.rs:739-812 | the handler's commands, in order, are those of its program |
| HandlerOutcomes.SetStorageAlone | src/server/handlers.rs:771-812 | undisturbed, the value is put under its contract, key and durability, with the hint |
| Handlers.HandleForkSetCode | src/server/handlers.rs:827-883 | as above, the code stored under the hash of its bytes |
| HandlerOutcomes.SetCodeAlone | src/server/handlers.rs:842-883 | undisturbed, the bytes are put under their own hash, with the hint |
| Handlers.HandleForkSetBalance | src/server/handlers.rs:1021-1126 | read, edit or create, write back; nothing is written when the entry has the wrong shape |
| Handlers.HandleForkEtch | src/server/handlers.rs:1396-1507 | install code, read the instance, write it back with the new executable and the old storage; refuse a non-instance |
| HandlerOutcomes.EtchAlone | src/server/handlers.rs:1414-1491 | undisturbed, the code is installed and the instance runs it on the storage it had; if something else is there, only the code is installed and the call fails |
| Interleaving.WorkerRunsAsFork | src/server/actor.rs:374-467 | the handlers see a reliable worker only through its ledger view and clock, under every schedule |
| Interleaving.UndisturbedHandler | src/server/handlers.rs:739-1507 | a handler with the worker to itself does to view and clock what its program does |
| Interleaving.AloneIsEffect | src/server/handlers.rs:739-1507 | alone, a request overlays a fixed set of entries on the view and, for closeLedgers, moves the clock; nothing else |
| HandlerOutcomes.CloseAndReadAlone | src/server/actor.rs:451-466 | closeLedgers moves the clock, saturating, and no entry; a read does neither |
| Serialisability.Serialisable | src/server/handlers.rs:739-1507 | every finished interleaving of requests on pairwise disjoint keys ends in the ledger and clock of a serial order, which is the order of the reads and a permutation of the requests |
| HandlerOutcomes.KeysAreWritten | src/server/handlers.rs:739-1507 | the keys asked to be disjoint are exactly those the handler can write |
| Serialisability.WorkerIsSerialisable | src/server/actor.rs:374-467 | the same of the worker that executed the commands |
| SharedKeys.SharedKeysAreNotSerial | src/server/handlers.rs:1357-1362 | a `fork_setStorage` of the instance between an etch's read and write is lost, which happens in neither serial order |
| SharedKeys.ReadOrderMayFail | src/server/handlers.rs:1021-1119 | two setBalance calls on one account can end as the order opposite to that of their reads says |
| EtchRaces.EtchIntegrity | src/server/handlers.rs:1396-1491 | in every reachable state of any interleaving, code written by a handler hashes to its key, and an instance last written by an etch names code that is present and hashes to that name |
| EtchRaces.WritersWroteLast | src/server/actor.rs:443-450 | the record of last writers, used above, holds exactly the keys some step has written, each with the request that wrote it last |
| EtchRaces.RacingEtchesKeepStorage | src/server/handlers.rs:1357-1368 | etches of one contract, with no other writer of its instance key, never change its instance storage |
| Balances.SetBalanceFrame | src/server/handlers.rs:1033-1119 | one undisturbed call sets the balance and last-modified ledger and keeps every other field and every other key; on a misshapen entry it fails and changes nothing |
| Balances.SetBalanceCreates | src/server/handlers.rs:1049-1095 | a missing entry is created with the documented defaults, field by field |
| Balances.RepeatedCallsEqualLastIff | src/server/handlers.rs:1033-1095 | two calls equal the last, whatever ledgers close in between, unless the first created the account and the sequence moved |
| Balances.RepeatedCallsCanDiffer | src/server/handlers.rs:1049-1064 | the failing input: a fresh account, one ledger closed, the same call again |
| Balances.SameAssetIff | src/server/handlers.rs:973-1015 | two accepted codes and issuers name one asset iff issuer and width agree and the codes differ only in trailing NULs |
| Balances.AssetIsPadded | src/server/handlers.rs:973-1015 | one to four bytes make a short asset, five to twelve a long one, filled up with NULs; other codes are refused with the reason |
| Balances.NulFreePairsAreDistinct | src/server/handlers.rs:973-1015 | distinct NUL-free (code, issuer) pairs never share a trustline key |
| Balances.NulCodesCollide | src/server/handlers.rs:987-994 | a trailing NUL does make two codes collide |
| Balances.ParseSetBalance | src/server/handlers.rs:948-1016 | a request is accepted iff the amount is not negative and a credit code has 1 to 12 bytes, and it names the account, the amount and the asset given |
| Tokens.SplitJoin | src/server/handlers.rs:1335-1340 | splitting an i128 into halves and joining them is the identity |
| Tokens.JoinSplit | src/trace.rs:446-451 | joining halves and splitting them is the identity |
| Tokens.HalvesAreABijection | src/server/handlers.rs:1335-1340 | an i128 travels as exactly the halves with hi * 2^64 + lo equal to it |
| Tokens.HandleSetTokenBalance | src/server/handlers.rs:1150-1330 | the handler simulates balance, computes the difference, sends mint or burn and asks for the latest ledger, as `DealToken` says |
| Tokens.DealReachesTarget | src/server/handlers.rs:1183-1317 | for a token whose `balance(holder)` is non-negative, whose `mint(holder, n)` adds and whose `burn(holder, n)` subtracts, the call succeeds, the holder's balance ends at the target and no other balance moves; neither overflow nor the `checked_abs` error can occur |
| Tokens.DealIsThreeCommands | src/server/handlers.rs:1183-1330 | for any contract, a deal with a gap to close asks `balance(to)`, sends `mint(to, gap)` or `burn(to, gap)` in an envelope around that call, and asks for the ledger, all for the all-zero account |
| Tokens.DealWithoutSend | src/server/handlers.rs:1165-1239 | a negative amount, a balance that is no i128, one already at the target and one out of range send nothing |
| Tokens.InterruptedDealIff | src/server/handlers.rs:1216-1317 | a deal interrupted after its reading still reaches its target iff the balance is then what it was, and else misses by the difference |
| Tokens.RacingDealsOvershoot | src/server/handlers.rs:1193-1317 | two deals that both read before either mints both succeed, and the second ends above its target by what the first minted |
| Tokens.TokensExist | src/server/handlers.rs:1128-1149 | those premises can be met: a host that keeps a balance for each account and looks at contract, function, account and amount satisfies them all |
| Tokens.OverflowIff | src/server/handlers.rs:1229-1255 | the difference leaves the range iff the reported balance is negative by enough |
| Hex.HexLower | src/server/handlers.rs:1547-1554 | two lower-case digits a byte, high digit first |
| Hex.HexIsLowerCase | src/server/handlers.rs:1547-1554 | only digits and the letters a to f in lower case are printed |
| Hex.ParseHex32 | src/server/handlers.rs:1556-1579 | exactly the 64-digit strings of either case parse, each pair of digits giving its byte |
| Hex.NibblesAreDigits | src/server/handlers.rs:1547-1579 | the sixteen digits and their worth, letters in lower case when printed and in either case when parsed; nothing else is a digit |
| Hex.HexIsInjective | src/server/handlers.rs:1547-1554 | distinct hashes print differently |
| Hex.HexRoundTrip | src/server/handlers.rs:1547-1579 | a printed hash parses back to itself |
| Rpc.RngIsBijection | src/rpc.rs:343-353 | the xorshift step is a bijection on 64-bit words |
| Rpc.RngKeepsNonZero | src/rpc.rs:343-353 | the step maps zero, and only zero, to zero |
| Rpc.RngNeverZero | src/rpc.rs:335-353 | from any seed the state is non-zero after any number of draws |
| Rpc.RngFromOne | src/rpc.rs:347-349 | the shifts are 13, 7 and 17: the word 1 is followed by 0x40822041 |
| Rpc.HighestBitWeighs | src/rpc.rs:343-353 | the value handed out weighs bit i of the word with 2^i and is below 2^64 |
| Rpc.Rng.Next | src/rpc.rs:343-353 | the cell moves to the next word and hands out its value |
| Rpc.JitterUnder | src/rpc.rs:323-329 | the jitter is the next draw modulo the bound, and below it whenever the bound is positive |
| Rpc.BackoffDelay | src/rpc.rs:312-318 | the delay is the saturated sum of exponential and jitter, and lies between the exponential and that plus the base |
| Rpc.ExponentialDoubles | src/rpc.rs:314-315 | the exponential starts at the base, doubles until it saturates, and from attempt 32 on stays at 2^32 - 1 times the base |
| Rpc.DelaysIncrease | src/rpc.rs:305-318 | short of saturation every recorded delay exceeds the one before, whatever the jitters |
| Rpc.RpcPost | src/rpc.rs:195-233 | the loop stops at the first success, the first fatal error or the last allowed attempt and returns that attempt's outcome; its sleeps increase and stay within the bound; it falls through, without an attempt, iff the attempt count wraps to zero |
| Rpc.MaximumRetriesAskNothing | src/rpc.rs:207-232 | the failing input: with the largest `retries` a server that would succeed is never asked |
| Rpc.SleepBoundIsGeometric | src/rpc.rs:34-38 | the sleep bound is base * (2^retries - 1 + retries) |
| Batches.FetchEntries | src/rpc.rs:172-188 | batched fetching returns what one unbounded request would, asks each position once and in order, in the stated number of batches, and fails with the first failing request |
| Batches.BatchCountIsCeiling | src/rpc.rs:174 | the number of batches is the number of keys over the batch size, rounded up |
| Batches.SingleKeyIsLookup | src/rpc.rs:190-193 | fetching one key alone is a lookup |
| SaveProtocol.TmpNamesAreDistinct | src/cache.rs:94-115 | temporary names lie beside the target under its name, coincide iff pid and nanosecond do, and never coincide with the target |
| SaveProtocol.SiblingsAreDistinct | src/cache.rs:96-98 | writers with distinct stamps satisfy the protocol's naming condition |
| SaveProtocol.TargetIsAlwaysWhole | src/cache.rs:41-92 | with any number of writers and a crash or failure anywhere, the target holds its original content or the complete snapshot of the last writer to succeed; no writer that succeeded leaves its temporary file; no other file changes |
| SaveProtocol.TornWriteStaysAside | src/cache.rs:41-46 | a crash inside a write leaves a torn temporary file, and the target as it was |
| Session.SaveCache | src/lib.rs:873-893 | the file becomes the list of present entries; it stays as it was when there are none, which is no error, or when the save fails, which is one |
| Session.Build | src/lib.rs:688-841 | a fresh source holds the file's entries and, over them, the minted accounts |
| Session.SessionRoundTripIff | src/lib.rs:873-893 | the next session starts with exactly the present entries and their hints iff there were any, or no older entries were on file |
| Session.AfterCrashes | src/cache.rs:41-92 | however many sessions save at one path and wherever they crash, the next one starts from what was there before or from all present entries of the last session whose save succeeded |
| Session.EmptyExportKeepsOldFile | src/lib.rs:881-884 | the failing input: load one entry, remove it in a transaction, save; the next session has it again |
| Session.EmptyExportResurrects | src/lib.rs:881-884 | when a session that loaded a file ends with nothing present, all the file held was removed and all of it is back in the next one |
| Session.NegativesAreForgotten | src/source.rs:235-237 | a known-absent key is unknown again in the next session |
| Session.MintingOverridesOwnKeysOnly | src/lib.rs:816-841 | minted entries replace loaded ones on their own keys and nowhere else, the last minted for a key winning |

## Left out

- HTTP, JSON, base64, strkeys, routing, channels and the command line: only "commands run one at a time, each with one reply" is kept.
- XDR: entries are encoded by an injective codec that always decodes, so the panics on corrupt cache bytes and on malformed host output do not arise.
- The Soroban host, its budget, auth recording and the fee formula: parameters.
- `build_result_xdrs`, `encode_simulation_reply` and the response bodies: wire shapes without state.
- Character-level rendering of values and abbreviated addresses: labels are arbitrary functions.
- TTL expiry and archival: the program does not simulate them.
- `warp_time`, `warp_ledger`, `deal_token` and `cap_protocol_version`: one-line arithmetic, or the library twin of the token handler.
- Serialisability.Serialisable: compares the ledger and the clock, not the `latestLedger` numbers that handlers read for their responses after their last write.
- ReadErasure.ErasedRepliesAgree: for the replies of the kept commands themselves, fees included, gives a sufficient condition; the exact condition for every possible read is in `ReadErasure.ErasureRepliesIff`.
- SaveProtocol.TargetIsAlwaysWhole: a crash stops a writer at any byte but does not lose bytes the file system had accepted; power loss before a flush is not modelled.
- Readers.RacesAgreeWithPreloadOverRemote: readers only; writes among them are in `WriteRaces`, where sequence bumps are not among the writes.
- Tokens.HandleSetTokenBalance: an out-of-range difference is a distinct outcome here; the program panics or wraps, depending on the build.
- The insertion order of `entries`: any order of the present keys is allowed, where the program uses key order.
- `src/workspace.rs`, `src/test_accounts.rs` and `src/error.rs`: they supply inputs or shapes only.
