# sshx output replication: a verified model

sshx shows a terminal that runs on one machine in any number of browsers. This project models the
path a shell's output takes between the two and proves what holds of it over every run.

One object explains the whole path: the log `L` of everything a shell has printed, as a growing
UTF-8 string, and its ciphertext `C`, which is `L` combined byte by byte with a keystream indexed by
position. The client keeps a pruned window of `L` and sends pieces of `C`; the server keeps a pruned
window of `C` cut into chunks; snapshots keep a tighter window; subscribers get runs of chunks; the
browser decrypts each chunk at its running position. Everything anywhere is a piece of `C` in its
own place, whatever is lost, repeated, reordered, trimmed, pruned, saved, restored or sent again.

Code that updates state step by step is modelled by classes and loops (`Sessions.Session`,
`Producer.ShellTask`, `Encrypt.Ctr64`, `Srocket.Socket`, `AsyncLock.Lock`, ...). Each of their methods
is proved equal to a function on values, and what it does is stated outright beside it; runs are
sequences of such functions.

| file | subject |
|---|---|
| `ByteSeqs.dfy`, `KeyedLists.dfy`, `Division.dfy`, `Numbers.dfy` | chunks, lists with ids, quotients, decimal numbers |
| `Utf8.dfy`, `Encoding.dfy` | character boundaries and decoders, and the decoders against an encoder |
| `Keystreams.dfy` | exclusive or bit by bit, the algebra of keystreams |
| `Encrypt.dfy` | the Rust and the TypeScript encryptor against one reference |
| `Producer.dfy`, `ProducerRuns.dfy` | the client's shell task and its runs |
| `ShellStore.dfy`, `Subscription.dfy` | the server's chunk store and its subscribers, against an unpruned log |
| `SessionModel.dfy`, `Sessions.dfy`, `OneShell.dfy` | all session operations, the window list, snapshot and restore; one shell of a session as the system below sees it |
| `Replication.dfy`, `EndToEnd.dfy`, `Service.dfy` | the whole system over a channel that is a bag; what the browser shows; one subscriber's service |
| `Convergence.dfy`, `Recovery.dfy` | catching up after loss: the exact condition and a bound, from every reachable state |
| `Outages.dfy`, `Instances.dfy`, `Requeue.dfy` | concrete runs in which the code does not do what one would expect |
| `Users.dfy` | the user list: map, differences, observers |
| `Hello.dfy`, `Reconciliation.dfy` | the first message of a connection and the repair of the shell set |
| `AsyncLock.dfy`, `Terminal.dfy`, `Resume.dfy`, `Srocket.dfy` | the browser's lock, what its terminal shows, its chunk count, its reconnecting socket |
| `Browser.dfy` | one browser terminal over any number of connections, with the whole system behind it |
| `Resumption.dfy`, `Restarts.dfy` | a subscriber that comes back, also after a restart of the server; two runs in which that goes wrong |

## What is not so

Seven properties one would expect do not hold of the code. Each comes with a concrete input on which it
fails and with the exact condition under which it does hold.

- **A chunk can lose its first character.** The browser decodes every chunk with a new
  `TextDecoder`, which removes a leading U+FEFF (src/lib/Session.svelte:166). Decoding chunk by chunk
  gives the text of the stream, with every U+FEFF in it, exactly when no chunk starts with that
  character (`Utf8.FreshDecodersIff`, `EndToEnd.ServedIsLog`). Against one decoder for the whole stream,
  which would drop a U+FEFF at its very start only, the same holds of all chunks but the first
  (`Utf8.StreamDecoderIff`). A run of the whole system that serves such a chunk
  is `Instances.ServedMarkIsLost`. Chunk ends themselves never do damage, because they are character
  boundaries; a cut anywhere else would (`Utf8.DecodeCutIff`).
- **The client's positions can go below zero.** Two unsigned subtractions
  (crates/sshx/src/runner.rs:115 and crates/sshx/src/runner.rs:132) underflow exactly in the cases of
  `ProducerRuns.FaultIff`, and never without a rewind (`ProducerRuns.NoRewindRun`). Both are reachable:
  the first when a server starts over with an empty shell after a little more than twelve mebibytes of
  output (`Convergence.RestartedServerFaults`), the second when a connection delivers nothing for
  twelve mebibytes and comes back while the terminal prints on (`Outages.RollingUnderflow`).
- **A client that holds what the server lacks may still never deliver it.** A client with a backlog
  sends on from where it is before it turns back, and prunes as it goes. From every reachable state,
  reports alone bring client and server together exactly when the client, sending on what it holds,
  neither underflows nor prunes what the server lacks (`Recovery.QuietIff`, with `Convergence.Lost`);
  with at most twelve mebibytes held that is exactly when the server is not before the client's window
  (`Convergence.ConvergesIff`), and in general it can be told from positions up to a gap of 64 KiB
  (`Recovery.QuietByPositions`). In `Outages.PrunedBeforeResent` a run of the whole system ends with the
  client holding all that the server lacks, and although nothing is lost or printed any more, the
  client prunes it unsent and faults.
- **The browser's chunk count can lag, and it can run ahead.** The browser resumes from the number of
  chunks it started to handle. A pruned chunk that was skipped, or a batch that still waits for the lock
  or its first step, makes it ask too early, and chunks come twice. But the lock and the count survive a
  disconnection (src/lib/Session.svelte:182-188), while `onDisconnect` clears only the subscriptions
  (src/lib/Session.svelte:211-217): what waits as the browser subscribes is served again, counted
  twice, and the browser then asks for a chunk past the one it wants, which is lost. Over every
  run of any number of connections, a subscription asks for the right chunk if and only if as much
  waited in the lock at the subscription before as waits now or was skipped since; it asks too late if
  and only if more had waited (`Browser.AskExactly`, on the lock alone `Resume.ConnectionAccounts`, for
  a first subscription `Resume.ResumeIff`). All are right exactly when at each one nothing waited and
  nothing had been skipped (`Browser.AsksIff`). If nothing waited at the subscription before, the next
  one never asks too late. Instances:
  `Instances.SkippedChunk` and `Instances.LaggingCount` ask too early; in `Requeue.RanAhead`, with
  nothing pruned and no restart, the browser asks for chunk 3 when it wants chunk 2, and the server
  holds that chunk and does not serve it (the lock alone: `Requeue.CountsTwice`).
- **After a restart the right count can name the wrong bytes.** A snapshot restores the older numbering
  of chunks (crates/sshx-server/src/session/snapshot.rs:106-114), a recovered shell starts a new one
  (crates/sshx-server/src/grpc.rs:174-188), and what the client sends again is cut differently, while the
  browser's count survives (src/lib/Session.svelte:182-188). A subscriber served without a skip up to a
  position continues there exactly when the chunk it comes back for starts at that position in the new
  record's log and nothing is skipped (`Resumption.ResumedIff`). A server can do its part: for a
  subscriber that comes back for the next chunk it wants, a restart from a snapshot of the same record
  that counts at least as many chunks as the subscriber had leaves skipping as the only way to lose
  something (`Resumption.GuardedRestart`), and so does a reconnection without a restart
  (`Resumption.ReconnectAgrees`, `Resumption.AgreedContinues`). Whether a browser does come back for
  that chunk is the question above (`Resumption.BrowserAtCursor`, `Resumption.BrowserReconnects`). Both
  together: as long as nothing waits in the lock when the browser subscribes, nothing is skipped and
  every restart meets that guard, the browser is given the output byte after byte, each chunk once
  and in its place, over any number of connections and restarts (`Browser.EverythingOnce`). In
  `Restarts.ByteLost` a subscriber never gets a byte that the server holds; in `Restarts.ByteTwice` one
  gets a byte twice although the snapshot counts enough chunks, because it was taken of an earlier record.
- **A shell that has ended can come back.** The client's table of shells loses a key only when the server
  asks to close that shell (crates/sshx/src/controller.rs:292); a task that ends by itself reports it
  and leaves its key (crates/sshx/src/controller.rs:350). A reconnection leaves open the keys of that
  table, so among the shells it leaves open those without a task are exactly the ended ones that the
  server does not already hold as closed (`Reconciliation.Reconnect`); there are none if and only if
  every ended key is closed there. After a lost session an ended shell is opened again, and the next
  reconnection leaves it open (`Reconciliation.EndedShellReopens`).
- **A restored session lists closed shells.** The window list is documented as the list of open shells
  (crates/sshx-server/src/session.rs:75); after a restore it is that exactly when the snapshot held no
  closed shell (`SessionModel.RestoredOk`). Instance: `Instances.RestoredListsClosed`.

## Model

| member | source | states |
|---|---|---|
| EndToEnd.ServedIsLog | src/lib/Session.svelte:154-168 | Over every run of the whole system from the start, every batch served to any subscriber decrypts, chunk by chunk at running positions from its label, to exactly that stretch of the output log; every piece is whole characters; fresh decoders show its text exactly when no piece starts with a byte order mark |
| EndToEnd.PositionsAreBoundaries | crates/sshx/src/runner.rs:114-136 | Over every run, the window start, the believed position, both ends of every message, every report, the server's position and both ends of every stored chunk are character boundaries of the log |
| EndToEnd.ResendsAgree | crates/sshx/src/runner.rs:117-122 | Over every run, two messages that both cover a position carry the same ciphertext byte there, so no keystream byte is ever used for two different bytes |
| EndToEnd.HandleChunks | src/lib/Session.svelte:155-167 | The count grows by the number of chunks, and the text written for each chunk is the fresh-decoder text of that chunk decrypted at its running position: where that is the UTF-8 encoding of a text, that text without a mark at its start |
| EndToEnd.DecryptedPieces | src/lib/Session.svelte:159-166 | Chunks in their place decrypt to whole-character pieces that spell the log from their position on |
| EndToEnd.ReachableOk | crates/sshx-server/src/grpc.rs:281-303 | The system invariant holds in every reachable state and no empty batch is ever served |
| Replication.ActOk | crates/sshx-server/src/session.rs:286-314 | One action of anyone (output, report, delivery of any message ever sent, snapshot, restart from any snapshot, loss, registration, closing, subscription, read) keeps everything in place |
| Replication.RunOk | crates/sshx-server/src/session.rs:175-213 | Every run of actions keeps the system invariant |
| Replication.AddDataOk | crates/sshx-server/src/session.rs:289-308 | Whatever overlap a delivered message has with the stored bytes, the record stays in place and is still cut at character boundaries |
| Replication.TrimmedMessage | crates/sshx-server/src/session.rs:290-291 | Cutting the front off a ciphertext message at a boundary leaves the proper message for the later position |
| Replication.ReadOk | crates/sshx-server/src/session.rs:192-201 | What a read serves is in place for its label, for any wanted chunk number |
| Replication.SnapshotOk | crates/sshx-server/src/session/snapshot.rs:33-51 | The pruned copy in a snapshot is in place |
| Replication.SystemGrows | crates/sshx/src/runner.rs:76-84 | New output leaves everything already sent, stored, saved or served in place |
| Utf8.PrevCharBoundary | crates/sshx/src/runner.rs:143-148 | The result is the largest character boundary at or before the index |
| Utf8.BoundaryIffWellFormedCut | crates/sshx/src/runner.rs:146 | In well-formed text the positions that hold no continuation byte are exactly those where both sides of a cut are well-formed |
| Utf8.DecodeCutIff | crates/sshx/src/runner.rs:115-116 | Decoding both sides of a cut apart gives the text of the whole exactly when the cut is a character boundary |
| Utf8.BoundaryNearby | crates/sshx/src/runner.rs:142-148 | A boundary lies at most three bytes back, so the search takes constant time as its comment says |
| Utf8.BetweenBoundaries | crates/sshx/src/runner.rs:120 | Between two boundaries of well-formed text lies well-formed text |
| Utf8.DecodeAppend | src/lib/Session.svelte:166 | Decoding distributes over concatenation after well-formed text |
| Utf8.CutInsideCharacter | crates/sshx/src/runner.rs:115-116 | A cut inside a character makes decoding the two sides yield more characters than the whole has |
| Utf8.FreshDecodersIff | src/lib/Session.svelte:159-166 | Fresh decoders per piece give the text of the stream, with every U+FEFF kept, exactly when no piece starts with a byte order mark |
| Utf8.StreamDecoderIff | src/lib/Session.svelte:159-166 | They agree with one decoder for the whole stream exactly when no piece after the first starts with a byte order mark |
| Encoding.DecodeEncoded | src/lib/Session.svelte:166 | Against an encoder written from section 3 of RFC 3629: every text of scalar values encodes to a well-formed string, which decodes to that text |
| Encoding.EncodeDecoded | src/lib/Session.svelte:166 | and every well-formed string is the encoding of its decoded text, so its characters are what its bytes stand for, at all four lengths |
| Encoding.WellFormedIff | crates/sshx/src/runner.rs:72-84 | The well-formed strings are exactly the encoded texts |
| Encoding.TextDecodeEncoded | src/lib/Session.svelte:166 | A fresh decoder given an encoded text shows it, but for U+FEFF at its start |
| Encoding.MaximalSubpart | src/lib/Session.svelte:166 | Where no legal character starts, the decoder replaces as one unit the longest front that is the beginning of a character, or one byte |
| Utf8.FreshDecoderDropsBom | src/lib/Session.svelte:166 | Concrete pieces whose chunk-wise text lacks a character of the stream |
| Instances.ServedMarkIsLost | src/lib/Session.svelte:159-166 | A run of the whole system (print "a", then U+FEFF, deliver both, subscribe, read) serves a batch whose pieces decrypt to the output but whose text is not its text |
| Keystreams.SegmentInvolution | crates/sshx/src/encrypt.rs:45-47 | Encryption and decryption are the same operation |
| Keystreams.SegmentDrop | crates/sshx/src/encrypt.rs:84-94 | Encrypting a suffix at its own offset gives the suffix of the ciphertext, for every offset and data |
| Keystreams.SegmentAppend | src/lib/Session.svelte:159-165 | Segments at consecutive offsets concatenate |
| Keystreams.DecryptChunksFlatten | src/lib/Session.svelte:159-165 | Decrypting consecutive chunks at running offsets equals decrypting their concatenation |
| Keystreams.XorBit | crates/sshx/src/encrypt.rs:56 | Combining two bytes sets each of the eight bits exactly when the two bits differ, which determines the byte (`Keystreams.ByteByBits`) |
| Encrypt.SegmentBits | src/lib/encrypt.ts:67-75 | The reference bit by bit: data against the cipher's output for the counter block of each position |
| Encrypt.CounterBlockBytes | crates/sshx/src/encrypt.rs:50-53 | A counter block is eight bytes of stream number and eight bytes of block number, each most significant byte first |
| Encrypt.RustSegment | crates/sshx/src/encrypt.rs:47-58 | Seeking to the offset and applying the keystream to a copy equals the position-indexed reference, for every offset and length, with the 64-bit counter wrapping; each bit of the result is set exactly when the bit of the data differs from that of the cipher's output for the counter block of its position |
| Encrypt.Ctr64.ApplyKeystream | crates/sshx/src/encrypt.rs:54-57 | The buffer is combined in place with the keystream from the current position on, byte by byte and bit by bit as `Keystreams.XorBit` says |
| Encrypt.Ctr64.Seek | crates/sshx/src/encrypt.rs:55 | Afterwards the position is the byte offset |
| Encrypt.TsSegment | src/lib/encrypt.ts:51-77 | Starting at block `offset >> 4`, padding by `offset % 16` and dropping the padding equals the same reference, with the same bits |
| Encrypt.CtrEncrypt | src/lib/encrypt.ts:67-75 | Block-wise counter mode from a counter block equals the reference from that block's position on, whose bits `Encrypt.SegmentBits` states |
| Encrypt.Pad | src/lib/encrypt.ts:63-65 | The padded buffer has the data behind exactly the padding |
| Encrypt.IncrementCounterBlock | src/lib/encrypt.ts:71 | Incrementing the last 64 bits moves to the next counter block of the same stream, wrapping |
| Encrypt.StreamKeyMadeOfBlocks | crates/sshx/src/encrypt.rs:53 | Every stream has a keystream made of its counter blocks, so the reference exists |
| Encrypt.KeystreamUnique | crates/sshx/src/encrypt.rs:53 | and it is the only one, so both encryptors produce the same bytes |
| Encrypt.CounterBlocksDistinct | crates/sshx/src/encrypt.rs:50-51 | Two counter blocks agree only for the same stream and block number |
| Encrypt.OutputStreamsDisjoint | crates/sshx/src/runner.rs:118 | Output streams have a one in their upper and the shell id in their lower 32 bits, are nonzero, and share no counter block with each other or with the input stream |
| Producer.ShellTask.Run | crates/sshx/src/runner.rs:74-139 | The loop ends in the state and with the messages that the run function gives for its events |
| Producer.ShellTask.Turn | crates/sshx/src/runner.rs:74-138 | One turn does exactly receive, send, prune |
| Producer.ShellTask.HandleEvent | crates/sshx/src/runner.rs:76-105 | Output is appended, and the third stale report without a send in between is believed |
| Producer.ShellTask.SendBehind | crates/sshx/src/runner.rs:114-130 | Sends the chunk between the two boundaries and records what was sent |
| Producer.ShellTask.PruneOld | crates/sshx/src/runner.rs:132-137 | Drops content up to a boundary at least eight mebibytes behind |
| ProducerRuns.ChunkExtent | crates/sshx/src/runner.rs:115-116 | A chunk starts exactly at the believed position, ends at a boundary, is at most 64 KiB, and reaches the end of the content or at least 65533 bytes |
| ProducerRuns.SendOk | crates/sshx/src/runner.rs:114-130 | A send happens exactly when the content reaches past a position inside the window; it is the log's ciphertext there and strictly advances the position by its length; it faults exactly when the position lies before the window |
| ProducerRuns.PruneOk | crates/sshx/src/runner.rs:132-137 | Pruning keeps the window on the log; a window start that moved is at least eight mebibytes behind, and no more than three bytes further than necessary |
| ProducerRuns.IterateOk | crates/sshx/src/runner.rs:74-138 | One turn, with or without a rewind, keeps window and positions on the log, and what it sends is a piece of the log's ciphertext between boundaries |
| ProducerRuns.FaultIff | crates/sshx/src/runner.rs:114-132 | An unsigned subtraction underflows exactly when a position before the window is adopted, or more than 12 MiB are held while less than 8 MiB were sent |
| ProducerRuns.NoRewindRun | crates/sshx/src/runner.rs:66-138 | In every run without a rewind, given reads of at most 65536 decoded bytes: no underflow, nothing waits after each turn, content stays within 12 MiB, and the messages are the ciphertext of all the output, in order, without gap or overlap |
| ProducerRuns.CaughtUpTurn | crates/sshx/src/runner.rs:107-137 | One turn without a rewind sends exactly the new output as one message and leaves nothing waiting |
| ProducerRuns.CoversFlatten | crates/sshx/src/runner.rs:117-127 | Such messages joined are the ciphertext of the output |
| ShellStore.AddDataRefines | crates/sshx-server/src/session.rs:286-314 | One call extends the unpruned log by the new part of the segment, and the record stays the window on it that starts at the log's cut |
| ShellStore.ExcessIff | crates/sshx-server/src/session.rs:300-306 | Dropping `q` chunks leaves at most the limit exactly when `q` is at least the number the pruning loop drops |
| ShellStore.RunRefines | crates/sshx-server/src/session.rs:286-314 | The same over any run, from any window that starts at its log's cut |
| ShellStore.FreshShellRun | crates/sshx-server/src/session.rs:100-118 | After any run from a fresh shell: sequence number, chunk count and byte offset agree with the log, no chunk is empty, and the stored data is the longest suffix of the log within 512 KiB |
| ShellStore.PruneRefines | crates/sshx-server/src/session.rs:296-308 | Pruning moves a window's start to the cut of the whole log and never back |
| ShellStore.SimulationRun | crates/sshx-server/src/session/snapshot.rs:106-114 | A shell and a later window on the same log stay on one log under all further segments, and become equal once the cut has passed the later window's start |
| ShellStore.SimulationObserved | crates/sshx-server/src/session.rs:286-314 | Original and restored shell keep equal sequence numbers and chunk counts, accept the same segments, and the restored data stays a suffix of the original's |
| Subscription.SubscribeChunks | crates/sshx-server/src/session.rs:175-213 | There is exactly one series of records such that every read so far found the shell present and open with that record and the next read finds it missing or closed; the loop yields the non-empty reads of exactly those, and ends with their cursor |
| Subscription.ReadIsLogSlice | crates/sshx-server/src/session.rs:192-201 | A read returns the log's chunks from the wanted one, or from the first stored one if later, to the newest, labelled with the number of bytes before them |
| Subscription.StatesObserve | crates/sshx-server/src/session.rs:184-202 | The records found at any moments of any run of the store, from a fresh or restored record, are windows on prefixes of the run's one chunk log |
| Subscription.SubscriptionRun | crates/sshx-server/src/session.rs:181-206 | Over any run of the store and any moments of reading, the batches are slices of that log in order and without overlap, each labelled with its position |
| Subscription.DeliveredPlusSkipped | crates/sshx-server/src/session.rs:194-200 | Chunks wanted equals chunks delivered plus chunks pruned in time |
| Subscription.NoSkipDeliversAll | crates/sshx-server/src/session.rs:194-206 | Over any run, without a skip the batches concatenate to the log from the first chunk wanted to the next one wanted |
| Subscription.ChainIff | crates/sshx-server/src/session.rs:192-198 | The batches cover the bytes from the first chunk wanted to the next one wanted without a gap exactly when nothing was skipped |
| Subscription.CountedResumeIff | crates/sshx-server/src/session.rs:194-200 | The number of chunks delivered names the next chunk wanted exactly when nothing was skipped, for every series of reads |
| Resume.ResumeIff | src/lib/Session.svelte:156-158 | For a browser's first subscription, written through an idle lock, while the record lives: the count never exceeds the next chunk wanted, and names it exactly when nothing was skipped and every batch that arrived has done its first step |
| Resume.ConnectionAccounts | src/lib/Session.svelte:182-188 | For any later subscription, from the count and the lock that the connections before left behind: count plus waiting plus skipped is the next chunk wanted plus what waited at the subscription; so the count is right exactly when as much waited then as waits now or was skipped, runs ahead exactly when more did, and never does when nothing did |
| Browser.NextOk | src/lib/Session.svelte:154-217 | Every step of a browser terminal and the system behind it (server action, subscription, read, arrival, disconnection with loss of what is on its way, step of the lock) keeps: the record and all its snapshots in place on one chunk log each, batches on their way slices of it in order, the account of chunks submitted, skipped and waiting |
| Browser.RunsOk | src/lib/Session.svelte:154-217 | So does every run |
| Browser.AskExactly | src/lib/Session.svelte:182-188 | Over every run of any number of connections, restarts and losses, each subscription: it asks for the chunk after the last that arrived if and only if as much waited in the lock at the one before as waits now or was skipped since, for a later one if and only if more waited, and never for a later one when nothing did |
| Browser.AsksIff | src/lib/Session.svelte:182-188 | Over every run, all subscriptions ask for the chunk after the last that arrived exactly when at each one nothing waited in the lock and nothing had been skipped since the one before |
| Browser.EverythingOnce | src/lib/Session.svelte:154-188 | Over every run in which nothing waits at a subscription, nothing is skipped, and restarts are from snapshots of the same record that count at least the chunks that arrived: every subscription asks for the right chunk, the lock is given each chunk once, in order and in its place, and without a failing task the terminal shows a prefix of the output's text if no chunk starts with a byte order mark, and, once idle, the text of all that arrived exactly then |
| Requeue.RanAhead | src/lib/Session.svelte:182-188 | A run of the whole system: b waits in the lock while the browser reconnects from chunk 1, is served again and counted twice; on the next connection the browser asks for chunk 3, wanting chunk 2, and c, held by the server, is not served; nothing was pruned, nothing waits, no restart |
| Requeue.CountsTwice | src/lib/Session.svelte:155-168 | The same on the lock alone: the second task is submitted again while it waits; the count ends at three and the output is a, b, b |
| Subscription.ContinuesIff | crates/sshx-server/src/session.rs:192-200 | From any chunk number, a subscription continues at a given position with the right count exactly when that chunk starts there and nothing is skipped |
| Resumption.ResumedIff | src/lib/Session.svelte:182-188 | Over every run from the start: a subscriber served without a skip up to position p comes back, after anything that happened to the server, at any chunk number; it continues at p exactly when that chunk starts at p in the new record's log and nothing is skipped; then both connections together spell one stretch of the output, and, when both brought something and nothing was skipped, only then |
| Resumption.PastTheEnd | crates/sshx-server/src/session.rs:194-201 | Coming back for a chunk number past the end of the new record's log serves nothing |
| Resumption.OneLog | crates/sshx-server/src/session/snapshot.rs:33-51 | While the record is not replaced, it and every snapshot taken of it stay windows on one growing chunk log |
| Resumption.ReconnectAgrees | crates/sshx-server/src/session.rs:192-201 | Without a restart in between, the chunk of a subscriber that comes back for the next chunk it wanted starts where it left off |
| Resumption.BrowserAtCursor | src/lib/Session.svelte:182-188 | A browser, which comes back for its count, comes back for the next chunk it wanted exactly when as much waited in its lock as it subscribed as waits now or was skipped |
| Resumption.BrowserReconnects | src/lib/Session.svelte:211-217 | Over every run from the start, without a restart in between: when as much waits in the browser's lock as waited when it subscribed and nothing is skipped, both connections together spell one stretch of the output |
| Resumption.RestartAgrees | crates/sshx-server/src/session/snapshot.rs:106-114 | So it does after a restart from a snapshot of this record that counts at least the chunks the subscriber had, again for one that comes back for the next chunk it wanted |
| Resumption.GuardedRestart | crates/sshx-server/src/session/snapshot.rs:106-114 | Over every run from the start, across such a restart, for a subscriber that comes back for the next chunk it wanted, both connections together spell one stretch of the output when nothing is skipped |
| Restarts.ByteLost | crates/sshx-server/src/session/snapshot.rs:106-114 | A run of the whole system: restart from the older of two snapshots, the client sends two letters again as one chunk, the subscriber comes back for chunk 2 and never gets the third of four bytes, although nothing was pruned and the server holds them all |
| Restarts.ByteTwice | crates/sshx-server/src/session/snapshot.rs:106-114 | A run of the whole system: a snapshot of an earlier record counts as many chunks as the subscriber had, and after a restart from it the subscriber gets a byte a second time |
| Instances.SkippedChunk | src/lib/Session.svelte:186-187 | Nine chunks of 64 KiB before the first read: one is skipped, the count is eight, and resuming from it delivers the last chunk again |
| Instances.LaggingCount | src/lib/Session.svelte:156-158 | Two batches in the lock, the first one started: the count covers the first only |
| Subscription.ResumeContinues | src/lib/Session.svelte:182-188 | Subscribing again from the counted chunk continues the stream as if never interrupted |
| Service.ServedAreYields | crates/sshx-server/src/web/socket.rs:228-243 | In the running system, between restarts of the server and new subscriptions, a subscriber is sent exactly what its subscription yields for the records found at its reads |
| Service.ReadsObserve | crates/sshx-server/src/session.rs:184-202 | Those records are windows on one chunk log that deliveries only extend |
| Service.RunLogged | crates/sshx-server/src/session.rs:100-111 | In every run, every live and every saved record is a window on some chunk log without empty chunks |
| Service.UndisturbedService | crates/sshx-server/src/session.rs:175-213 | Over every run from the start: between restarts a subscriber's batches cover the chunk log byte after byte exactly when nothing was skipped, and then decrypt, chunk by chunk, to one stretch of the output |
| SessionModel.ApplyKeeps | crates/sshx-server/src/session.rs:216-314 | Every operation keeps: no window listed twice, open ids within listed ids within shell ids, stored bytes equal to the two positions' difference; and keeps the list exact where it was |
| SessionModel.MoveWindowOrder | crates/sshx-server/src/session.rs:274-283 | A move puts the window last with its new or old size, the others keep their order, and none is lost |
| SessionModel.MoveWindowAt | crates/sshx-server/src/session.rs:274-283 | The same by positions: the window goes from where it is to the end |
| SessionModel.HistoryOk | crates/sshx-server/src/session/snapshot.rs:94-117 | Over every history of operations and restores from any earlier snapshot the window-list invariant holds, and until the first restore the list is exactly the open shells |
| SessionModel.PrunedShell | crates/sshx-server/src/session/snapshot.rs:34-51 | A shell's snapshot keeps sequence number, closed flag and total chunk count, holds a suffix of at most the limit, and pruning again changes nothing |
| SessionModel.SnapshotFixpoint | crates/sshx-server/src/session/snapshot.rs:23-71 | Rebuilding from a snapshot, in any order, and taking a snapshot again gives the same message; its window sizes always fit |
| SessionModel.RestoredIsOriginal | crates/sshx-server/src/session/snapshot.rs:23-123 | The rebuilt session is the original: equal counters, name, key check and window sizes and places of every shell, the same write password unless it was empty, and of each record the newest chunks within 32 KiB under their old numbers and positions; what was known of the client's machine is lost |
| SessionModel.RestoredOk | crates/sshx-server/src/session/snapshot.rs:93-117 | A restored session satisfies the invariant with the same open shells; it lists only open ones exactly when no shell was closed |
| Instances.RestoredListsClosed | crates/sshx-server/src/session/snapshot.rs:94-117 | Add a shell, close it, take a snapshot, restore: the window list holds the closed shell and no shell is open |
| SessionModel.RestoredSimulates | crates/sshx-server/src/session/snapshot.rs:106-114 | Each restored shell starts in simulation with its original |
| Sessions.PruneStored | crates/sshx-server/src/session.rs:297-308 | The pruning loop drops the least number of chunks that leaves at most 512 KiB, and moves both offsets accordingly |
| Sessions.SnapshotShell | crates/sshx-server/src/session/snapshot.rs:34-60 | The snapshot loop keeps the longest suffix of at most 32 KiB, and the window's place and size (`SessionModel.RestoredIsOriginal` says what comes back) |
| Sessions.Session.AddShell | crates/sshx-server/src/session.rs:216-232 | New shell listed last with default size; an existing id is refused and nothing changes |
| Sessions.Session.CloseShell | crates/sshx-server/src/session.rs:246-260 | Marks closed and delists; closing again changes nothing; an unknown id is refused |
| Sessions.Session.MoveShell | crates/sshx-server/src/session.rs:274-283 | Moves an open shell's window; refuses closed and unknown ids |
| Sessions.Session.AddData | crates/sshx-server/src/session.rs:286-314 | Stores the new part of an overlapping segment and prunes; refuses closed and unknown ids; leaves all else alone |
| Sessions.Session.SequenceNumbers | crates/sshx-server/src/session.rs:151-160 | Reports exactly the open shells, each with the length of the log behind its record, whatever that log is |
| Sessions.Session.Snapshot | crates/sshx-server/src/session/snapshot.rs:23-71 | The message of the session, from which it can be rebuilt as `SessionModel.RestoredIsOriginal` says, or an error exactly when its encoding reaches 1 MiB |
| Sessions.RestoreSession | crates/sshx-server/src/session/snapshot.rs:74-123 | A new session with every shell, window, counter and metadata field of the message; fails exactly when too large or a window size does not fit |
| OneShell.OperationIsAction | crates/sshx-server/src/session.rs:216-314 | Every operation of a session does to one shell's record what the system model's action does, and leaves the others alone |
| OneShell.ReportIsEntry | crates/sshx-server/src/session.rs:151-160 | One entry of the position report is what the system model reports, and is the length of the log behind the record |
| OneShell.SnapshotIsEntry | crates/sshx-server/src/session/snapshot.rs:23-61 | One entry of a snapshot is what the system model saves |
| OneShell.RestoreIsRestart | crates/sshx-server/src/session/snapshot.rs:93-117 | A rebuilt session holds the shell as the system model restarts it |
| OneShell.ReadIsYield | crates/sshx-server/src/session.rs:181-206 | A read of the system model is the next batch of the subscription loop, with its cursor |
| Convergence.ConvergesOrFaults | crates/sshx/src/runner.rs:91-137 | From any live task and any server position, after the stated number of rounds of report, turn and lossless delivery, either both are at the end of the output or the task has faulted |
| Convergence.RecoverableTurn | crates/sshx/src/runner.rs:113-136 | A round never prunes away what the server still lacks, nor faults, when the client held it within its limit or the server was not behind |
| Convergence.ConvergesIff | crates/sshx/src/runner.rs:91-130 | With at most 12 MiB held, caught up or not, both come together exactly when the server's position is not before the window, and the task faults exactly otherwise |
| Convergence.OverfullConvergesIff | crates/sshx/src/runner.rs:132-133 | With more than 12 MiB held and the server not behind, the task faults exactly when its next send ends before 8 MiB, and both come together otherwise |
| Convergence.SettledTurn | crates/sshx/src/runner.rs:113-137 | Every turn that does not fault leaves either a backlog and no counted stale report, or no backlog and at most 12 MiB |
| Convergence.MeetIff | crates/sshx/src/runner.rs:91-137 | From any state a turn can leave behind and any server position, the task faults exactly when it is `Lost`: sending on what it holds it underflows, or it prunes past a server that is behind it; otherwise both come together |
| Convergence.DrainedFaultIff | crates/sshx/src/runner.rs:132-133 | Sending on underflows exactly when more than 12 MiB are held and the next send ends before 8 MiB |
| Convergence.DrainedBounds | crates/sshx/src/runner.rs:132-137 | After sending on, the window reaches back at most 12 MiB from the end of the output, and moved only to its last 8 MiB |
| Convergence.FarBehindIsLost | crates/sshx/src/runner.rs:113-137 | A server behind the client and more than 12 MiB behind the output is lost, whatever the client holds |
| Convergence.TrimmedTurn | crates/sshx/src/runner.rs:132-137 | Every turn that does not fault leaves at most 12 MiB, or a window that starts at most 8 MiB and three bytes before the believed position |
| Convergence.DrainedStart | crates/sshx/src/runner.rs:113-137 | Sending on leaves the window where it starts, or ends with it at most one chunk and three bytes behind the point 12 MiB before the end of the output |
| Recovery.ReachableLink | crates/sshx/src/runner.rs:74-138 | In every state the whole system can reach, a live task and an open shell satisfy the premises of `Convergence.MeetIff` and of the tests on positions |
| Recovery.QuietRoundLink | crates/sshx-server/src/grpc.rs:242-248 | A round is three steps of the whole system: report, arrival, delivery |
| Recovery.QuietIff | crates/sshx/src/runner.rs:91-137 | From every reachable state with a live task and an open shell, quiet rounds end, within a bounded number, with both at the end of the output if and only if the client is not lost, and with a fault otherwise |
| Recovery.QuietByPositions | crates/sshx/src/runner.rs:91-137 | From every reachable state, two tests on positions that leave a gap of 64 KiB and three bytes: one is sure to end with both at the end of the output, the other with a fault |
| Outages.AfterLongOutage | crates/sshx/src/runner.rs:113-137 | A concrete run: 2050 reads arrive, 3072 are lost, three reports and one more read; the client's window then starts exactly at the server's position |
| Outages.PrunedBeforeResent | crates/sshx/src/runner.rs:113-137 | From there, any sufficient number of quiet rounds ends with the client at fault |
| Outages.RollingUnderflow | crates/sshx/src/runner.rs:132 | A concrete run in which the subtraction of 8 MiB underflows: nothing arrives for 12 MiB, three reports, one more read |
| Convergence.RoundProgress | crates/sshx/src/runner.rs:113-130 | Every round that does not fault strictly decreases the number of rounds left, down to none |
| Convergence.RoundsLeftBound | crates/sshx/src/runner.rs:91-129 | The number of rounds is at most one per 65533 bytes of either backlog, plus two |
| Convergence.TooFarBehind | crates/sshx-server/src/session.rs:289 | A server before the window never accepts anything again, however many rounds pass |
| Convergence.ThirdReportFaults | crates/sshx/src/runner.rs:91-115 | A caught-up task faults at exactly the third report in a row of a position before its window, not earlier |
| Convergence.RestartedServerFaults | crates/sshx-server/src/grpc.rs:174-188 | A concrete run from the start reaches the underflow at line 115 of the client: 3073 reads of 4096 letters, then a fresh shell on the server and three reports |
| Users.HandleDiffMap | src/lib/Session.svelte:169-176 | The browser's filter-and-append does to the list what the difference does to the map, and keeps ids distinct |
| Users.HandleDiffOrder | src/lib/Session.svelte:171-175 | By positions: the user's entry goes from where it was, the others keep their order, a new entry comes last |
| Users.DeliverIff | crates/sshx-server/src/session.rs:132 | A receiver with sixteen unread differences is cut off by the next one, any other gets it last |
| Users.ActOk | crates/sshx-server/src/web/socket.rs:132-148 | Every change, broadcast, subscription, listing, forwarding and departure keeps every observer on course |
| Users.RunOk | crates/sshx-server/src/web/socket.rs:132-178 | So does every run |
| Users.ViewsConverge | crates/sshx-server/src/session.rs:78-83 | In every reachable state, applying the queued and the not yet broadcast differences to any observer's list gives exactly the server's users |
| Users.ReplayChangesNothing | crates/sshx-server/src/session.rs:80-82 | A series of differences is idempotent as a whole, also when the list already contains them |
| Users.UserTable.UserScope | crates/sshx-server/src/session.rs:340-365 | Adds and broadcasts a user named "User" and its id, without cursor or focus, unless the id is taken; the map is the old one with the broadcast difference applied |
| Users.UserTable.UpdateUser | crates/sshx-server/src/session.rs:326-337 | Applies the callback to an existing user and broadcasts the result, the same way; fails exactly for an unknown id |
| Users.UserTable.RemoveUser | crates/sshx-server/src/session.rs:368-373 | Removes and broadcasts, even if the user was not there |
| Users.UserTable.ListUsers | crates/sshx-server/src/session.rs:317-323 | The map as a list with each user once, in any order |
| Hello.HelloRoundTripIff | crates/sshx/src/controller.rs:234-240 | Parsing the printed message gives back name, token and the same ids exactly when the name has no comma and neither has a semicolon |
| Hello.ParseHelloIff | crates/sshx-server/src/grpc.rs:156-161 | Any first message is read as a greeting exactly when a comma comes before the first semicolon; the name ends at the first comma, the token at the first semicolon |
| Hello.ParseIdsAppend | crates/sshx-server/src/grpc.rs:176-178 | Parts are read one by one in order, and what is no number is passed over (`Hello.ParseIdsOne`) |
| Hello.HelloRoundTrip | crates/sshx-server/src/grpc.rs:156-161 | The same in the forward direction, for every list of 32-bit ids including the empty one |
| Hello.IdsRoundTrip | crates/sshx-server/src/grpc.rs:175-188 | Printed ids are read back as the same ids in the same order |
| Numbers.ParseDecimal | crates/sshx-server/src/grpc.rs:177 | Every 32-bit number is parsed back from its decimal form |
| Numbers.ParseU32Iff | crates/sshx-server/src/grpc.rs:177 | A part is read as a 32-bit number exactly when, behind at most one plus sign, it is at least one digit and the digits are those of the number, place by place |
| Numbers.DecimalPlain | crates/sshx/src/controller.rs:236 | A printed number is its decimal digits, place by place, without a zero in front |
| Hello.SplitJoin | crates/sshx-server/src/grpc.rs:176 | Splitting a joined list gives the list |
| Hello.SplitOnce | crates/sshx-server/src/grpc.rs:156-159 | Splits at the first separator, and fails exactly when there is none |
| Reconciliation.RecoverOpens | crates/sshx-server/src/grpc.rs:175-188 | Recovery opens exactly the named unknown shells; closed shells stay closed |
| Reconciliation.RecoverAdds | crates/sshx-server/src/grpc.rs:175-188 | Recovery keeps all that the session held and adds, for each new shell, an empty record and a window of 24 by 80 at the origin |
| Reconciliation.CloseCloses | crates/sshx-server/src/grpc.rs:299-303 | The answers close exactly the named shells |
| Reconciliation.CloseMarks | crates/sshx-server/src/session.rs:246-260 | Closing keeps every record and marks exactly the named shells |
| Reconciliation.Reconciled | crates/sshx/src/controller.rs:295-304 | From any pair of sets, hello and one exchange leave open exactly the keys of the client's table that the server had not already closed |
| Reconciliation.Controller.HelloString | crates/sshx/src/controller.rs:234-240 | Prints name, token and every key of the table, each once, in some order; without keys no semicolon |
| Reconciliation.Controller.HandleCreate | crates/sshx/src/controller.rs:281-289 | Starts and announces a shell with its id and place exactly when the id is not in the table |
| Reconciliation.Controller.HandleClose | crates/sshx/src/controller.rs:290-294 | Removes the key, which ends the shell, and answers either way |
| Reconciliation.Controller.TaskEnds | crates/sshx/src/controller.rs:346-350 | A shell that ends by itself is reported closed and keeps its key |
| Reconciliation.Controller.HandleSync | crates/sshx/src/controller.rs:295-304 | Forwards the positions of the keys in the table and answers exactly the others as closed |
| Reconciliation.RecoverFromHello | crates/sshx-server/src/grpc.rs:154-188 | Fails exactly when name and token cannot be parsed, the token is not valid for the name or there is no such session; else registers the named shells in that session, orders a resize for every one, and leaves the other sessions alone |
| Reconciliation.HandleClosedShells | crates/sshx-server/src/grpc.rs:299-303 | Closes each answered shell |
| Reconciliation.Reconnect | crates/sshx-server/src/grpc.rs:148-188 | A whole reconnection through the printed message on the session object ends with exactly the reconciled set; those of it without a task are exactly the ended keys the server did not hold as closed |
| Reconciliation.EndedShellReopens | crates/sshx/src/controller.rs:220-228 | A shell is created and ends, the session is lost: the next hello opens it in the empty session, and the reconnection after that leaves it open |
| AsyncLock.RunOk | src/lib/lock.ts:3-29 | Over any interleaving of submissions, steps, completions and rejections: at most one task runs, a nonempty queue implies an active task, tasks start in submission order exactly once, writes come in that order |
| AsyncLock.WritesInOrder | src/lib/Session.svelte:156-168 | Without failures the terminal shows a prefix of all submitted writes, and all of them once nothing runs |
| Terminal.TerminalText | src/lib/Session.svelte:154-168 | Batches that spell a stretch of the output, written through the lock without a failure: the terminal shows a prefix of its text if no piece starts with a byte order mark, and, once the lock is idle, the whole text exactly then |
| Terminal.TerminalShowsOutput | src/lib/Session.svelte:154-168 | Over every run from the start, for a subscriber between restarts from which nothing was skipped: the same of the whole path from the output log to the terminal |
| AsyncLock.CountIsCompleteIff | src/lib/Session.svelte:157-158 | The count covers all chunks that arrived exactly when no batch waits for its turn or its first step, also when tasks fail |
| AsyncLock.Lock.Submit | src/lib/lock.ts:21-26 | Starts at once exactly when nothing is active, queues otherwise |
| AsyncLock.Lock.OnSettled | src/lib/lock.ts:13-20 | Starts the oldest queued task, or becomes inactive |
| Srocket.ActOk | src/lib/srocket.ts:63-128 | Every event keeps: at most one live socket and it is the current one, one pending reconnection exactly when there is none, connected means open with an empty queue, no error thrown, every message accounted for once |
| Srocket.AtMostOnce | src/lib/srocket.ts:62-76 | Over every run neither invariant error is raised, no message is handed over twice, and each is exactly one of handed over, queued, refused |
| Srocket.OpenedFlushes | src/lib/srocket.ts:110-124 | On opening, the onConnect messages and then the whole queue in send order go to that socket |
| Srocket.RefusedIff | src/lib/srocket.ts:68-75 | A message is refused exactly when not connected with 64 queued |
| Srocket.Socket.constructor | src/lib/srocket.ts:40-56 | A new object is connecting, with everything else empty |
| Srocket.Socket.Submit | src/lib/srocket.ts:63-76 | Hands over, queues or refuses as the model says |
| Srocket.Socket.Retire | src/lib/srocket.ts:78-82 | Disconnects and never reconnects |
| Srocket.Socket.OnOpen | src/lib/srocket.ts:91-93 | The state after a socket opened |
| Srocket.Socket.OnClose | src/lib/srocket.ts:94-99 | The state after a socket closed, with one timer started |
| Srocket.Socket.OnTimer | src/lib/srocket.ts:84-90 | Reconnects unless disposed |
| Srocket.Socket.FlushQueue | src/lib/srocket.ts:116-123 | Hands over the whole queue in order and empties it |

## Left out

Assumptions of the model:

- The network, the subscribers' reads and the server's restarts are arbitrary sequences of actions; which wakeups of `Notify` arrive is not modelled, so nothing is claimed about when a subscriber is woken.
- One shell task per shell id, hence one log per id; `Replication` follows one shell, and shells do not share state.
- `add_shell` and `close_shell` change the shell map and the window list in two steps; each is one step here.
- The streaming UTF-8 decoder of the client is a library: it appends whole characters, and where runs without a rewind are concerned one read decodes to at most 65536 bytes.
- Sequence numbers are mathematical: wrap-around of 64-bit sums and the browser's 53-bit numbers are not modelled. Subtractions of unsigned positions in the client are: an underflow stops the task (debug builds panic there; a release build wraps and then searches back through about 2^64 positions).
- AES is an arbitrary function on blocks, fixed per session; key derivation (Argon2), MACs, zstd, protobuf and CBOR are not modelled. The size of an encoded snapshot is a parameter.
- A browser subscribes to a terminal only while it is listed and open; what is on its way when a connection ends is lost, and nothing of an old connection arrives later. Steps of its lock may happen at any time, also while disconnected.
- Whether a token is valid for a name is a parameter; so is the map from names to sessions.

Weaker than the source, or on values where the source works in place:

- Sessions.Session: the record of one shell is a value that the methods replace in the map, so handing out a reference to it under the lock is not captured.
- Reconciliation.Reconnect: assumes no concurrent create or close and no loss during the exchange, as the claim is about exactly that situation; the interleaved traffic is covered for output by `Replication` only.
- Recovery.QuietIff: covers the quiet case with lossless delivery; nothing is claimed about progress while the terminal keeps printing or messages keep getting lost.
- Users.ActOk: each user is changed by one connection's task, so a second change to it starts only after the first was broadcast; a receiver that falls 16 differences behind is cut off, which ends that observer; the broadcast library beyond this is not modelled.
- Srocket.Socket.Retire: the asynchronous effect of closing the socket is an ordinary closing event that may follow at any time, not part of the call.
- AsyncLock.RunOk: a task is a count followed by writes and may fail at any point; a task that throws before returning its promise is not modelled.

Not modelled:

- `echo_task` (crates/sshx/src/runner.rs:150), a test double.
- Login, permissions, chat and latency measurement.
- Session ownership, storage and transfer between servers (crates/sshx-server/src/state.rs, crates/sshx-server/src/state/mesh.rs), which rest on Redis key expiry.
- Keyboard input on its way to the terminal, beyond its stream number; local prediction of it (src/lib/typeahead.ts).
- The user interface.
