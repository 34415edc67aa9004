# Virtual home directories: a verified model

The server keeps one home directory per user and forks one process per connection. This project
models what its processes do to files and to shared memory, what server and client say to each
other, and the small pieces both rest on, and proves what users of the system rely on. All proofs
are for every input, every run or every reachable state unless a row says otherwise.

## How the model is built

- **Shared memory** (`sh_mem/sh_mem.c`). `SharedTable` gives each critical section as a function on
  the table; `SharedMemory` is the code itself, a class over the two arrays with the semaphore
  around every operation, tied to those functions. `TableRefinement` shows that the recycled array
  is a finite map from id to pending request. `RequestRuns`, `Notification`, `AnsweredRequests` and
  `Semaphore` are state machines over any number of processes that may die: who settles a request,
  whether its recipient hears of it, whether its sender is told, and what the lock guarantees.
  `RequestOutcomes`, `RequestOrigins` and `WaitingClients` say of these runs which step decided what:
  who gave a request its status, where it and its message come from, and who waits for it.
- **Wire** (`network/network.c`, the streams of `transfer/transfer.c`). `Framing` and `Streams` say
  what a byte sequence means; `Network` and `Transfer` are the loops over a socket whose `send()`
  and `recv()` move any part of what they are asked to and may be interrupted. `Conversation` is
  the command protocol of both sides as a state machine over packet heads; `ConversationAnswers` ties
  what the client is told to what became of its command, and `ConversationBytes` shows that the
  streaming steps consume and produce the packets the byte streams consist of.
- **Files** (`transfer/transfer.c`, `locks/locks.c`, the handlers of `main-server.c`). `Posix` is
  the file system as a value, with `rename()`, `unlink()` and `fcntl()` locks as in POSIX.1-2017
  (System Interfaces volume). `Disk` and `Uploads` are one call at a time, in place, with a trail of
  every state a crash could leave. `Processes` lets any number of sessions interleave at system-call
  granularity; `ProcessInvariants` and `ProcessSteps` carry the invariant. `CommandRuns` and
  `CommandAnswers` trace every job to the command it works for and every answer to what was done;
  `VersionTheorems`, `RacingWriters`, `LostUploads`, `HeldLocks` and `Leftovers` hold the results about
  contents, locks and what is left behind, and `RacingRuns` concrete runs that show them.
- **Kernels**: `CommandLine`, `Sandbox`, `StringBuffer`, `Background`.

What the outside decides (short reads and writes, signals, failing calls, scheduling, deaths, what
`realpath()` and `mkstemp()` answer, whether memory is available) is a nondeterministic choice or a
parameter. `up` and `reliable` say that the connection stays up and that system calls on the disk succeed;
they are needed only where a clause promises success. `interrupts` bounds the number of signals,
which is what makes the retry loops end.

## What the proofs found

- `write -offset=N`: when the seek fails after "Ready to receive data" was sent, the error is
  answered at once and the client's stream is read as commands. When the client first returns to its
  main loop the sides are out of step, whatever both did meanwhile
  (`Conversation.SeekFailureStrands`; transfer/transfer.c:206-211 by way of 384-407).
- An answer to a transfer request is an OK or an error like the answer to any command. One that
  nobody on its connection waits for puts the sides out of step exactly when a waiting client takes it
  (`Conversation.LockstepExactly`, which names the one harmless case). It comes about in two ways: it
  goes to whichever session of the sending user is found first (`AnsweredRequests.FirstSlotIsTold`),
  or the sender was told that its request failed although only the message to the recipient did
  (`Conversation.UnannouncedStaysOpen`; main-server.c:529-546).
- A sender may wait for an answer that nobody will give: when another session of its user ends first
  (`AnsweredRequests.DisconnectStrands`; main-server.c:1175-1178), or when whoever took the request
  does not find the sender or cannot write to it (`AnsweredRequests.ErrandStrands`).
- Who hears of a request is decided by the first slot that bears the recipient's name when the sender
  looks (`Notification.WindowOnly`). A recipient who logs in between look-up and request-add hears
  nothing (`Notification.WindowLosesRequest`), nor does a session behind another one of its user,
  alive or killed and not yet collected (`Notification.TwinTakesMessage`), nor one whose sender is
  killed behind the request-add (`Notification.DeadSenderNeverSignals`).
- A process killed between growing the table and storing the entry leaks a pending slot with id 0
  for good, unless a settled slot could be reused or the table is full (`RequestRuns.CrashLeaksSlot`).
- SUMMARY.md:39 promises that nobody else can write while someone is writing. Locks belong to
  inodes, so this holds for inodes and not for paths (`RacingRuns.TwoWritersOnePath`,
  `RacingWriters.JoinsWriter`). A write at an offset whose file was replaced or removed before its
  lock is acknowledged and lost (`RacingWriters.WriteToReplacedFile`).
- A failed upload restores its target except when `mkstemp()` fails and leaves in its template the
  name of the target itself; then the clean-up removes the old file (`Uploads.ReceiveViaTemp`).
- The clean-up of a command that had found its target absent unlinks whatever is there by then: an
  upload another session was told went well is lost (`LostUploads.UndoLosesUpload`,
  `RacingRuns.LostUpload`; transfer/transfer.c:404-406).
- A failed `fork()` still counts as a background operation, so `exit` is never honoured again
  (`Background.NeverExits`; main-client.c:344-347 and 457). The same happens when a child ends silently.
- A transfer copy whose lock is refused leaves an empty file (`Uploads.ExecuteTransferCopy`).
- The empty path passes `validate_path` uncanonically as "<working directory>/." (`Sandbox.EmptyPath`);
  no command line yields one (`CommandLine.AcceptedIsValid`).

## Model

| member | source | states |
|---|---|---|
| `SharedMemory.SharedMemory.SemLock` | sh_mem/sh_mem.c:3-14 | Interrupted decrements are retried; on success the free semaphore is taken, a removed one is reported and nothing is taken. |
| `SharedMemory.SharedMemory.SessionAdd` | sh_mem/sh_mem.c:130-161 | The session lands in the first vacant slot or a new one, with the process and the name as far as its field holds it, and is refused exactly when the table is full; no other slot changes. |
| `SharedMemory.SharedMemory.SessionFind` | sh_mem/sh_mem.c:168-196 | Reports the process of the first slot that bears the user's name and whether that slot is in use, changing nothing. |
| `SharedMemory.SharedMemory.SessionsCollectStale` | sh_mem/sh_mem.c:202-221 | Exactly the sessions of dead processes go offline. |
| `SharedMemory.SharedMemory.RequestAdd` | sh_mem/sh_mem.c:227-265 | The array afterwards is the table after `Add`: a settled slot is reused or one is appended, with the next id. The entry is pending and carries the given sender, recipient and path, cut only at 32, 32 and 4095 characters. |
| `SharedMemory.SharedMemory.RequestTake` | sh_mem/sh_mem.c:271-305 | Only the named recipient of a pending request changes its status and gets a copy of it; each refusal has its error and changes nothing. |
| `SharedMemory.SharedMemory.RequestSet` | sh_mem/sh_mem.c:310-327 | Sets the status of the slot with that id, or reports that there is none. |
| `SharedMemory.SharedMemory.RequestsSetFailed` | sh_mem/sh_mem.c:335-354 | Fails exactly the pending requests the user sent and returns how many. |
| `SharedMemory.SharedMemory.RequestsForDest` | sh_mem/sh_mem.c:362-381 | Copies out the first `max` pending requests for the user, in slot order. |
| `TableRefinement.AddRefines` | sh_mem/sh_mem.c:240-263 | Adding inserts, under a new id, a pending request with the given sender, recipient and path, cut only where their fields end, into the map of pending requests and keeps every other; it is refused with ENOMEM exactly when MAX_ENTRIES requests are pending. |
| `TableRefinement.TakesWhatWasSent` | sh_mem/sh_mem.c:227-305 | Under the id that adding returned the recipient, and nobody else, takes a request with exactly the given sender, recipient and path, if these fit their fields; also on a table with slots a crash leaked. |
| `TableRefinement.TakeRefines` | sh_mem/sh_mem.c:280-301 | Taking succeeds exactly for a pending id whose recipient asks, returns that request and removes it from the map. |
| `TableRefinement.SetStatusRefines` | sh_mem/sh_mem.c:310-327 | A final status removes at most that id from the map; ENOENT exactly when no slot has the id. |
| `TableRefinement.FailSentRefines` | sh_mem/sh_mem.c:341-349 | Disconnecting removes exactly the sender's pending requests from the map and counts them. |
| `TableRefinement.ForDestRefines` | sh_mem/sh_mem.c:362-380 | With room for MAX_ENTRIES the list holds every pending request for the user, each once. |
| `RequestRuns.OneWinner` | main-server.c:360-391 | In every run, deaths at the modelled points included, an id leaves PENDING at most once (accept, reject or disconnect), its history is a legal one, and at most one copy is started for it. |
| `RequestOutcomes.StatusExactly` | sh_mem/sh_mem.c:227-354 | After any run, a step writes PENDING to the history of an id exactly when it sends the request of that id with room in the table, REJECTED or ACCEPTED exactly when the recipient a pending request waits for answers so, FAILED exactly when it ends the failed copy of that request or is the disconnect, complete or cut short behind its slot, of the sender of a pending one; no step writes anything else, and a copy is started exactly by the accept with a known sender. |
| `RequestOutcomes.CopiesWhatWasSent` | main-server.c:360-391 | In every run whoever copies for an accepted request has the sender, recipient and path of the definite earlier step that sent it under that id, cut only where their fields end. |
| `RequestRuns.HistoryOnlyGrows` | sh_mem/sh_mem.c:240-265 | Slots are recycled, yet what was observed of an id is only ever extended, never rewritten. |
| `RequestRuns.LoserIsRefused` | sh_mem/sh_mem.c:286-296 | Once an id has left PENDING every later accept, reject or disconnect leaves it alone for the rest of the run. |
| `RequestRuns.LateWriteIsSafe` | main-server.c:388-391 | The status write after a failed copy hits the very request that was taken or returns ENOENT; never a newer request in its slot. |
| `RequestRuns.CrashLeaksSlot` | sh_mem/sh_mem.c:240-261 | After any run, a crash between growing the count and storing the entry leaks the next slot exactly when no slot is settled and fewer than MAX_ENTRIES are in use; a leaked slot stays lost in every continuation, and otherwise no entry changes. |
| `Notification.WindowOnly` | main-server.c:498-546 | A live session that has scanned gets neither a message nor a scan line about a pending request for its user exactly when the add came after the scan and either the sender was gone before its signal or the session's slot was not the first with the name when the sender looked; then it had not registered yet, and registration and scan lie between look-up and add, or another session of the user was found. |
| `Notification.WindowLosesRequest` | main-server.c:263-276 | A six-step run in which a request is neither signalled nor reported. |
| `Notification.TwinTakesMessage` | sh_mem/sh_mem.c:168-196 | After any run in which another session of the user holds the first slot, a request sent now leaves a session that has scanned without message or line; the message goes to the other session, or nowhere if that one is dead. |
| `Notification.TwinsLogIn` | main-server.c:263-270 | Such runs, with the first session alive and with it killed. |
| `Notification.DeadSenderNeverSignals` | main-server.c:529-541 | A sender killed between its request-add and its message leaves the request unsignalled in every continuation of every run. |
| `RequestOrigins.SentByCommand` | main-server.c:498-546 | In every run a request was added by its sender under the id that was next, behind a look-up that found a session of the recipient or an account of somebody else; its message was sent exactly to the session found then if that was still alive, failed if it was not, and is not wanted exactly when none was found. |
| `RequestOrigins.DisconnectEnds` | main-server.c:1175-1178 | The end of a session fails exactly the pending requests of its user, touches no other, and ends the messages its process still had to write. |
| `AnsweredRequests.AnswerableExactly` | main-server.c:360-463 | After any run, some continuation tells a waiting sender about its request exactly when somebody is about to write to its session, or has taken the request and finds that session first once all others are gone, or the request is still pending, its recipient has a name one can log in with and the sender holds its user's first live slot. |
| `AnsweredRequests.WaitsForEver` | main-server.c:360-463 | Once its request is settled and nobody runs the errand for it, no continuation tells the sender; it waits as long as it lives unless a line about another request misleads it. |
| `AnsweredRequests.DisconnectStrands` | main-server.c:1175-1178 | After any run in which another session of a waiting sender's user ends while the request is pending, the sender is never told. |
| `AnsweredRequests.ErrandStrands` | main-server.c:366-407 | Nor is it ever told once the taker of its request found nobody, failed to write or wrote to another session of the user. |
| `AnsweredRequests.FirstSlotIsTold` | sh_mem/sh_mem.c:168-196 | The look-up for a waiting sender finds its session exactly when the first slot with the user's name is its own; otherwise the line goes to the session in that slot. |
| `AnsweredRequests.WaitsBesideTwin` | main-server.c:498-546 | Such a run: a sender waits for a pending request beside another session of its user. |
| `WaitingClients.WaitsExactly` | main-server.c:529-546 | In every run a session waits for the answer to a request exactly when it sent that request, its recipient did not fail to be told, and since then no line was written to the session, which has neither ended nor died. |
| `Semaphore.ValuePlusHolders` | sh_mem/sh_mem.c:3-27 | Value plus processes inside is 1 in every run with kills anywhere; a process is owed an undo of 1 exactly while inside. |
| `Semaphore.EntersExactly` | sh_mem/sh_mem.c:3-14 | After any run a process that is outside gets in exactly when nobody is inside. |
| `Semaphore.UnlockLetsIn` | sh_mem/sh_mem.c:16-27 | Whoever leaves after its last store is outside, leaves the segment as it is and lets any waiting process in. |
| `Semaphore.KillNeverBlocks` | sh_mem/sh_mem.c:3-27 | After the holder is killed any waiting process gets in. |
| `Semaphore.SectionsAreSerial` | sh_mem/sh_mem.c:3-27 | The segment always equals what the critical sections write one after another in lock order; only killed ones are cut short. |
| `Framing.DecodeEncode` | network/network.c:86-99 | Encoding then decoding a packet gives it back and leaves the rest; a buffer that is too small is refused behind the header. |
| `Framing.EncodeDecode` | network/network.c:116-156 | Whatever decodes is the encoding of what was decoded: the other direction of the round trip. |
| `Framing.RoundTrip` | network/network.c:101-156 | Any sequence of packets decodes to itself and consumes exactly its bytes. |
| `Framing.UniquelyDecodable` | network/network.c:86-99 | Two sequences of packets with the same bytes are the same sequence. |
| `Framing.Layout` | network/network.c:86-99 | The bytes of a packet one by one: 0xAB, 0xCD, the code, the payload length with its most significant byte first, the payload. |
| `Framing.DecodedExactly` | network/network.c:116-156 | Exactly which bytes are accepted, refused as oversized or no packet, byte by byte, and what each case leaves unread. |
| `Network.Socket.SendData` | network/network.c:39-52 | Sends all of the buffer or, on failure, a prefix; the loop ends. |
| `Network.Socket.ReceiveData` | network/network.c:60-77 | Fills exactly the asked part of the buffer with the next bytes, whatever pieces they come in. |
| `Network.BuildPacket` | network/network.c:86-99 | The buffer holds the encoding of the packet and is otherwise untouched. |
| `Network.Socket.SendPacket` | network/network.c:101-114 | Oversized payloads are refused unsent; otherwise the whole packet goes out. |
| `Network.Socket.RecvPacket` | network/network.c:138-156 | Receives exactly what `Decode` reads off the incoming bytes, or fails as it does. |
| `Network.Socket.RecvFrameInto` | network/network.c:181-197 | The same into the caller's buffer, with EIO for a payload that does not fit. |
| `Streams.StreamRoundTrip` | transfer/transfer.c:202-268 | However the data was cut into frames the bytes scan to exactly it and the scan stops behind the end frame; an error frame ends the stream there. |
| `Transfer.SendStreamBuf` | transfer/transfer.c:134-154 | Sends frames that carry exactly the buffer and an end frame, and returns its length. |
| `Transfer.SendStream` | transfer/transfer.c:156-196 | Sends the file from the offset to its end under any pattern of short reads; an error leaves whole frames of a prefix. |
| `Transfer.WriteAll` | utils/utils.c:87-104 | Overlays all of the buffer at the file offset or a prefix of it; every state on the way shows a prefix. |
| `Transfer.RecvStream` | transfer/transfer.c:202-268 | Consumes the stream to its end even when the disk fails; the file is overlaid by a prefix of the payloads, all of them on success. |
| `Transfer.StreamArrives` | transfer/transfer.c:134-268 | What either sender delivered scans to its data at the other end, whatever follows it on the connection. |
| `Transfer.BufferAcross` | transfer/transfer.c:134-268 | send_stream_buf into recv_stream: the file gets exactly the buffer, both ends report its length and what follows stays on the connection, under any pieces. |
| `Transfer.FileAcross` | transfer/transfer.c:156-268 | send_stream of a file from an offset on into recv_stream: the same for its content behind the offset. |
| `Uploads.OpenTempForUpload` | utils/utils.c:107-141 | Creates a fresh empty file next to the target, or changes nothing. |
| `Uploads.TempNamesAreTemporary` | utils/utils.c:113-128 | Every name the upload may give its temporary file is next to the target and of the kind clients are assumed not to use. |
| `Uploads.CleanUp` | transfer/transfer.c:454-484 | Unlocks, removes the temporary file and, if the target was absent before, the target. |
| `Uploads.ReceiveViaTemp` | transfer/transfer.c:320-468 | Stopped anywhere the target is old, absent or an empty placeholder (only if absent before), or complete. A complete upload holds exactly the received bytes, with the nine permission bits of the file it replaces and no other bit, or 0700 where there was none. Failure restores presence and content and leaves no new name, if and only if it is not the case that mkstemp() failed and left the name of the present target in its template; then exactly the target is gone. |
| `Uploads.UnnamedFailure` | transfer/transfer.c:320-343 | The clean-up after a failing mkstemp() restores the target unless the template then bears the name of a file that is the target; in that case it removes it and nothing else. |
| `Uploads.NameOfItsTemplate` | utils/utils.c:113-128 | "/.tempXXXXXX" is a target that bears the name of its own template. |
| `Uploads.ReceiveAtOffset` | transfer/transfer.c:297-319 | Success overlays the old content at the offset by all received bytes; failure of an existing file by a prefix of them, of a new file by removing it. |
| `Uploads.ReceiveIntoFile` | transfer/transfer.c:277-484 | Both kinds of upload behind one call, as `upload` and `write` use it: contents and permissions on success, restoration on failure with the same one exception, and the stream read to its end whenever the permission was given and the disk works. |
| `Uploads.SendFile` | transfer/transfer.c:486-584 | The announced size is the length of the content from the offset on, and exactly that content is streamed. |
| `Posix.FromBytes` | transfer/transfer.c:541-555 | What "from the offset on" means, byte by byte, also behind the end of the file. |
| `Posix.OverlayBytes` | utils/utils.c:87-104 | What a write at an offset leaves, byte by byte: the data at its place, the old bytes around it, zeros in a gap, and no byte more. |
| `Uploads.SizeFits` | transfer/transfer.c:541-555 | The text of every file size fits the 32-byte buffer. |
| `Uploads.DownloadArrives` | transfer/transfer.c:263-265 | The client reads the announced size back and the stream scans to exactly that many bytes, so its length check never fires. |
| `Uploads.ExecuteTransferCopy` | transfer/transfer.c:17-128 | Success makes the destination equal to the source; an existing destination is never changed; a read or write failure removes what was created; a refused lock leaves an empty file. |
| `Conversation.Lockstep` | main-server.c:220-1019 | In every run in which no waiting client takes a stray answer and no seek fails behind a permission, the client is back in its main loop only when the server is, with every reply and data packet consumed; stray answers the main loop drains do no harm. |
| `Conversation.NoDeadlock` | main-client.c:106-251 | In every such run a client that waits, other than for the answer to a transfer request, can be served by a step that is neither a notification nor a line about a transfer request; it may be reading a notification that is under way. |
| `Conversation.ExchangeEnds` | main-client.c:106-251 | From any state, once notifications, stray lines and data packets stop, the two sides make at most `ToDo` more steps: every exchange ends. |
| `Conversation.ReturnsAtLast` | main-client.c:106-251 | From any state in step such steps bring the client back to its main loop in step, unless others owe it an answer or a stray answer is next. |
| `Conversation.LockstepExactly` | main-server.c:220-1019 | For any command sent at a boundary and any run to the client's first return: the sides are at a boundary again exactly when no stray answer was taken and no seek failed, or a stray OK was taken for the size of a stream that is refused at once. |
| `Conversation.SeekFailureStrands` | transfer/transfer.c:384-407 | After a failed seek the answer is an error in any case; and however client and server go on, at the client's first return to its main loop packets of the stream or errors they caused are still under way. |
| `Conversation.StrayComesFirst` | main-server.c:385-407 | A late or misdelivered line in front of the reply to any plain command is taken for it, OK or error as the line has it; the client is back before the server has read the command. |
| `Conversation.UnannouncedStaysOpen` | main-server.c:529-546 | A request whose message fails is answered with an error and stays open, in step: one late line about it is still to come. |
| `ConversationAnswers.ToldTheTruth` | main-server.c:220-1019 | In every run that stays in step the packet with which the client returns to its main loop is the one that was decided for its command: RSP_ERR exactly when it was refused, a stream broke off on either side, the final report failed, the recipient of a request could not be told or the request was settled with an error; else the end of the stream it asked for, or RSP_OK. |
| `ConversationBytes.ReceivingIsScanning` | transfer/transfer.c:202-268 | The server's receiving steps consume exactly the packets whose bytes the scan of recv_stream consumes; the answer that follows is RSP_OK exactly when the scan is complete and nothing failed locally, and RSP_ERR otherwise. |
| `ConversationBytes.FetchingIsScanning` | transfer/transfer.c:202-268 | The client returns to its main loop right behind the frame that ends the scan. |
| `ConversationBytes.SendingIsStreaming` | transfer/transfer.c:486-584 | The answering, chunk and end steps put exactly the packets of an announced stream on the wire. |
| `ProcessSteps.RunKeepsInv` | transfer/transfer.c:277-584 | Locks exclude, inode numbers are not reused, temporary files stay private and hold what was received, and every inode holds what its history says, in every interleaving. |
| `HeldLocks.HoldsExactly` | locks/locks.c:18-41 | In every interleaving a process holds exactly the locks its place in its command calls for: none before it has asked for one, none when its client is answered, none once it died. |
| `CommandRuns.BegunByCommand` | main-server.c:552-935 | Every job of every run goes back to a definite earlier command of its process, which was idle then, and has worked for it ever since: with its paths, its offset, its data, what stat() said of its target and the files its paths led to at that step. |
| `CommandAnswers.AnswersTell` | main-server.c:552-935 | In every interleaving a client is told that its command went well exactly when its process did, at some step since the command came, what it is for: sent or copied all, put a file with exactly the uploaded bytes in place, moved or removed the file, created an empty one, or received the end of the write. |
| `Leftovers.FailureLeavesNothing` | transfer/transfer.c:384-484 | When a command that found its target absent, or a copy that had begun to write, ends without success, no file is at its target at that step. |
| `Leftovers.TempsBelong` | transfer/transfer.c:320-484 | In every run a temporary file that still has a name belongs to an upload under way or to a process that was killed. |
| `VersionTheorems.GrantedBefore` | locks/locks.c:18-41 | The content a process works from is what the inode held at a definite earlier step, when its lock was granted; it has worked from it ever since. |
| `VersionTheorems.StableDownload` | transfer/transfer.c:486-584 | In every interleaving a download sends the file its path led to when the command came, as it was at lock time, from the offset of the command on; announced size and bytes sent agree. |
| `VersionTheorems.WholeVersions` | transfer/transfer.c:320-468 | Under any uploads, downloads, moves and deletions every path leads to an empty placeholder, a file from before or one complete upload. |
| `VersionTheorems.OnlyInPlaceMixes` | transfer/transfer.c:297-319 | With offset writes and copies about, anything else at a path is an inode one of them has changed. |
| `VersionTheorems.OneFilePerUpload` | transfer/transfer.c:443-452 | No two paths lead to the same upload. |
| `VersionTheorems.DownloadsAreWhole` | main-server.c:777-816 | A finished download hands over one whole version of the file its path led to when the command came, from the offset of the command on. |
| `VersionTheorems.IsolatedWrite` | transfer/transfer.c:297-319 | At every point of an offset write the file its path came to lead to is its content at lock time overlaid by exactly the bytes received so far, from the offset of the command on; it was opened after the command came and before the lock. |
| `VersionTheorems.CopiedVersion` | transfer/transfer.c:17-128 | A finished copy went to a file it created at the destination of its command, which was absent; it starts with the source, the file the path of the command led to, as it was at the read lock, and equals it exactly when nobody had made the new file longer before it was locked. |
| `VersionTheorems.WritersExclude` | locks/locks.c:18-41 | Whatever kinds of change two processes have under way, never of the same inode, so at most one of them works on the file a path leads to; nobody else holds any lock on it or reads it. |
| `RacingWriters.JoinsWriter` | transfer/transfer.c:363-383 | After any run, any job that waits for a write lock (upload, offset write, copy, both files of a move, delete) joins another change under the same path exactly when nobody else holds a lock on the file it has opened; that is then another file, and the path leads to at most one of the two. |
| `RacingWriters.ReadersShare` | locks/locks.c:31-33 | A download or a copy gets its read lock exactly when no other process holds a write lock on the file; other readers do not matter. |
| `RacingRuns.TwoWritersOnePath` | transfer/transfer.c:345-383 | A run in which two sessions hold write locks and upload to one path at once. |
| `RacingWriters.AcknowledgedWrite` | main-server.c:847-874 | The client of an offset write is told that it went well exactly when its last call succeeded, whatever became of the file; the path shows the overlay if it still leads to the file, and if no path leads there none ever will. |
| `RacingWriters.WriteToReplacedFile` | transfer/transfer.c:297-319 | From any run in which the opened file has lost its name, the write is carried out, answered with success and lost in every continuation. |
| `RacingRuns.LostWrite` | transfer/transfer.c:297-319 | Such a run: a file is deleted between the open() and the lock of a write. |
| `LostUploads.LostExactly` | transfer/transfer.c:384-484 | After any run a step leaves no path to a file exactly when it is a deletion, a rename over it or the clean-up of a command that failed there; then no continuation finds it again. |
| `LostUploads.UndoLosesUpload` | transfer/transfer.c:384-407 | The clean-up of a failed command that found its path absent at some step loses, for good, whatever file was put there at a later step while the command was under way. |
| `RacingRuns.LostUpload` | transfer/transfer.c:384-407 | A run in which the lost file is a complete upload whose client was told that it went well. |
| `CommandLine.NextToken` | protocol/protocol.c:70-76 | Returns the next word and the place behind it, or says that there is none. |
| `CommandLine.ParseCommand` | protocol/protocol.c:43-149 | One pass over the words computes the declarative meaning of the line, or its first fault. |
| `CommandLine.AcceptedExactlyWhen` | protocol/protocol.c:77-143 | A line is accepted exactly when its name is known, every option is fine and the number of arguments fits. |
| `CommandLine.RefusedBecause` | protocol/protocol.c:43-149 | Exactly why a line is refused: no word, an unknown name, the first word behind the name that is not fine (a third argument included), or a wrong number of arguments when all words are fine. |
| `CommandLine.OptionsStandAnywhere` | protocol/protocol.c:93-136 | Lines with the same name, ordered arguments and ordered options mean the same however these are interleaved. |
| `CommandLine.OnlyFlagsCount` | protocol/protocol.c:93-136 | A line that agrees with an accepted one in name, arguments, flags set and last offset is accepted as the same command. |
| `CommandLine.AcceptedIsValid` | protocol/protocol.c:93-143 | Arguments of an accepted line are non-empty, free of spaces, do not start with '-' and are shorter than PATH_MAX; the offset is -1 or in range. |
| `CommandLine.ParseShow` | protocol/protocol.c:43-149 | Printing a valid command and parsing the line gives it back. |
| `CommandLine.Canonical` | protocol/protocol.c:43-149 | Every accepted line has a canonical line for the same command. |
| `Decimal.ParsePrinted` | transfer/transfer.c:541-555 | The text of a size reads back as that size. |
| `Decimal.ParsedExactly` | protocol/protocol.c:99-112 | A text reads as a number exactly when it is white space, at most one sign and some digits with nothing behind them and the value fits a long; the value is that of the digits, negative behind a minus sign. |
| `Sandbox.PrefixOfComponents` | paths/paths.c:36-38 | The textual prefix test with its boundary character holds exactly when the components of the root come first, also for the root directory. |
| `Sandbox.Trim` | paths/paths.c:29-32 | Removes exactly the trailing slashes, in the buffer. |
| `Sandbox.ValidatePath` | paths/paths.c:15-104 | Every branch, with its error, in terms of the components of the root and of what `realpath()` answers. |
| `Sandbox.Sandboxed` | paths/paths.c:15-104 | No accepted path leads outside the root; it is the path realpath() answered for a file that exists, and the canonical parent with the last name of the text behind it for one that is to be created. |
| `Sandbox.AcceptedExactly` | paths/paths.c:15-104 | A path is accepted exactly when it exists inside the root, or does not exist, its parent is inside the root and the text fits; one outside is refused with EPERM. |
| `Sandbox.LastName` | paths/paths.c:66-67 | dirname() and basename() take a text apart at its last name, whatever slashes stand around it. |
| `Sandbox.EmptyPath` | paths/paths.c:54-97 | The empty path is the exception: it is accepted in a form that is no canonical path. |
| `StringBuffer.Buffer.Append` | utils/utils.c:22-56 | The contents become the old contents followed by the piece, or stay when memory runs out; the sizes are those of `AppendSize`. |
| `StringBuffer.GrowthIsCheap` | utils/utils.c:35-48 | After any sequence of appends the buffer is never more than twice too large and all reallocations together moved fewer bytes than its capacity. |
| `Background.ReadLine` | utils/utils.c:146-165 | Returns the line up to its newline, the buffer size or the end of input, and consumes no more; end of file and a failing read are told apart, and interrupted reads are repeated. |
| `Background.Client.OnPipe` | main-client.c:510-525 | Lowers the counter by the newlines in what was read, none on an error: the read step of the state machine. |
| `Background.Client.Started` | main-client.c:429-459 | Counts an operation whether or not its fork succeeded: the start step of the state machine. |
| `Background.Client.MayExit` | main-client.c:429-435 | Allows `exit` exactly when every operation was forked, has reported and all reports were read, after any mix of starts, reads, ends and deaths. |
| `Background.ReportIsOneLine` | main-client.c:279-343 | Every report of a child fits its buffer and holds exactly one newline, its last character. |
| `Background.ReportTells` | main-client.c:279-343 | A report announces success exactly for an operation that concluded, with the names of its command in the order of its kind. |
| `Background.CounterIsExact` | main-client.c:429-459 | At every turn of the main loop the counter is operations started less newlines read, and never negative, for any splitting of pipe reads. |
| `Background.ExitExactlyWhen` | main-client.c:429-435 | `exit` is honoured exactly when every operation was forked, has reported and all reports were read. |
| `Background.NeverExits` | main-client.c:344-347 | After a failed fork or a child that ended silently no later `exit` is honoured. |

## Left out

- User creation, account lookup, `chown`, `chmod`, `cd`, `create -d` and the switching of effective ids in session/session.c: foreign calls.
- fsops/fsops.c: one-system-call wrappers and the text of listings; only the buffer listings are built in is modelled.
- Symbolic links, special files and hard links: the file system holds regular files and directories, and no inode has two names.
- Sockets, select(), fork() set-up, signal handlers and printing; what remains of them is partial transfers, interruptions and deaths.
- Deliveries to a session through its signal and queue file (session/session.c): a notification is an attempt that is due or made.
- Processes: a client is assumed not to use names that start with ".temp"; stat() is assumed to fail only for an absent file and unlink() to succeed on a present one; the permission bits are those of a new file, since `Uploads.ReceiveViaTemp` covers them; record locks are kept per inode because every lock taken reaches to the end of the file.
- Processes: directories are not renamed and not created or removed while sessions run.
- Uploads.ReceiveViaTemp: excludes an absent target whose very name mkstemp() would pick, so that the temporary file would be the target; every other target is covered. What a failing mkstemp() leaves in place of the six X's is a parameter.
- RequestRuns: the store of an entry is one step. A kill in the middle of overwriting a settled slot can leave a new id with an old status, which nobody can take; such torn entries are not modelled. Deaths between the steps of shm_request_add and between the slots of shm_requests_set_failed are.
- AnsweredRequests: a line counts as told once it is written to the FIFO of a live session; process ids are not used twice; deaths inside a critical section are the subject of `RequestRuns`.
- TableRefinement.AddRefines: ids are unbounded integers; `next_id` is assumed to stay below INT_MAX.
- TableRefinement: table operations that are cut short by a crash refine nothing; `RequestRuns` covers those runs.
- Conversation: packets are abstracted to their command bytes; `Framing` and `Streams` cover their contents. The connection stays up.
- Conversation.Lockstep: covers every run in which no waiting client takes a stray answer and no seek fails; `Conversation.LockstepExactly` says what these do.
- Conversation.NoDeadlock: leaves out a client that waits for the answer to a transfer request; `AnsweredRequests.AnswerableExactly` says when that one can come.
- Sandbox.Sandboxed: realpath() is assumed not to change its mind between the two calls about "." and "..", and the path is not empty.
- CommandLine.ParseCommand: the texts of error messages are reduced to their kinds; a NULL line or a failing strdup() is not modelled.
- StringBuffer.Buffer.Append: a NULL buffer or piece is not modelled, and size_t does not overflow.
- RequestRuns: a user name fits its 32-byte field; longer ones are cut by the source on the way in (utils/utils.h:19).
