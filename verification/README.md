# Verification of the storage node

The storage node of this repository keeps shards for other users. A coordination server sends it
requests; for every upload or download the node opens a port, a client connects, and the shard is
moved in chunks by a stop-and-wait protocol that survives lost connections and restarts. This
project models that node in Dafny and proves what it promises.

`dafny verify dfyconfig.toml` checks everything.

## What is modelled

**The transfer protocol** (`chunk_transfer.py`). `TransferProtocol` is a labelled step system with
one sender, one receiver, two FIFO channels and the steps of both sides, of sessions and calls, and
of everything that can go wrong: a lost frame, a failed send, receive or disk write, a process that
dies in the middle of anything, a client that goes away and comes back. One system describes uploads
and downloads: the role says which side is the node, that is, which side opens the sessions.
`TransferSafety`, `TransferAccounting`, `TransferPace` and `TransferProgress` prove properties of all
its runs, of any length and under any schedule of faults, sessions and calls.

**The node's code for it.** `TransferNode` has the classes `ZmqSessionManager`, `FragmentSender` and
`FragmentReceiver`, whose methods follow the source's loops and early returns against an oracle: a
schedule of what the client and the network do and of which operations raise. A ghost record of
protocol steps is kept beside the code, and every method is proved to execute only steps of the
system. So the theorems about runs are theorems about these methods, and the methods use them in
their own contracts. Every exception an operation raises is recorded, and the contracts of
`receive_data` and `send_data` say which outcome goes with which exceptions (`UploadEnded`,
`DownloadEnded`): no failure without a cause, and no success in spite of one. How a call ends is also a
function of the schedule (`TransferOracle`), which the methods are proved to compute. `TransferEscapes`
proves from the schedule when no exception escapes, and shows calls from which one does;
`TransferResumes` proves that interrupted transfers are resumed and completed, for every source, chunk
size and number of bytes already there.

**The ledger of pending transfers** (`connection_ledger.py`). `ConnectionLedgers` has the class;
`LedgerThreads` runs any number of threads through acquire, read, edit, write and release as
separate, freely interleaved steps, with the dispatcher's port rule, transfers and restarts around
them.

**Requests and recovery** (`request_dispatcher.py`, `startup_interface.py`), **the header scan**
(`router_gateway.py`), **the configuration file and the port search** (`node_utilities.py`), and
**network changes and the purge cycle** (`service_workers.py`) are in `RequestDispatch`,
`HeaderScan`, `ConfigFiles`, `ConfigReading`, `PortSearch` and `ServiceWorkers`.

## The contract with the client

Both node classes bind their port; the other side of every transfer is a client. The results about
transfers assume a client that takes only the steps of `SenderStep` or `ReceiverStep`:

- A sending client streams the source in order from the agreed offset, in chunks of between 1 byte
  and the chunk size, waits for an acknowledgement after each, and sends END only after the last byte.
- A receiving client opens its file when it has read the start frame, reports its exact length when
  it resumes, acknowledges every frame once (before or after writing it), and appends in order.
- The client reads a resume frame exactly when the node sends one, and sends one exactly when the
  node waits for one.
- Apart from that the client may be slow, leave, die and rejoin at any time.

That the two node classes keep their side of this contract is not assumed: it is what their
`Commit` calls prove.

Further assumptions:

- Resetting a session drops every frame in flight, and the client notices and has to join again.
- Encoding and decoding frames loses nothing, so frames are values.
- The chunk size is at least one, and the source does not change during a transfer.
- A process that dies keeps, of an open file, at least what was on disk when it was last closed.
- A timeout is a receive or send that may fail at any moment. A send to a client that has not joined
  may block or time out; that it may also succeed only adds runs to those the results cover.

## Where code and expectation differ

The model follows the code.

- A receiving node sends a resume frame whenever the file exists, even for a fresh request
  (chunk_transfer.py:189-192), and never looks at what the file holds. An upload over a left-over
  file ends with the whole source if and only if that file was a prefix of it
  (`UploadOverOldFile`); `OldFileReported` shows a corrupt shard being reported as complete.
- The receiver's reconnect catches only `socket.error`, and ZeroMQ's own errors are not of that kind
  (chunk_transfer.py:237): of what the reconnect does, only `getsize` and `open` raise one. Any other
  error leaves `receive_data` before `unregister`, so the request stays in the ledger: the outcome
  `Escaped`. `ReceiverEscapes` is the exact condition on the schedule, and `StrandedRequest` a call
  on which it happens: the client takes the start frame and vanishes, the receive times out, the port
  is bound again, and the new start frame times out too. The sender's reconnect catches everything
  (chunk_transfer.py:116), and a sender that gives up still unregisters; `SenderEscapes` is its
  condition, and in `EndEscapes` it is END that times out.
- A missing shard ends `send_data` at once, with the request still in the ledger
  (chunk_transfer.py:130-132): the outcome `Missing`.
- A ledger write that breaks off half-way leaves a file that reads as empty
  (connection_ledger.py:20-26). `SpoiledLedger` says exactly when the ledger still matches the
  transfers after that, and `PendingTransferForgotten` is a run after which it does not.
- An entry without a port would be registered a second time by recovery (`TakenUpIffPort`). The node
  never writes one, so that no recovered transfer registers again (`RecoveryNeverReregisters`).
- Reading the configuration back restores it if and only if the address has no blank, no line break
  and no other white space at its ends (`ConfigRoundTrip`).
- The sender takes any frame that can be decoded for an acknowledgement (chunk_transfer.py:87-88).
- Checking a port binds and releases it. Nothing is reserved, and no claim is made that two
  transfers get different ports.

## Model

| member | source | states |
|---|---|---|
| TransferSafety.PrefixSafety | chunk_transfer.py:188-239 | in every reachable state of every run, under any lost frames, lost acknowledgements, partial writes, reconnects and crashes, what is stored is a prefix of the source |
| TransferSafety.CompletionSoundness | chunk_transfer.py:264-279 | once completion has been reported the whole source is on disk, then and for the rest of the run, although acknowledgements precede writes |
| TransferSafety.DeliverySoundness | chunk_transfer.py:207-208 | a receiver that has taken END, node or client, holds exactly the source |
| TransferSafety.RunKeepsInv | chunk_transfer.py:79-283 | the invariant that relates file, wire, cursor and program counters is kept over every run |
| TransferSafety.NextKeepsInv | chunk_transfer.py:79-239 | every single step, of either side, the network or a crash, keeps that invariant |
| TransferSafety.NodeOnlyAppends | chunk_transfer.py:188-194 | a receiving node never takes away bytes that were in the file before the run, crashes included |
| TransferSafety.UploadOverOldFile | chunk_transfer.py:188-194 | an upload over any left-over file that reaches END leaves the source if and only if the file was a prefix of the source |
| TransferSafety.OldFileReported | chunk_transfer.py:188-194 | a concrete run in which an upload over a one-byte file is reported complete with the wrong content |
| TransferAccounting.RetransmissionBound | chunk_transfer.py:196-239 | conservation of payload bytes over all runs: bytes sent exceed the missing part by at most what crashes and files opened afresh gave up, one chunk per earlier session that left something to send again, one per acknowledged chunk not written, and one while a session from zero waits for its file to be opened; and at most one unwritten chunk per such session |
| TransferAccounting.SentCounts | chunk_transfer.py:84-85 | the bytes counted as sent, and the stream of a session, are those of the data frames put on the wire, step by step |
| TransferAccounting.LostCounts | chunk_transfer.py:188-194 | the bytes counted as lost are those a step takes from the file |
| TransferAccounting.TwoChunksPerBrokenSession | chunk_transfer.py:202-205 | without crashes of the file's holder, a run from file length o sends at most the missing length plus two chunks per session that ended with the source incomplete; sessions after a finished transfer cost nothing |
| TransferAccounting.GentleRunsLoseNothing | chunk_transfer.py:188-194 | without such crashes or restarts from zero, stored bytes are never given up |
| TransferPace.Lag | chunk_transfer.py:199-205 | as long as the receiver takes part in a session, whether or not the sender still does, the stream is at most two chunks ahead of the file, at most one unless a chunk is being written, and at most one frame is unacknowledged |
| TransferPace.GapLeftBehind | chunk_transfer.py:210-212 | at every point of every session, so wherever and however it ends, without a failed or pending write at most one chunk and what crashes cut off is missing from the file |
| TransferAccounting.SessionStream | chunk_transfer.py:72-95 | in every session the data frames concatenate to the source from the resume offset on, whatever the cursor was when the last one broke; the node's frames are all full except possibly the last of the file |
| TransferAccounting.EndMeansAll | chunk_transfer.py:149-159 | END comes only after everything from the offset on was sent and acknowledged |
| TransferAccounting.ExactFrameCount | chunk_transfer.py:79-95 | a finished session of a sending node has exactly ceil(remaining / chunk size) data frames |
| TransferAccounting.ReadsIsCeiling | chunk_transfer.py:80-90 | the number of reads that empty a file is that ceiling |
| TransferProgress.DeadlockFreedom | chunk_transfer.py:68-95 | in every reachable state of a fault-free session in which not both are done, a forward step is possible, first of all that the client joins, and the two sides are not both blocked on empty channels |
| TransferProgress.FaultFreeTermination | chunk_transfer.py:79-95 | a fault-free session takes at most as many steps as its measure at the start, in any interleaving |
| TransferProgress.Completes | chunk_transfer.py:196-212 | from every fault-free state the session can be carried to END within that many steps, and the file is then the source |
| TransferProgress.NextKeepsHealth | chunk_transfer.py:184-212 | in a fault-free session nobody waits for a frame that will not come |
| TransferProgress.AlwaysRecoverable | chunk_transfer.py:249-283 | every reachable state, after any history of faults, can be continued until the whole source is stored, and reported by a receiving node |
| TransferProgress.CallsEnd | chunk_transfer.py:249-283 | from any point of a call with a conforming client the node takes at most as many further steps as the measure over reconnects left, bytes left and phase allows, whatever the network does, crashes included |
| TransferProgress.CallBound | chunk_transfer.py:128-166 | a whole call with a conforming client takes at most 8 * length + 14 steps of the node |
| TransferNode.EnvRefines | mock-server/test_send_request.py:126-154 | what a client or the network does beside the node is a step of the protocol that leaves the node's half alone |
| TransferNode.ZmqSessionManager.Bind | chunk_transfer.py:38-51 | a bound or reset session starts with empty channels and a client that has to join, or nothing changed |
| TransferNode.FragmentReceiver.TakeFrame | chunk_transfer.py:199-208 | taking a frame is the protocol's step for that frame, and an exception ends the session |
| TransferNode.FragmentReceiver.Acknowledge | chunk_transfer.py:203-204 | the acknowledgement is sent before the chunk is written |
| TransferNode.FragmentReceiver.Store | chunk_transfer.py:205 | as much of the chunk is appended as the disk takes; less than all of it ends the session |
| TransferNode.FragmentReceiver.ReceiveChunks | chunk_transfer.py:196-212 | true exactly if END was taken and nothing raised, otherwise exactly one exception was raised; the file is left as the schedule decides; at most three operations for each byte of the source, and three more |
| TransferNode.FragmentReceiver.OpenShardFile | chunk_transfer.py:188-194 | an existing file is measured, announced with its length, opened and kept, a missing one is created empty; each of these may raise |
| TransferNode.FragmentReceiver.AttemptReconnect | chunk_transfer.py:214-239 | one more session that resumes at the file's length; not connected if and only if what was raised is a socket error, propagating if and only if it is anything else |
| TransferNode.FragmentReceiver.ReceiveData | chunk_transfer.py:249-283 | a refinement of the protocol. The exceptions raised during the call decide its outcome: completed with none, or with one in the middle of the first session and a second session without any; given up after two, the second one not escaping; escaped exactly if opening the first session raised, or it broke and opening the second raised no socket error. The file stays a prefix of the source; completion is reported exactly if the last session took END, and then the file is the source; the request leaves ledger and router unless an exception escapes; none escapes with a conforming client if no operation is made to raise and the schedule answers 3 * length + 13 of them |
| TransferEscapes.NoReceiverEscapes | chunk_transfer.py:249-271 | none escapes from an upload, whatever the client does, if only socket errors are raised, none by the first five operations, and two in a row come before the schedule runs out |
| TransferEscapes.NoSenderEscapes | chunk_transfer.py:134-158 | none escapes from a fresh download, whatever the client does, if no operation is made to raise and the schedule answers 4 * length + 6 of them |
| TransferEscapes.TimeoutEscapes | chunk_transfer.py:210-239 | an upload whose client takes the start frame and vanishes: the receive times out, binding again works, the new start frame times out, and the exception escapes |
| TransferEscapes.FileErrorGivesUp | chunk_transfer.py:231-239 | the same upload with a client that is back in time and a socket error from reading the file's length gives up instead |
| TransferEscapes.EndEscapes | chunk_transfer.py:156-158 | a download in which everything was transmitted and sending END times out ends with an escaped exception |
| TransferResumes.UploadCompletes | chunk_transfer.py:264-271 | for every source, chunk size and stored prefix: if the first session times out and the client returns and sends the rest and END, the upload completes |
| TransferResumes.RestUploaded | chunk_transfer.py:196-212 | whatever is missing, the receive loop stores all of it from a client that sends it, and ends with END |
| TransferResumes.InterruptedUpload | chunk_transfer.py:249-283 | the same through the class: the stored file is the source, completion is reported once, and the request leaves the ledger |
| TransferResumes.DownloadCompletes | chunk_transfer.py:149-159 | for every source, chunk size and proper prefix at the client: if the first data frame fails and the client returns with its offset, the download completes |
| TransferResumes.RestDownloaded | chunk_transfer.py:79-95 | from any offset the send loop delivers the rest to a client that acknowledges it, and END can be sent |
| TransferResumes.InterruptedDownload | chunk_transfer.py:128-166 | the same through the class: everything from the offset on was sent and acknowledged, then END, and the request leaves the ledger |
| TransferNode.FileHandle.Read | chunk_transfer.py:80 | reads the next full chunk, the rest, or nothing, and moves the cursor past it |
| TransferNode.FragmentSender.TransmitChunks | chunk_transfer.py:79-95 | true exactly if nothing raised, and then this session's frames were the whole source from the resume offset and each was acknowledged; otherwise exactly one exception was raised |
| TransferNode.FragmentSender.NegotiateResumePoint | chunk_transfer.py:72-77 | the cursor is set to the client's offset; any other frame raises |
| TransferNode.FragmentSender.AttemptReconnect | chunk_transfer.py:97-118 | one more session, resumed where the client says; it fails if and only if the schedule makes binding, announcing or the resume frame raise |
| TransferNode.FragmentSender.SendEnd | chunk_transfer.py:156-158 | END is sent at the end of the file only |
| TransferNode.FragmentSender.SendData | chunk_transfer.py:128-166 | a refinement of the protocol. The exceptions raised during the call decide its outcome: completed with none, or with one in the middle of the first session and a second session without any; given up after two, neither of them with END; escaped exactly if opening the first session raised, or everything was transmitted and END raised. Completion means everything from the offset on was sent and acknowledged, and END sent; a missing shard touches nothing; the request leaves ledger and router whether completed or given up |
| TransferNode.CloseRouterPort | chunk_transfer.py:120-126 | the forward is removed exactly for a node that is neither local nor hosted and has a router |
| ConnectionLedgers.RemoveFirst | connection_ledger.py:45 | removes one occurrence if and only if there is one |
| ConnectionLedgers.RemoveFirstKeepsOrder | connection_ledger.py:45 | what is removed is the first occurrence, and the others stay in order |
| ConnectionLedgers.UnregisteredIs | connection_ledger.py:41-50 | the ledger file after an unregister, for each fault: the first occurrence gone, or the file untouched, or spoiled |
| ConnectionLedgers.UnregisterUndoesRegister | connection_ledger.py:28-52 | unregister after register restores the pending requests, and the very list if the request was new |
| ConnectionLedgers.ConnectionLedger.Register | connection_ledger.py:28-39 | the entry stands behind the others, or the file is untouched, or spoiled, as the write fares; the result says so; the semaphore is free again |
| ConnectionLedgers.ConnectionLedger.Unregister | connection_ledger.py:41-52 | the first such entry is gone and the others are in order; false exactly if there is none or the write fails, and then the file is untouched or spoiled |
| ConnectionLedgers.ConnectionLedger.ListAll | connection_ledger.py:54-59 | the entries, none for a missing or malformed file |
| LedgerThreads.Linearizable | connection_ledger.py:28-59 | for any number of threads and any interleaving, with any write faults and restarts, the file is the result of the accesses performed one after another, each returned what it returns in that order, and no two threads are inside at once |
| LedgerThreads.NoLostUpdate | connection_ledger.py:28-52 | if no write breaks off, the pending requests are the initial ones plus successful registers minus successful unregisters |
| LedgerThreads.LedgerMatchesTransfers | request_dispatcher.py:78-109 | over runs with restarts in which registers succeed, from a ledger whose entries have ports, the ledger is exactly the multiset of registered requests whose entry was not yet removed, and every unregister finds its entry |
| LedgerThreads.RecoveryNeverReregisters | startup_interface.py:94-102 | over all runs under any faults every entry of the ledger has a port, so that no thread started by recovery, although it goes through the dispatcher like any other, is ever in a register |
| LedgerThreads.TakenUpIffPort | request_dispatcher.py:101-104 | a recovered entry is registered again, and the ledger parts from the transfers, if and only if it has no port |
| LedgerThreads.SpoiledLedger | connection_ledger.py:15-26 | after a write that breaks off, ledger and transfers still match if and only if the file was empty and a register was under way |
| LedgerThreads.PendingTransferForgotten | connection_ledger.py:24-37 | a run from an empty start after which a transfer is running and the ledger is empty |
| LedgerThreads.RegisterIsFiveSteps | connection_ledger.py:28-39 | the five steps of a register, taken without interruption, are one call of the class's method |
| LedgerThreads.UnregisterIsFiveSteps | connection_ledger.py:41-52 | likewise for an unregister that finds its entry |
| LedgerThreads.Departs | chunk_transfer.py:283 | a transfer that comes to its end removes its entry, the first one and nothing else |
| RequestDispatch.IntegrityVerifier.ComputeSaltedHash | request_dispatcher.py:18-27 | the streaming hash ends with the digest of content followed by salt; a missing fragment raises |
| RequestDispatch.RequestDispatcher.AllocateTransferPort | request_dispatcher.py:78-90 | the request gets the port, is registered with it, and the requester is told the port, also if registering failed |
| RequestDispatch.RequestDispatcher.Dispatch | request_dispatcher.py:92-109 | an audit answers with the digest and changes nothing. A fresh transfer appends its entry, which stays if an exception escapes or the shard is missing and is gone if the call ends; one with a port changes the ledger only at its end; how it ends goes with the exceptions raised, and only a completed upload is reported; a download resumes exactly if its port was not zero; a failing requester connection stops a fresh transfer before it starts; the dispatcher is ready again |
| RequestDispatch.LedgerAfterIs | request_dispatcher.py:101-109 | what becomes of the pending requests in each case: entered, left, or removed |
| RequestDispatch.FinishedTransferLeavesNoTrace | request_dispatcher.py:101-109 | a fresh transfer that comes to its end leaves the pending requests as they were |
| RequestDispatch.ResumePending | startup_interface.py:88-108 | one worker per entry, in order and with the entry unchanged, up to the first thread that cannot be started |
| RequestDispatch.RestartTakesUp | startup_interface.py:94-102 | a restart takes an interrupted upload up again, fresh or recovered, if and only if an exception escaped from it or its entry could not be removed: not after it completed or gave up |
| RequestDispatch.RestartTakesUpDownload | startup_interface.py:94-102 | and a download if and only if its shard was missing, an exception escaped from it, or its entry could not be removed |
| RequestDispatch.StrandedRequest | chunk_transfer.py:237-283 | a call through the class, with a client that vanishes, after which the request is still in the ledger |
| RequestDispatch.RoundTrip | request_dispatcher.py:106-109 | after a reported upload under any faults, every download of the stored shard that reaches END under any faults delivers the source |
| RequestDispatch.UploadThenAudit | request_dispatcher.py:92-109 | through the dispatcher, the reply to an audit after a completed upload is the digest of source and salt, whatever faults the upload went through |
| RequestDispatch.UploadThenDownload | request_dispatcher.py:92-109 | through the dispatcher, a client that has taken END in a download after a completed upload has the source |
| HeaderScan.SearchIsLeftmostLazy | router_gateway.py:56 | the search finds a match if there is one, and the one that is leftmost, then has the shortest name, then the shortest value |
| HeaderScan.FindAllIsParseLines | router_gateway.py:56 | for every text, the iterated match yields exactly the CR LF terminated lines that contain ": ", split at the first one |
| HeaderScan.LocationIsFirstHeader | router_gateway.py:54-58 | the location is the value of the first such line named "location" in any case, and there is none exactly if there is no such line |
| HeaderScan.LocationInAnyCase | router_gateway.py:57 | a name counts if each of its eight letters is the one of "location" or of "LOCATION" |
| HeaderScan.LocationInText | router_gateway.py:54-58 | read off the text: the location is what follows the first ": " of the first CR LF terminated line whose name is that |
| HeaderScan.NoLocationInText | router_gateway.py:58 | and there is none if and only if the text has no such line |
| ConfigFiles.DecimalParses | node_utilities.py:109 | parsing the decimal form of a number gives the number back, for all naturals |
| ConfigReading.DecimalIsPositional | node_utilities.py:114 | the printed port is decimal notation, digit by digit |
| ConfigFiles.OnlyPlainAddressesAreRead | node_utilities.py:105-108 | whatever the file contains, an address read from it has no blank, line break or outer white space |
| ConfigFiles.PlainAddressComesBack | node_utilities.py:104-114 | a plain address and any port, negative ones included, are read back as written |
| ConfigFiles.ConfigRoundTrip | node_utilities.py:104-114 | reading what was written restores both fields if and only if the address is plain, for every port |
| ConfigReading.TextReads | node_utilities.py:104-109 | what any file of two or more lines reads as: the first line without blanks and without white space at its ends, the number on the second line, and nothing of the rest |
| ConfigReading.ShortTexts | node_utilities.py:108-109 | an empty file has no address, a file of one line no port |
| ConfigReading.PaddedPort | node_utilities.py:109 | every port is read, with a sign or without and with white space around it |
| ConfigReading.NotANumber | node_utilities.py:109 | a second line with a character no number has, or with nothing but white space, raises |
| ConfigReading.StripIs | node_utilities.py:108 | stripping takes the white space off both ends and nothing else |
| ConfigReading.BlanksAreRemoved | node_utilities.py:108 | every blank goes, every other character stays in place |
| ConfigReading.CrLfReadsAsLineFeed | node_utilities.py:105-106 | CR LF line ends read as line feeds |
| ConfigFiles.ConfigFileManager.ReadConfig | node_utilities.py:104-109 | raises exactly for a missing file, no first line or no number; the address is already assigned when the port raises |
| ConfigFiles.ConfigFileManager.WriteConfig | node_utilities.py:111-114 | the file holds the address, a line feed and the decimal port |
| PortSearch.PortScanner.IsPortInUse | node_utilities.py:36-47 | a port the router has in use counts for a node that is neither local nor hosted and has a router; otherwise only the bind check counts |
| PortSearch.PortScanner.FindPrimaryPort | node_utilities.py:49-71 | if some port from the starting one on is free, the search ends with the least such port, stores it and has the router forward it |
| PortSearch.PortScanner.FindTransferPort | node_utilities.py:58-71 | the first draw that is free, forwarded by the router under the node's rule, and none exactly if all draws are in use |
| PortSearch.PortScanner.VerifyPrimaryPort | node_utilities.py:169-186 | the primary port ends up with a successful bind check: kept if it had one, otherwise the least free port; the router forwards it under the node's rule |
| PortSearch.LeastFreeIsUnique | node_utilities.py:52-57 | the result of the primary search is determined |
| ServiceWorkers.NetworkChangeHandler.OnLocalIpChanged | request_dispatcher.py:44-63 | primary port first, then every port of the ledger is forwarded to the new address, then the address is stored |
| ServiceWorkers.NetworkWatcher.CheckOnce | service_workers.py:61-81 | a node that is not local and whose public address changed stores it and tells the server exactly that once; a failing or equal lookup changes nothing; a local node's public address is its local one; a changed LAN address is stored, written to the file, and served by the router exactly if the node is not local; without a router nothing of this happens |
| ServiceWorkers.ChecksConverge | service_workers.py:61-81 | in an unchanged environment a second check changes nothing and calls neither router nor server |
| ServiceWorkers.AllPortsFollow | request_dispatcher.py:44-63 | after a change of address the primary port and every port in the ledger lead to the new address, and no other forward changed |
| ServiceWorkers.FileKeepsAgreeing | service_workers.py:76-78 | if file and memory agreed on the address before a check, they agree after it if and only if the new address is plain |
| ServiceWorkers.ContractEnforcer.PurgeAndClaim | service_workers.py:103-120 | what stays on disk is exactly what was submitted for withdrawal, in order |
| ServiceWorkers.KeptAre | service_workers.py:113-120 | what stays is stored and, if the query succeeded, active; a failed query keeps everything |
| ServiceWorkers.KeptInOrder | service_workers.py:113-120 | and it keeps its order |
| ServiceWorkers.EachFragmentOnce | service_workers.py:113-120 | every stored fragment is deleted or submitted exactly once and never both |
| ServiceWorkers.CyclesSettle | service_workers.py:103-120 | a failed query deletes nothing, and a second cycle with the same answer deletes nothing |

## Left out

- RequestDispatch.RequestDispatcher.Dispatch: one shard and one port per transfer object; two transfers on the same shard at once are not modelled, and the threads around the ledger are modelled in `LedgerThreads` instead.
- TransferNode.FragmentReceiver.ReceiveData: an exception from creating the data directory, or from flushing the shard file at close, is not modelled separately; bytes lost that way are covered by the failed write and the crash.
- TransferNode.FragmentSender.SendData: an exception from opening or reading the local shard is not modelled; when sending END raises, the socket the code leaves open is not modelled.
- TransferNode.ZmqSessionManager.Bind: the socket and its context are a link and a flag; ZeroMQ's own threads and high-water marks are not modelled, and its timeouts are operations that may fail. A call that blocks for ever, as a first session without a client does before the timeouts are set (chunk_transfer.py:137-143 and 258-259), is one whose schedule has not come to an end.
- PortSearch.PortScanner.FindTransferPort: the random draws are a given sequence; neither that a free port is ever drawn nor that concurrent transfers get different ports is claimed.
- PortSearch.PortScanner.FindPrimaryPort: what is in use is fixed during one search, and the router always accepts a forward.
- ConfigFiles.DecimalParses: the digits of `int` are the ASCII digits; other decimal digits of Unicode are not modelled.
- HeaderScan.LocationIsFirstHeader: `ExtractLocation` starts from the decoded text; the removal of malformed bytes before it is not modelled.
- ConnectionLedgers.ConnectionLedger.Register: requests are values without further fields, and the file is a list or unreadable; JSON itself is not modelled, nor a process that dies during a ledger write.
- LedgerThreads.LedgerMatchesTransfers: about requests that begin with port zero or by recovery; a request that arrives with a port of its own and no entry is not one of its threads.
- ServiceWorkers.ContractEnforcer.PurgeAndClaim: a failing deletion or a failing call to the server in the middle of a cycle is not modelled.
- ServiceWorkers.NetworkWatcher.CheckOnce: a failing write of the configuration file and a failing server call are not modelled.
- A client that breaks the contract above, for example one that expects no resume frame when the node sends one, as the two clients in mock-server do.
- The source changing on the client's side between sessions of one upload.
- First-run setup, the login prompt, the banner, the heartbeat and the endless loops around the workers: they only call what is modelled, or nothing of it.
- Gateway discovery, SOAP, the HTTP client of the coordination server and its mock: services behind `Router` and `Backend`.
- MD5, pickle, JSON and XML: library code; the digest is any function of the bytes fed in.
