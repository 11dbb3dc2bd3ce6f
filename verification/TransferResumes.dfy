/**
 Interrupted transfers that are resumed and completed: for every source, every chunk size and every
 number of bytes that are already there, the first session breaks, the client comes back and does its
 part, and the second session finishes the transfer.
 */
module TransferResumes {
  import opened Wrappers
  import opened TransferProtocol
  import opened TransferSafety
  import opened ConnectionLedgers
  import opened NodeParts
  import opened TransferOracle
  import opened TransferNode

  // ----- how the environment's moves show at the port

  lemma SettlesOne(c: Config, p: Port, a: Action, rest: seq<Move>)
    requires p.schedule == [Env(a)] + rest
    ensures Settled(c, p) == match EnvStep(c, p.fromZero, p.client, p.link, a)
                             case None => Settled(c, p.(schedule := rest))
                             case Some((client, link)) => Settled(c, Port(client, link, p.fromZero, rest))
  {
    assert p.schedule[1..] == rest;
  }

  lemma SettledAlready(c: Config, p: Port, rest: seq<Move>)
    requires p.schedule == [Go] + rest
    ensures Settled(c, p) == p && Rest(p.schedule) == rest && Verdict(p.schedule) == None
  {
  }

  // ----- a client that uploads what is missing

  function Uploader(pc: SenderPc, cursor: nat, up: seq<Frame>, down: seq<Frame>, schedule: seq<Move>): Port {
    Port(Client.Sending(Sender(pc, cursor)), Link(down, up), false, schedule)
  }

  /** The client sends the source from `k` on and END, and no operation of the node raises. */
  function UploadMoves(c: Config, k: nat): seq<Move>
    requires ValidConfig(c)
    decreases |c.source| - k
  {
    if k >= |c.source| then [Env(ReadChunk(0)), Env(SendEnd), Go]
    else
      var n := Min(c.chunk, |c.source| - k);
      [Env(ReadChunk(n)), Env(SendData), Go, Go, Env(TakeAck)] + UploadMoves(c, k + n)
  }

  /** From here on the node receives everything; the trigger keeps the verifier from unfolding the loop. */
  ghost predicate GetsAll(c: Config, p: Port, file: Bytes) {
    forall q {:trigger Receives(c, q, file)} :: q == p ==>
      Receives(c, q, file).fault.None? && Receives(c, q, file).file == Some(c.source)
  }

  lemma SameGets(c: Config, p: Port, q: Port, file: Bytes)
    requires Settled(c, p) == Settled(c, q) && GetsAll(c, q, file)
    ensures GetsAll(c, p, file)
  {
    assert Got(c, p) == Got(c, q);
    assert Receives(c, p, file) == Receives(c, q, file);
  }

  lemma GetsOn(c: Config, p: Port, file: Bytes, chunk: Bytes, q: Port, r: Port)
    requires Got(c, p) == Received(Ok(Data(chunk)), q)
    requires StoresChunk(c, q, file, chunk) == Reception(None, r, Some(file + chunk)) && GetsAll(c, r, file + chunk)
    ensures GetsAll(c, p, file)
  {
    assert Receives(c, p, file) == Receives(c, r, file + chunk);
  }

  lemma ChunkRead(c: Config, k: nat, n: nat, rest: seq<Move>)
    requires c.role.NodeReceives? && ValidConfig(c) && k < |c.source| && n == Min(c.chunk, |c.source| - k)
    ensures Settled(c, Uploader(SRead, k, [], [], [Env(ReadChunk(n))] + rest)) ==
            Settled(c, Uploader(SSend(c.source[k..k + n]), k + n, [], [], rest))
  {
    SettlesOne(c, Uploader(SRead, k, [], [], [Env(ReadChunk(n))] + rest), ReadChunk(n), rest);
  }

  lemma ChunkPutDown(c: Config, k: nat, chunk: Bytes, rest: seq<Move>)
    requires c.role.NodeReceives?
    ensures Settled(c, Uploader(SSend(chunk), k, [], [], [Env(SendData)] + ([Go] + rest))) ==
            Uploader(SAck, k, [], [Data(chunk)], [Go] + rest)
  {
    SettlesOne(c, Uploader(SSend(chunk), k, [], [], [Env(SendData)] + ([Go] + rest)), SendData, [Go] + rest);
    assert [] + [Data(chunk)] == [Data(chunk)];
    SettledAlready(c, Uploader(SAck, k, [], [Data(chunk)], [Go] + rest), rest);
  }

  /** The client reads a chunk and sends it. */
  lemma ChunkSent(c: Config, k: nat, n: nat, rest: seq<Move>)
    requires c.role.NodeReceives? && ValidConfig(c) && k < |c.source| && n == Min(c.chunk, |c.source| - k)
    ensures var p := Uploader(SRead, k, [], [], [Env(ReadChunk(n))] + ([Env(SendData)] + ([Go] + rest)));
            Got(c, p) == Received(Ok(Data(c.source[k..k + n])), Uploader(SAck, k + n, [], [], rest))
  {
    ChunkRead(c, k, n, [Env(SendData)] + ([Go] + rest));
    ChunkPutDown(c, k + n, c.source[k..k + n], rest);
    assert ([Go] + rest)[1..] == rest;
  }

  /** The node acknowledges and stores it. */
  lemma ChunkStored(c: Config, k: nat, file: Bytes, chunk: Bytes, rest: seq<Move>)
    requires c.role.NodeReceives? && rest != [] && !rest[0].Short?
    ensures StoresChunk(c, Uploader(SAck, k, [], [], [Go] + rest), file, chunk) ==
            Reception(None, Uploader(SAck, k, [Ack], [], rest), Some(file + chunk))
  {
    SettledAlready(c, Uploader(SAck, k, [], [], [Go] + rest), rest);
    assert chunk[..|chunk|] == chunk;
  }

  /** One chunk: the client sends it, the node acknowledges and stores it, the client takes the acknowledgement. */
  lemma ChunkUploaded(c: Config, k: nat, n: nat, rest: seq<Move>)
    requires c.role.NodeReceives? && ValidConfig(c) && k < |c.source| && n == Min(c.chunk, |c.source| - k)
    requires GetsAll(c, Uploader(SRead, k + n, [], [], rest), c.source[..k + n])
    ensures GetsAll(c, Uploader(SRead, k, [], [], [Env(ReadChunk(n)), Env(SendData), Go, Go, Env(TakeAck)] + rest),
                    c.source[..k])
  {
    var chunk, s4 := c.source[k..k + n], [Env(TakeAck)] + rest;
    var s0 := [Env(ReadChunk(n)), Env(SendData), Go, Go, Env(TakeAck)] + rest;
    assert s0 == [Env(ReadChunk(n))] + ([Env(SendData)] + ([Go] + ([Go] + s4)));
    ChunkSent(c, k, n, [Go] + s4);
    ChunkStored(c, k + n, c.source[..k], chunk, s4);
    assert c.source[..k] + chunk == c.source[..k + n];
    AckTaken(c, k + n, c.source[..k + n], rest);
    GetsOn(c, Uploader(SRead, k, [], [], s0), c.source[..k], chunk,
           Uploader(SAck, k + n, [], [], [Go] + s4), Uploader(SAck, k + n, [Ack], [], s4));
  }

  lemma AckTaken(c: Config, k: nat, file: Bytes, rest: seq<Move>)
    requires c.role.NodeReceives? && GetsAll(c, Uploader(SRead, k, [], [], rest), file)
    ensures GetsAll(c, Uploader(SAck, k, [Ack], [], [Env(TakeAck)] + rest), file)
  {
    SettlesOne(c, Uploader(SAck, k, [Ack], [], [Env(TakeAck)] + rest), TakeAck, rest);
    SameGets(c, Uploader(SAck, k, [Ack], [], [Env(TakeAck)] + rest), Uploader(SRead, k, [], [], rest), file);
  }

  lemma {:induction false} RestUploaded(c: Config, k: nat)
    requires c.role.NodeReceives? && ValidConfig(c) && k <= |c.source|
    ensures GetsAll(c, Uploader(SRead, k, [], [], UploadMoves(c, k)), c.source[..k])
    decreases |c.source| - k
  {
    if k < |c.source| {
      var n := Min(c.chunk, |c.source| - k);
      RestUploaded(c, k + n);
      ChunkUploaded(c, k, n, UploadMoves(c, k + n));
    } else {
      assert c.source[..k] == c.source;
      EndUploaded(c);
    }
  }

  lemma EndUploaded(c: Config)
    requires c.role.NodeReceives?
    ensures GetsAll(c, Uploader(SRead, |c.source|, [], [], [Env(ReadChunk(0)), Env(SendEnd), Go]), c.source)
  {
    var p := Uploader(SRead, |c.source|, [], [], [Env(ReadChunk(0)), Env(SendEnd), Go]);
    EndSent(c, p);
    assert Receives(c, p, c.source).fault.None?;
  }

  lemma EndSent(c: Config, p: Port)
    requires c.role.NodeReceives?
    requires p == Uploader(SRead, |c.source|, [], [], [Env(ReadChunk(0)), Env(SendEnd), Go])
    ensures Got(c, p).raw == Ok(End)
  {
    var s1 := [Env(SendEnd)] + ([Go] + []);
    assert p.schedule == [Env(ReadChunk(0))] + s1;
    SettlesOne(c, p, ReadChunk(0), s1);
    EndPut(c);
  }

  lemma EndPut(c: Config)
    requires c.role.NodeReceives?
    ensures Settled(c, Uploader(SEnd, |c.source|, [], [], [Env(SendEnd)] + ([Go] + []))) ==
            Uploader(SDone, |c.source|, [], [End], [Go] + [])
  {
    SettlesOne(c, Uploader(SEnd, |c.source|, [], [], [Env(SendEnd)] + ([Go] + [])), SendEnd, [Go] + []);
    SettledAlready(c, Uploader(SDone, |c.source|, [], [End], [Go] + []), []);
  }

  // ----- opening a session for it

  /** Bind, the client joins, start, it takes the start, `getsize`, resume frame, it takes that, `open`. */
  function Reopening(later: seq<Move>): seq<Move> {
    [Go, Env(PeerJoin), Go, Env(TakeStart), Go, Go, Env(TakeResume), Go] + later
  }

  lemma UploadReopens(c: Config, p: Port, file: Bytes, later: seq<Move>)
    requires c.role.NodeReceives? && p.client.Sending? && p.schedule == Reopening(later)
    ensures ReceiverOpens(c, p, Some(file)) == Reception(None, Uploader(SRead, |file|, [], [], later), Some(file))
  {
    var s1 := [Env(PeerJoin), Go, Env(TakeStart), Go, Go, Env(TakeResume), Go] + later;
    var s2 := [Go, Env(TakeStart), Go, Go, Env(TakeResume), Go] + later;
    var s3 := [Env(TakeStart), Go, Go, Env(TakeResume), Go] + later;
    assert p.schedule == [Go] + s1 && s1 == [Env(PeerJoin)] + s2 && s2 == [Go] + s3;
    SettledAlready(c, p, s1);
    var p1 := Uploader(SOff, 0, [], [], s1);
    assert Bound(c, p, false) == Turn(None, p1);
    SettlesOne(c, p1, PeerJoin, s2);
    SettledAlready(c, Uploader(SStart, 0, [], [], s2), s3);
    var p3 := Uploader(SStart, 0, [Frame.Start], [], s3);
    assert Announced(c, p, false) == Turn(None, p3);
    ShardReopens(c, p3, file, later);
  }

  lemma ShardReopens(c: Config, p3: Port, file: Bytes, later: seq<Move>)
    requires c.role.NodeReceives?
    requires p3 == Uploader(SStart, 0, [Frame.Start], [], [Env(TakeStart), Go, Go, Env(TakeResume), Go] + later)
    ensures ShardOpens(c, p3, Some(file)) == Reception(None, Uploader(SRead, |file|, [], [], later), Some(file))
  {
    var s6 := [Env(TakeResume)] + ([Go] + later);
    assert p3.schedule == [Env(TakeStart)] + ([Go] + ([Go] + s6));
    Measured(c, file, [Go] + s6);
    var p5 := Uploader(SResume, 0, [], [], [Go] + s6);
    SettledAlready(c, p5, s6);
    var p6 := Uploader(SResume, 0, [Resume(|file|)], [], s6);
    assert Sent(c, p5, Resume(|file|)) == Turn(None, p6);
    Reopened(c, file, later);
  }

  lemma Measured(c: Config, file: Bytes, rest: seq<Move>)
    requires c.role.NodeReceives?
    ensures Touched(c, Uploader(SStart, 0, [Frame.Start], [], [Env(TakeStart)] + ([Go] + rest))) ==
            Turn(None, Uploader(SResume, 0, [], [], rest))
  {
    SettlesOne(c, Uploader(SStart, 0, [Frame.Start], [], [Env(TakeStart)] + ([Go] + rest)), TakeStart, [Go] + rest);
    SettledAlready(c, Uploader(SResume, 0, [], [], [Go] + rest), rest);
  }

  lemma Reopened(c: Config, file: Bytes, later: seq<Move>)
    requires c.role.NodeReceives?
    ensures Touched(c, Uploader(SResume, 0, [Resume(|file|)], [], [Env(TakeResume)] + ([Go] + later))) ==
            Turn(None, Uploader(SRead, |file|, [], [], later))
  {
    var p6 := Uploader(SResume, 0, [Resume(|file|)], [], [Env(TakeResume)] + ([Go] + later));
    SettlesOne(c, p6, TakeResume, [Go] + later);
    SettledAlready(c, Uploader(SRead, |file|, [], [], [Go] + later), later);
  }

  /** The first session times out waiting for data; the second one gets it all. */
  function UploadSchedule(c: Config, k: nat): seq<Move>
    requires ValidConfig(c)
  {
    Reopening([Go] + Reopening(UploadMoves(c, k)))
  }

  lemma UploadCompletes(c: Config, k: nat)
    requires c.role.NodeReceives? && ValidConfig(c) && k <= |c.source|
    ensures var p := Port(Client.Sending(Sender(SOff, 0)), Link([], []), true, UploadSchedule(c, k));
            ReceiverOutcome(c, p, Some(c.source[..k])) == Completed
  {
    var p := Port(Client.Sending(Sender(SOff, 0)), Link([], []), true, UploadSchedule(c, k));
    var file, second := c.source[..k], Reopening(UploadMoves(c, k));
    UploadReopens(c, p, file, [Go] + second);
    var first := Uploader(SRead, k, [], [], [Go] + second);
    SettledAlready(c, first, second);
    var broken := Uploader(SRead, k, [], [], second);
    assert Receives(c, first, file) == Reception(Some(OtherError), broken, Some(file));
    UploadReopens(c, broken, file, UploadMoves(c, k));
    RestUploaded(c, k);
    assert Receives(c, Uploader(SRead, k, [], [], UploadMoves(c, k)), file).fault.None?;
  }

  /**
   An upload of any source, in chunks of any size, of which any number of bytes is already stored: the
   first session times out, the client returns and sends the rest and END; the upload completes, the
   file is the source, completion is reported, and the request leaves the ledger.
   */
  method InterruptedUpload(source: Bytes, chunk: nat, k: nat, request: Request)
    returns (outcome: Outcome, stored: Option<Bytes>, reported: seq<string>, left: LedgerFile<Request>)
    requires chunk >= 1 && k <= |source|
    ensures outcome.Completed? && stored == Some(source) && reported == [request.shardId] && left == Readable([])
  {
    var c := Config(NodeReceives, source, chunk);
    UploadCompletes(c, k);
    var ledger := new ConnectionLedger(Readable([request]));
    var config := new NodeConfig(true, false, "10.0.0.1", 50000);
    var backend := new Backend();
    var router := new Router("10.0.0.1");
    assert Content(Receiver(ROff, Some(source[..k]), 0)) <= source;
    assert Startable(c, Initial(Some(source[..k])));
    var session := new ZmqSessionManager(c, Some(source[..k]), UploadSchedule(c, k));
    var disk := new ShardFile(Some(source[..k]));
    var receiver := new FragmentReceiver(config, ledger, backend, true, router, false, session, disk);
    outcome := receiver.ReceiveData(request, NoFault);
    stored, reported, left := disk.file, backend.completed, ledger.file;
    UnregisteredIs(Readable([request]), request, NoFault);
  }

  // ----- a client that downloads what is missing

  function Downloader(pc: ReceiverPc, file: Bytes, synced: nat, up: seq<Frame>, down: seq<Frame>,
                      schedule: seq<Move>): Port {
    Port(Client.Receiving(Receiver(pc, Some(file), synced)), Link(down, up), false, schedule)
  }

  /** The client acknowledges and stores everything from `k` on, and no operation of the node raises. */
  function DownloadMoves(c: Config, k: nat): seq<Move>
    requires ValidConfig(c)
    decreases |c.source| - k
  {
    if k >= |c.source| then [Go]
    else
      [Go, Env(TakeFrame), Env(SendAck), Go, Env(WriteAll)] + DownloadMoves(c, k + Min(c.chunk, |c.source| - k))
  }

  /** From here on everything is sent and acknowledged, and then END can be sent. */
  ghost predicate SendsAll(c: Config, p: Port, chunk: Bytes, cursor: nat) {
    forall q {:trigger Transmits(c, q, chunk, cursor)} :: q == p ==>
      Transmits(c, q, chunk, cursor).fault.None? && Sent(c, Transmits(c, q, chunk, cursor).port, End).fault.None?
  }

  lemma SendsOn(c: Config, p: Port, chunk: Bytes, cursor: nat, q: Port)
    requires chunk != [] && Delivers(c, p, chunk) == Turn(None, q)
    requires var next := ReadAt(c, cursor); SendsAll(c, q, next, cursor + |next|)
    ensures SendsAll(c, p, chunk, cursor)
  {
    var next := ReadAt(c, cursor);
    assert Transmits(c, p, chunk, cursor) == Transmits(c, q, next, cursor + |next|);
  }

  lemma SameSends(c: Config, p: Port, q: Port, frame: Frame)
    requires Settled(c, p) == Settled(c, q)
    ensures Sent(c, p, frame) == Sent(c, q, frame)
  {
  }

  lemma FrameTaken(c: Config, file: Bytes, y: nat, chunk: Bytes, rest: seq<Move>)
    requires c.role.NodeSends?
    ensures Settled(c, Downloader(RRecv, file, y, [], [Data(chunk)], [Env(TakeFrame)] + rest)) ==
            Settled(c, Downloader(RAck(chunk), file, y, [], [], rest))
  {
    SettlesOne(c, Downloader(RRecv, file, y, [], [Data(chunk)], [Env(TakeFrame)] + rest), TakeFrame, rest);
  }

  lemma FrameAcked(c: Config, file: Bytes, y: nat, chunk: Bytes, rest: seq<Move>)
    requires c.role.NodeSends?
    ensures Settled(c, Downloader(RAck(chunk), file, y, [], [], [Env(SendAck)] + ([Go] + rest))) ==
            Downloader(RWrite(chunk), file, y, [Ack], [], [Go] + rest)
  {
    SettlesOne(c, Downloader(RAck(chunk), file, y, [], [], [Env(SendAck)] + ([Go] + rest)), SendAck, [Go] + rest);
    SettledAlready(c, Downloader(RWrite(chunk), file, y, [Ack], [], [Go] + rest), rest);
  }

  lemma ChunkKept(c: Config, file: Bytes, y: nat, chunk: Bytes, rest: seq<Move>)
    requires c.role.NodeSends?
    ensures Settled(c, Downloader(RWrite(chunk), file, y, [], [], [Env(WriteAll)] + rest)) ==
            Settled(c, Downloader(RRecv, file + chunk, y, [], [], rest))
  {
    SettlesOne(c, Downloader(RWrite(chunk), file, y, [], [], [Env(WriteAll)] + rest), WriteAll, rest);
  }

  /** The client takes a data frame and acknowledges it. */
  lemma ChunkAcked(c: Config, file: Bytes, y: nat, chunk: Bytes, rest: seq<Move>)
    requires c.role.NodeSends?
    ensures var p := Downloader(RRecv, file, y, [], [Data(chunk)], [Env(TakeFrame)] + ([Env(SendAck)] + ([Go] + rest)));
            Got(c, p) == Received(Ok(Ack), Downloader(RWrite(chunk), file, y, [], [], rest))
  {
    FrameTaken(c, file, y, chunk, [Env(SendAck)] + ([Go] + rest));
    FrameAcked(c, file, y, chunk, rest);
    assert ([Go] + rest)[1..] == rest;
  }

  lemma ChunkPut(c: Config, p: Port, here: Port, chunk: Bytes, rest: seq<Move>)
    requires c.role.NodeSends? && Settled(c, p) == Settled(c, here) && here.schedule == [Go] + rest
    ensures Sent(c, p, Data(chunk)) == Turn(None, here.(link := Put(c, here.link, Data(chunk)), schedule := rest))
  {
    SettledAlready(c, here, rest);
  }

  /** One chunk: the node sends it, the client acknowledges and stores it. */
  lemma ChunkDownloaded(c: Config, p: Port, file: Bytes, y: nat, chunk: Bytes, rest: seq<Move>) returns (q: Port)
    requires c.role.NodeSends?
    requires Settled(c, p) == Settled(c, Downloader(RRecv, file, y, [], [],
                                                    [Go, Env(TakeFrame), Env(SendAck), Go, Env(WriteAll)] + rest))
    ensures Delivers(c, p, chunk) == Turn(None, q)
    ensures Settled(c, q) == Settled(c, Downloader(RRecv, file + chunk, y, [], [], rest))
  {
    var s4 := [Env(WriteAll)] + rest;
    var s1 := [Env(TakeFrame)] + ([Env(SendAck)] + ([Go] + s4));
    var here := Downloader(RRecv, file, y, [], [], [Go, Env(TakeFrame), Env(SendAck), Go, Env(WriteAll)] + rest);
    assert here.schedule == [Go] + s1 && [] + [Data(chunk)] == [Data(chunk)];
    ChunkPut(c, p, here, chunk, s1);
    ChunkAcked(c, file, y, chunk, s4);
    q := Downloader(RWrite(chunk), file, y, [], [], s4);
    ChunkKept(c, file, y, chunk, rest);
  }

  lemma PrefixGrows(c: Config, k: nat)
    requires ValidConfig(c) && k < |c.source|
    ensures var n := Min(c.chunk, |c.source| - k);
            |ReadAt(c, k)| == n && n > 0 && k + n <= |c.source| && c.source[..k] + ReadAt(c, k) == c.source[..k + n]
  {
  }

  lemma DownloadTurn(c: Config, p: Port, k: nat, y: nat) returns (q: Port)
    requires c.role.NodeSends? && ValidConfig(c) && k < |c.source|
    requires Settled(c, p) == Settled(c, Downloader(RRecv, c.source[..k], y, [], [], DownloadMoves(c, k)))
    ensures var n := Min(c.chunk, |c.source| - k);
            && Delivers(c, p, ReadAt(c, k)) == Turn(None, q)
            && Settled(c, q) == Settled(c, Downloader(RRecv, c.source[..k + n], y, [], [], DownloadMoves(c, k + n)))
  {
    var n := Min(c.chunk, |c.source| - k);
    PrefixGrows(c, k);
    q := ChunkDownloaded(c, p, c.source[..k], y, ReadAt(c, k), DownloadMoves(c, k + n));
  }

  lemma {:induction false} RestDownloaded(c: Config, p: Port, k: nat, y: nat)
    requires c.role.NodeSends? && ValidConfig(c) && k <= |c.source|
    requires Settled(c, p) == Settled(c, Downloader(RRecv, c.source[..k], y, [], [], DownloadMoves(c, k)))
    ensures var chunk := ReadAt(c, k); SendsAll(c, p, chunk, k + |chunk|)
    decreases |c.source| - k
  {
    if k < |c.source| {
      PrefixGrows(c, k);
      var q := DownloadTurn(c, p, k, y);
      RestDownloaded(c, q, k + |ReadAt(c, k)|, y);
      SendsOn(c, p, ReadAt(c, k), k + |ReadAt(c, k)|, q);
    } else {
      NothingLeft(c, p, k, y);
    }
  }

  lemma NothingLeft(c: Config, p: Port, k: nat, y: nat)
    requires k >= |c.source|
    requires Settled(c, p) == Settled(c, Downloader(RRecv, c.source[..|c.source|], y, [], [], [Go]))
    ensures SendsAll(c, p, ReadAt(c, k), k + |ReadAt(c, k)|)
  {
    var last := Downloader(RRecv, c.source[..|c.source|], y, [], [], [Go]);
    assert last.schedule == [Go] + [];
    SettledAlready(c, last, []);
    SameSends(c, p, last, End);
    assert Transmits(c, p, [], k) == Transmission(None, p, k);
  }

  /** Bind, the client joins, start, it takes the start and opens its file, resume frame. */
  function Rejoining(later: seq<Move>): seq<Move> {
    [Go, Env(PeerJoin), Go, Env(TakeStart), Env(OpenFile), Go] + later
  }

  lemma DownloadReopens(c: Config, p: Port, file: Bytes, later: seq<Move>)
    requires c.role.NodeSends? && p.client.Receiving? && p.client.receiver.file == Some(file)
    requires p.schedule == Rejoining(later)
    ensures SenderOpens(c, p, false) ==
            Transmission(None, Downloader(RRecv, file, |file|, [], [], later), |file|)
  {
    var s1 := [Env(PeerJoin), Go, Env(TakeStart), Env(OpenFile), Go] + later;
    var s2 := [Go, Env(TakeStart), Env(OpenFile), Go] + later;
    var s3 := [Env(TakeStart), Env(OpenFile), Go] + later;
    assert p.schedule == [Go] + s1 && s1 == [Env(PeerJoin)] + s2 && s2 == [Go] + s3;
    SettledAlready(c, p, s1);
    var p1 := Downloader(ROff, file, |file|, [], [], s1);
    assert Bound(c, p, false) == Turn(None, p1);
    SettlesOne(c, p1, PeerJoin, s2);
    SettledAlready(c, Downloader(RStart, file, |file|, [], [], s2), s3);
    var p3 := Downloader(RStart, file, |file|, [], [Frame.Start], s3);
    assert Announced(c, p, false) == Turn(None, p3);
    ResumeArrives(c, p3, file, later);
  }

  lemma StartArrives(c: Config, file: Bytes, rest: seq<Move>)
    requires c.role.NodeSends?
    ensures Settled(c, Downloader(RStart, file, |file|, [], [Frame.Start], [Env(TakeStart)] + rest)) ==
            Settled(c, Downloader(ROpen, file, |file|, [], [], rest))
  {
    SettlesOne(c, Downloader(RStart, file, |file|, [], [Frame.Start], [Env(TakeStart)] + rest), TakeStart, rest);
  }

  lemma FileOpens(c: Config, file: Bytes, rest: seq<Move>)
    requires c.role.NodeSends?
    ensures Settled(c, Downloader(ROpen, file, |file|, [], [], [Env(OpenFile)] + ([Go] + rest))) ==
            Downloader(RRecv, file, |file|, [Resume(|file|)], [], [Go] + rest)
  {
    SettlesOne(c, Downloader(ROpen, file, |file|, [], [], [Env(OpenFile)] + ([Go] + rest)), OpenFile, [Go] + rest);
    SettledAlready(c, Downloader(RRecv, file, |file|, [Resume(|file|)], [], [Go] + rest), rest);
  }

  lemma ResumeArrives(c: Config, p3: Port, file: Bytes, later: seq<Move>)
    requires c.role.NodeSends?
    requires p3 == Downloader(RStart, file, |file|, [], [Frame.Start], [Env(TakeStart), Env(OpenFile), Go] + later)
    ensures Got(c, p3) == Received(Ok(Resume(|file|)), Downloader(RRecv, file, |file|, [], [], later))
  {
    assert p3.schedule == [Env(TakeStart)] + ([Env(OpenFile)] + ([Go] + later));
    StartArrives(c, file, [Env(OpenFile)] + ([Go] + later));
    FileOpens(c, file, later);
    assert ([Go] + later)[1..] == later;
  }

  /** The first data frame cannot be sent; the second session sends everything. */
  function DownloadSchedule(c: Config, k: nat): seq<Move>
    requires ValidConfig(c)
  {
    Rejoining([Break(OtherError)] + Rejoining(DownloadMoves(c, k)))
  }

  lemma DownloadCompletes(c: Config, k: nat)
    requires c.role.NodeSends? && ValidConfig(c) && k < |c.source|
    ensures var r := Receiver(ROff, Some(c.source[..k]), k);
            var p := Port(Client.Receiving(r), Link([], []), true, DownloadSchedule(c, k));
            SenderOutcome(c, p, false) == Completed
  {
    var r := Receiver(ROff, Some(c.source[..k]), k);
    var p := Port(Client.Receiving(r), Link([], []), true, DownloadSchedule(c, k));
    var file, second := c.source[..k], Rejoining(DownloadMoves(c, k));
    DownloadReopens(c, p, file, [Break(OtherError)] + second);
    var first := Downloader(RRecv, file, k, [], [], [Break(OtherError)] + second);
    var broken := Downloader(RRecv, file, k, [], [], second);
    FirstFrameFails(c, first, k, broken);
    DownloadReopens(c, broken, file, DownloadMoves(c, k));
    var again := Downloader(RRecv, file, k, [], [], DownloadMoves(c, k));
    RestDownloaded(c, again, k, k);
    EndsDownload(c, first, k, broken, again);
  }

  lemma RetriesTo(c: Config, broken: Port, again: Port, k: nat)
    requires SenderOpens(c, broken, false) == Transmission(None, again, k)
    ensures SenderRetries(c, broken) == TransmitsFrom(c, again, k)
  {
  }

  lemma EndsDownload(c: Config, first: Port, k: nat, broken: Port, again: Port)
    requires TransmitsFrom(c, first, k).fault == Some(OtherError) && TransmitsFrom(c, first, k).port == broken
    requires SenderOpens(c, broken, false) == Transmission(None, again, k)
    requires var chunk := ReadAt(c, k); SendsAll(c, again, chunk, k + |chunk|)
    ensures SenderEnds(c, first, k) == Completed
  {
    RetriesTo(c, broken, again, k);
    LoopStarts(c, again, k);
    LastSession(c, first, k, broken, TransmitsFrom(c, again, k));
  }

  lemma LastSession(c: Config, first: Port, k: nat, broken: Port, last: Transmission)
    requires TransmitsFrom(c, first, k).fault == Some(OtherError) && TransmitsFrom(c, first, k).port == broken
    requires SenderRetries(c, broken) == last && last.fault.None? && Sent(c, last.port, End).fault.None?
    ensures SenderEnds(c, first, k) == Completed
  {
  }

  lemma FirstFrameFails(c: Config, p: Port, k: nat, q: Port)
    requires ValidConfig(c) && k < |c.source|
    requires p.schedule != [] && p.schedule[0] == Break(OtherError) && q == p.(schedule := p.schedule[1..])
    ensures TransmitsFrom(c, p, k).fault == Some(OtherError) && TransmitsFrom(c, p, k).port == q
  {
    assert ReadAt(c, k) != [];
    assert Settled(c, p) == p;
  }

  /**
   A download of any source, in chunks of any size, to a client that has any part of it, but not all:
   the first data frame fails, the client returns and says what it has; everything from there on is
   sent and acknowledged, then END, the download completes, and the request leaves the ledger.
   */
  method InterruptedDownload(source: Bytes, chunk: nat, k: nat, request: Request)
    returns (outcome: Outcome, left: LedgerFile<Request>, sender: FragmentSender)
    requires chunk >= 1 && k < |source|
    ensures outcome.Completed? && left == Readable([])
    ensures sender.session.cfg.source == source && sender.AllSent() && sender.session.TookSince(0, Action.SendEnd)
  {
    var c := Config(NodeSends, source, chunk);
    DownloadCompletes(c, k);
    var ledger := new ConnectionLedger(Readable([request]));
    var config := new NodeConfig(true, false, "10.0.0.1", 50000);
    var router := new Router("10.0.0.1");
    assert Content(Receiver(ROff, Some(source[..k]), 0)) <= source;
    assert Startable(c, Initial(Some(source[..k])));
    var session := new ZmqSessionManager(c, Some(source[..k]), DownloadSchedule(c, k));
    var disk := new ShardFile(Some(source));
    sender := new FragmentSender(config, ledger, router, false, session, disk);
    outcome := sender.SendData(request, false, NoFault);
    left := ledger.file;
    UnregisteredIs(Readable([request]), request, NoFault);
  }
}
