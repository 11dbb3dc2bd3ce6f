/**
 `request_dispatcher.py` and the recovery of `startup_interface.py`: what the node does with one
 request, how an audit digest is computed, and how pending transfers are taken up after a restart.
 */
module RequestDispatch {
  import opened Wrappers
  import opened TransferProtocol
  import opened TransferSafety
  import opened ConnectionLedgers
  import opened NodeParts
  import opened TransferOracle
  import opened TransferNode
  import opened TransferEscapes
  import LedgerThreads

  /** A streaming hash: the digest depends on everything it was fed, in order.  `digest` stands for MD5. */
  class Hasher {
    const digest: Bytes -> string
    var fed: Bytes

    constructor (digest: Bytes -> string)
      ensures this.digest == digest && fed == []
    {
      this.digest := digest;
      fed := [];
    }

    method Update(data: Bytes)
      modifies this`fed
      ensures fed == old(fed) + data
    {
      fed := fed + data;
    }

    method HexDigest() returns (d: string)
      ensures d == digest(fed)
    {
      d := digest(fed);
    }
  }

  class IntegrityVerifier {
    const digest: Bytes -> string

    constructor (digest: Bytes -> string)
      ensures this.digest == digest
    {
      this.digest := digest;
    }

    /** A missing fragment raises. */
    method ComputeSaltedHash(fragment: ShardFile, salt: Bytes) returns (r: Option<string>)
      ensures r == if fragment.file.None? then None else Some(digest(fragment.file.value + salt))
    {
      if fragment.file.None? {
        return None;
      }
      var hasher := new Hasher(digest);
      hasher.Update(fragment.file.value);
      hasher.Update(salt);
      var d := hasher.HexDigest();
      assert hasher.fed == fragment.file.value + salt;
      return Some(d);
    }
  }

  datatype Reply = PortReply(port: nat) | DigestReply(digest: string)

  /** The requester's connection, if there is one. */
  class Connection {
    var present: bool
    var fails: bool
    var replies: seq<Reply>

    constructor (present: bool, fails: bool)
      ensures this.present == present && this.fails == fails && replies == []
    {
      this.present, this.fails, replies := present, fails, [];
    }

    method Send(reply: Reply) returns (raised: bool)
      requires present
      modifies this`replies
      ensures raised == fails
      ensures replies == if fails then old(replies) else old(replies) + [reply]
    {
      raised := fails;
      if !fails {
        replies := replies + [reply];
      }
    }
  }

  /** How the ledger's file is written while one request is handled. */
  datatype Faults = Faults(registering: WriteFault, unregistering: WriteFault)

  /** The ledger after one transfer request: entered if its port was zero, removed if its call came to an end. */
  function LedgerAfter(file: LedgerFile<Request>, request: Request, port: nat, faults: Faults,
      ended: bool): LedgerFile<Request> {
    var entered := if request.port == 0 then Registered(file, request.(port := port), faults.registering) else file;
    var held := if request.port == 0 then request.(port := port) else request;
    if ended then Unregistered(entered, held, faults.unregistering) else entered
  }

  /** A request that was given a port and came to its end leaves no trace among the pending ones. */
  lemma FinishedTransferLeavesNoTrace(file: LedgerFile<Request>, request: Request, port: nat)
    requires request.port == 0
    ensures multiset(Entries(LedgerAfter(file, request, port, Faults(NoFault, NoFault), true)))
            == multiset(Entries(file))
  {
    UnregisterUndoesRegister(file, request.(port := port));
  }

  /** The entries of a ledger file, none if it cannot be read. */
  function Waiting(file: LedgerFile<Request>): seq<Request> {
    if file.Readable? then file.entries else []
  }

  /** What becomes of the pending requests: in each case, without reference to how the file is rewritten. */
  lemma LedgerAfterIs(file: LedgerFile<Request>, request: Request, port: nat, faults: Faults, ended: bool)
    ensures var after, task := LedgerAfter(file, request, port, faults, ended), request.(port := port);
            && (request.port != 0 && !ended ==> after == file)
            && (request.port == 0 && !ended && faults.registering.NoFault? ==>
                  after == Readable(Waiting(file) + [task]))
            && (request.port == 0 && !ended && faults.registering.OpenFails? ==> after == file)
            && (request.port != 0 && ended && request !in Waiting(file) ==> after == file)
            && (request.port != 0 && ended && request in Waiting(file) && faults.unregistering.NoFault? ==>
                  after.Readable? && FirstGone(Waiting(file), request, after.entries))
            && (request.port == 0 && ended && faults == Faults(NoFault, NoFault) ==>
                  && after.Readable? && multiset(after.entries) == multiset(Waiting(file))
                  && (task !in Waiting(file) ==> after.entries == Waiting(file)))
  {
    if request.port == 0 {
      RegisteredIs(file, request.(port := port), faults.registering);
      UnregisterUndoesRegister(file, request.(port := port));
    } else {
      UnregisteredIs(file, request, faults.unregistering);
    }
  }

  class RequestDispatcher {
    const ledger: ConnectionLedger<Request>
    const sender: FragmentSender
    const receiver: FragmentReceiver
    const verifier: IntegrityVerifier
    const disk: ShardFile

    constructor (ledger: ConnectionLedger<Request>, sender: FragmentSender, receiver: FragmentReceiver,
                 verifier: IntegrityVerifier, disk: ShardFile)
      ensures this.ledger == ledger && this.sender == sender && this.receiver == receiver
      ensures this.verifier == verifier && this.disk == disk
    {
      this.ledger, this.sender, this.receiver, this.verifier, this.disk := ledger, sender, receiver, verifier, disk;
    }

    /** Both transfer objects idle, over one disk and one ledger, each on its own port. */
    ghost predicate Ready()
      reads this, ledger, sender, receiver, sender.session, receiver.session, disk
    {
      && receiver.disk == disk && sender.disk == disk && receiver.ledger == ledger && sender.ledger == ledger
      && receiver.session != sender.session && !ledger.held
      && receiver.At(ROff) && receiver.session.spec.call.Idle?
      && sender.At(SOff) && sender.session.spec.call.Idle? && ValidConfig(sender.session.cfg)
    }

    /**
     `_allocate_transfer_port`: the port the scanner found is written into the request, the request
     goes into the ledger (the transfer runs even if that fails), and the requester is told.
     */
    method AllocateTransferPort(request: Request, found: nat, fault: WriteFault, connection: Connection)
      returns (task: Request, raised: bool)
      requires !ledger.held
      modifies ledger, connection`replies
      ensures task == request.(port := found)
      ensures !ledger.held && ledger.file == Registered(old(ledger.file), task, fault)
      ensures raised <==> connection.present && connection.fails
      ensures connection.replies == old(connection.replies)
              + (if connection.present && !connection.fails then [PortReply(found)] else [])
    {
      task, raised := request.(port := found), false;
      var registered := ledger.Register(task, fault);
      if connection.present {
        raised := connection.Send(PortReply(found));
      }
    }

    /** The node has a router whose forwards it looks after. */
    ghost predicate Manages(config: NodeConfig, hasRouter: bool)
      reads config
    {
      !config.local && !config.hosted && hasRouter
    }

    /** How an audit, an upload and a download end, as the connection, the disk and the oracles decide. */
    ghost function OutcomeOf(request: Request, connection: Connection): Outcome
      reads this, disk, connection, receiver, receiver.session, sender, sender.session
    {
      var refused := connection.present && connection.fails;
      if request.kind.Audit? then (if disk.file.None? || refused then Escaped else Completed)
      else if request.port == 0 && refused then Escaped
      else match request.kind
           case Upload => ReceiverOutcome(receiver.session.cfg, receiver.session.Now(), disk.file)
           case Download =>
             if disk.file.None? then Missing else SenderOutcome(sender.session.cfg, sender.session.Now(),
                 request.port == 0)
           case _ => Missing
    }

    /**
     `dispatch`.  An audit answers with the digest and touches nothing else.  A transfer enters the
     ledger exactly if its port is zero, and leaves it exactly if its call ends without an exception
     escaping; a download negotiates a resume offset exactly if its port was not zero.  Afterwards the
     dispatcher is ready for the next request.
     */
    method Dispatch(request: Request, salt: Bytes, found: nat, faults: Faults,
        connection: Connection) returns (outcome: Outcome)
      requires Ready()
      requires request.kind.Download? && disk.file.Some? ==> disk.file.value == sender.session.cfg.source
      modifies ledger, connection`replies, disk, receiver.session, sender.session
      modifies receiver.backend`completed, receiver.router, sender.router
      ensures Ready()
      ensures request.kind.Upload? ==>
                receiver.router.forwards ==
                if (outcome.Completed? || outcome.GaveUp?) && Manages(receiver.config, receiver.hasRouter)
                then old(receiver.router.forwards) - {if request.port == 0 then found else request.port}
                else old(receiver.router.forwards)
      ensures request.kind.Download? ==>
                sender.router.forwards ==
                if (outcome.Completed? || outcome.GaveUp?) && Manages(sender.config, sender.hasRouter)
                then old(sender.router.forwards) - {if request.port == 0 then found else request.port}
                else old(sender.router.forwards)
      ensures request.kind.Unknown? || request.kind.Audit? ==>
                receiver.router.forwards == old(receiver.router.forwards)
                && sender.router.forwards == old(sender.router.forwards)
      ensures request.kind.Audit? ==>
                outcome == if disk.file.None? || (connection.present && connection.fails) then Escaped else Completed
      ensures !request.kind.Audit? && request.port == 0 && connection.present && connection.fails ==> outcome.Escaped?
      ensures request.kind.Upload? && !(request.port == 0 && connection.present && connection.fails) ==>
                && old(receiver.session.raised) <= receiver.session.raised
                && UploadEnded(receiver.session.raised[|old(receiver.session.raised)|..], outcome)
      ensures request.kind.Download? && !(request.port == 0 && connection.present && connection.fails) ==>
                if disk.file.None? then outcome.Missing?
                else && old(sender.session.raised) <= sender.session.raised
                     && DownloadEnded(sender.session.raised[|old(sender.session.raised)|..], outcome)
      ensures receiver.backend.completed == old(receiver.backend.completed)
              + (if request.kind.Upload? && outcome.Completed? && receiver.hasBackend then [request.shardId] else [])
      ensures var ended := outcome.Completed? || outcome.GaveUp?;
              && (!request.kind.Audit? && request.port != 0 && !ended ==> ledger.file == old(ledger.file))
              && (!request.kind.Audit? && request.port == 0 && !ended && faults.registering.NoFault? ==>
                    ledger.file == Readable(Waiting(old(ledger.file)) + [request.(port := found)]))
              && (!request.kind.Audit? && request.port == 0 && ended && faults == Faults(NoFault, NoFault) ==>
                    ledger.file.Readable? && multiset(ledger.file.entries) == multiset(Waiting(old(ledger.file))))
              && (!request.kind.Audit? && request.port != 0 && ended && faults.unregistering.NoFault?
                  && request in Waiting(old(ledger.file)) ==>
                    ledger.file.Readable? && FirstGone(Waiting(old(ledger.file)), request, ledger.file.entries))
      ensures outcome == old(OutcomeOf(request, connection))
      ensures request.kind.Audit? ==>
                && ledger.file == old(ledger.file) && disk.file == old(disk.file)
                && connection.replies == old(connection.replies) +
                     (if connection.present && !connection.fails && disk.file.Some?
                      then [DigestReply(verifier.digest(disk.file.value + salt))] else [])
      ensures !request.kind.Audit? ==>
                && ledger.file == LedgerAfter(old(ledger.file), request, found, faults,
                     outcome.Completed? || outcome.GaveUp?)
                && connection.replies == old(connection.replies) +
                     (if request.port == 0 && connection.present && !connection.fails then [PortReply(found)] else [])
                && (request.port == 0 && connection.present && connection.fails ==> disk.file == old(disk.file))
      ensures request.kind.Upload? && outcome.Completed? ==> disk.file == Some(receiver.session.cfg.source)
      ensures request.kind.Upload? && old(disk.file).Some? ==>
                disk.file.Some? && old(disk.file).value <= disk.file.value
      ensures !request.kind.Upload? ==>
                disk.file == old(disk.file) && receiver.backend.completed == old(receiver.backend.completed)
      ensures request.kind.Download? && outcome.Completed? ==> sender.AllSent()
      ensures request.kind.Download? && (outcome.Completed? || outcome.GaveUp?) ==>
                sender.session.TookSince(|old(sender.session.taken)|, Begin(request.port == 0))
    {
      if request.kind.Audit? {
        outcome := Audit(salt, connection);
        return;
      }
      outcome := Transfer(request, found, faults, connection);
      LedgerAfterIs(old(ledger.file), request, found, faults, outcome.Completed? || outcome.GaveUp?);
    }

    /** Lines 101-109. */
    method Transfer(request: Request, found: nat, faults: Faults, connection: Connection) returns (outcome: Outcome)
      requires Ready() && !request.kind.Audit?
      requires request.kind.Download? && disk.file.Some? ==> disk.file.value == sender.session.cfg.source
      modifies ledger, connection`replies, disk, receiver.session, sender.session
      modifies receiver.backend`completed, receiver.router, sender.router
      ensures Ready()
      ensures request.kind.Upload? ==>
                receiver.router.forwards ==
                if (outcome.Completed? || outcome.GaveUp?) && Manages(receiver.config, receiver.hasRouter)
                then old(receiver.router.forwards) - {if request.port == 0 then found else request.port}
                else old(receiver.router.forwards)
      ensures request.kind.Download? ==>
                sender.router.forwards ==
                if (outcome.Completed? || outcome.GaveUp?) && Manages(sender.config, sender.hasRouter)
                then old(sender.router.forwards) - {if request.port == 0 then found else request.port}
                else old(sender.router.forwards)
      ensures request.kind.Unknown? || request.kind.Audit? ==>
                receiver.router.forwards == old(receiver.router.forwards)
                && sender.router.forwards == old(sender.router.forwards)
      ensures request.port == 0 && connection.present && connection.fails ==> outcome.Escaped?
      ensures request.kind.Upload? && !(request.port == 0 && connection.present && connection.fails) ==>
                && old(receiver.session.raised) <= receiver.session.raised
                && UploadEnded(receiver.session.raised[|old(receiver.session.raised)|..], outcome)
      ensures request.kind.Download? && !(request.port == 0 && connection.present && connection.fails) ==>
                if disk.file.None? then outcome.Missing?
                else && old(sender.session.raised) <= sender.session.raised
                     && DownloadEnded(sender.session.raised[|old(sender.session.raised)|..], outcome)
      ensures receiver.backend.completed == old(receiver.backend.completed)
              + (if request.kind.Upload? && outcome.Completed? && receiver.hasBackend then [request.shardId] else [])
      ensures outcome == old(OutcomeOf(request, connection))
      ensures ledger.file == LedgerAfter(old(ledger.file), request, found, faults,
              outcome.Completed? || outcome.GaveUp?)
      ensures connection.replies == old(connection.replies) +
                (if request.port == 0 && connection.present && !connection.fails then [PortReply(found)] else [])
      ensures request.port == 0 && connection.present && connection.fails ==> disk.file == old(disk.file)
      ensures request.kind.Upload? && outcome.Completed? ==> disk.file == Some(receiver.session.cfg.source)
      ensures request.kind.Upload? && old(disk.file).Some? ==>
                disk.file.Some? && old(disk.file).value <= disk.file.value
      ensures !request.kind.Upload? ==>
                disk.file == old(disk.file) && receiver.backend.completed == old(receiver.backend.completed)
      ensures request.kind.Download? && outcome.Completed? ==> sender.AllSent()
      ensures request.kind.Download? && (outcome.Completed? || outcome.GaveUp?) ==>
                sender.session.TookSince(|old(sender.session.taken)|, Begin(request.port == 0))
    {
      var isNew, task := false, request;
      if request.port == 0 {
        isNew := true;
        var raised;
        task, raised := AllocateTransferPort(request, found, faults.registering, connection);
        if raised {
          return Escaped;
        }
      }
      outcome := Run(task, isNew, faults.unregistering);
    }

    /** Lines 106-109. */
    method Run(task: Request, isNew: bool, fault: WriteFault) returns (outcome: Outcome)
      requires Ready() && !task.kind.Audit?
      requires task.kind.Download? && disk.file.Some? ==> disk.file.value == sender.session.cfg.source
      modifies ledger, disk, receiver.session, sender.session
      modifies receiver.backend`completed, receiver.router, sender.router
      ensures Ready()
      ensures task.kind.Upload? ==>
                receiver.router.forwards ==
                if (outcome.Completed? || outcome.GaveUp?) && Manages(receiver.config, receiver.hasRouter)
                then old(receiver.router.forwards) - {task.port} else old(receiver.router.forwards)
      ensures task.kind.Download? ==>
                sender.router.forwards ==
                if (outcome.Completed? || outcome.GaveUp?) && Manages(sender.config, sender.hasRouter)
                then old(sender.router.forwards) - {task.port} else old(sender.router.forwards)
      ensures task.kind.Unknown? || task.kind.Audit? ==>
                receiver.router.forwards == old(receiver.router.forwards)
                && sender.router.forwards == old(sender.router.forwards)
      ensures task.kind.Upload? ==>
                && old(receiver.session.raised) <= receiver.session.raised
                && UploadEnded(receiver.session.raised[|old(receiver.session.raised)|..], outcome)
      ensures task.kind.Download? && disk.file.Some? ==>
                && old(sender.session.raised) <= sender.session.raised
                && DownloadEnded(sender.session.raised[|old(sender.session.raised)|..], outcome)
      ensures outcome.Missing? <==> task.kind.Unknown? || (task.kind.Download? && disk.file.None?)
      ensures outcome == match task.kind
              case Upload => ReceiverOutcome(receiver.session.cfg, old(receiver.session.Now()), old(disk.file))
              case Download => if disk.file.None? then Missing
                               else SenderOutcome(sender.session.cfg, old(sender.session.Now()), isNew)
              case _ => Missing
      ensures ledger.file == if outcome.Completed? || outcome.GaveUp? then Unregistered(old(ledger.file), task, fault)
                             else old(ledger.file)
      ensures receiver.backend.completed == old(receiver.backend.completed)
              + (if task.kind.Upload? && outcome.Completed? && receiver.hasBackend then [task.shardId] else [])
      ensures task.kind.Upload? && outcome.Completed? ==> disk.file == Some(receiver.session.cfg.source)
      ensures task.kind.Upload? && old(disk.file).Some? ==> disk.file.Some? && old(disk.file).value <= disk.file.value
      ensures !task.kind.Upload? ==>
                disk.file == old(disk.file) && receiver.backend.completed == old(receiver.backend.completed)
      ensures task.kind.Download? && outcome.Completed? ==> sender.AllSent()
      ensures task.kind.Download? && (outcome.Completed? || outcome.GaveUp?) ==>
                sender.session.TookSince(|old(sender.session.taken)|, Begin(isNew))
    {
      if task.kind.Upload? {
        outcome := receiver.ReceiveData(task, fault);
      } else if task.kind.Download? {
        outcome := sender.SendData(task, isNew, fault);
      } else {
        outcome := Missing;
      }
    }

    /** Lines 93-99. */
    method Audit(salt: Bytes, connection: Connection) returns (outcome: Outcome)
      modifies connection`replies
      ensures outcome == if disk.file.None? || (connection.present && connection.fails) then Escaped else Completed
      ensures connection.replies == old(connection.replies) +
                (if connection.present && !connection.fails && disk.file.Some?
                 then [DigestReply(verifier.digest(disk.file.value + salt))] else [])
    {
      var digest := verifier.ComputeSaltedHash(disk, salt);
      if digest.None? {
        return Escaped;
      }
      outcome := Completed;
      if connection.present {
        var failed := connection.Send(DigestReply(digest.value));
        outcome := if failed then Escaped else Completed;
      }
    }
  }

  // ----- recovery

  /**
   `resume_pending`: one thread per entry of the ledger file, in order, each dispatching its entry
   as it stands, until a thread cannot be started.
   */
  method ResumePending(file: LedgerFile<Request>, threadsAvailable: nat) returns (resumed: nat, started: seq<Request>)
    ensures resumed == |started| && started <= Waiting(file)
    ensures |Waiting(file)| <= threadsAvailable ==> started == Waiting(file)
    ensures |Waiting(file)| > threadsAvailable ==> resumed == threadsAvailable
  {
    resumed, started := 0, [];
    var pending := Entries(file);
    for i := 0 to |pending|
      invariant resumed == i <= threadsAvailable && started == pending[..i]
    {
      if resumed == threadsAvailable {
        return;
      }
      started := started + [pending[i]];
      resumed := resumed + 1;
    }
  }

  lemma {:induction false} GoneFromLedger(file: LedgerFile<Request>, request: Request, fault: WriteFault)
    requires multiset(Entries(file))[request] == 1
    ensures request in Entries(Unregistered(file, request, fault)) <==> fault.OpenFails?
  {
    assert request in Entries(file);
    var rest := RemoveFirst(Entries(file), request).value;
    assert multiset(rest)[request] + multiset{request}[request] == multiset(Entries(file))[request];
  }

  /** Where the entry of a request comes from: it was there once, or it is entered now. */
  predicate Entered(file: LedgerFile<Request>, request: Request, found: nat, faults: Faults) {
    if request.port == 0 then faults.registering.NoFault? && request.(port := found) !in Entries(file)
    else multiset(Entries(file))[request] == 1
  }

  function Entry(request: Request, found: nat): Request {
    if request.port == 0 then request.(port := found) else request
  }

  /**
   A restart takes an interrupted upload up again, whether it was fresh or recovered, if and only if
   the call before neither completed nor gave up, that is, if an exception escaped from it, or if its
   entry could not be removed.
   */
  lemma RestartTakesUp(c: Config, p: Port, disk: Option<Bytes>, file: LedgerFile<Request>, request: Request,
                       found: nat, faults: Faults)
    requires Entered(file, request, found, faults)
    ensures var outcome := ReceiverOutcome(c, p, disk);
            var ended := outcome.Completed? || outcome.GaveUp?;
            var left := Entries(LedgerAfter(file, request, found, faults, ended));
            (exists w :: w in LedgerThreads.Recovered(left) && w.request == Entry(request, found))
            <==> ReceiverEscapes(c, p, disk) || faults.unregistering.OpenFails?
  {
    var outcome := ReceiverOutcome(c, p, disk);
    var ended := outcome.Completed? || outcome.GaveUp?;
    ReceiverEscapesIff(c, p, disk);
    StaysInLedger(file, request, found, faults, ended);
    EntriesAreTakenUp(Entries(LedgerAfter(file, request, found, faults, ended)), Entry(request, found));
  }

  /** And an interrupted download, if its shard was missing, an exception escaped, or its entry could not be removed. */
  lemma RestartTakesUpDownload(c: Config, p: Port, disk: Option<Bytes>, file: LedgerFile<Request>, request: Request,
                               found: nat, faults: Faults)
    requires Entered(file, request, found, faults)
    ensures var outcome := if disk.None? then Missing else SenderOutcome(c, p, request.port == 0);
            var ended := outcome.Completed? || outcome.GaveUp?;
            var left := Entries(LedgerAfter(file, request, found, faults, ended));
            (exists w :: w in LedgerThreads.Recovered(left) && w.request == Entry(request, found))
            <==> disk.None? || SenderEscapes(c, p, request.port == 0) || faults.unregistering.OpenFails?
  {
    var outcome := if disk.None? then Missing else SenderOutcome(c, p, request.port == 0);
    var ended := outcome.Completed? || outcome.GaveUp?;
    SenderEscapesIff(c, p, request.port == 0);
    StaysInLedger(file, request, found, faults, ended);
    EntriesAreTakenUp(Entries(LedgerAfter(file, request, found, faults, ended)), Entry(request, found));
  }

  lemma StaysInLedger(file: LedgerFile<Request>, request: Request, found: nat, faults: Faults, ended: bool)
    requires Entered(file, request, found, faults)
    ensures Entry(request, found) in Entries(LedgerAfter(file, request, found, faults, ended))
            <==> !ended || faults.unregistering.OpenFails?
  {
    var task := Entry(request, found);
    var entered := if request.port == 0 then Registered(file, task, NoFault) else file;
    assert multiset(Entries(entered))[task] == 1;
    GoneFromLedger(entered, task, faults.unregistering);
    assert task in multiset(Entries(entered));
  }

  lemma EntriesAreTakenUp(entries: seq<Request>, request: Request)
    ensures (exists w :: w in LedgerThreads.Recovered(entries) && w.request == request) <==> request in entries
  {
    var workers := LedgerThreads.Recovered(entries);
    if request in entries {
      var i :| 0 <= i < |entries| && entries[i] == request;
      assert workers[i] in workers && workers[i].request == request;
    }
  }

  /**
   An upload of one byte whose client takes the start frame and vanishes: the receive and then the
   new start frame time out, and the request stays in the ledger.
   */
  method StrandedRequest() returns (request: Request, left: LedgerFile<Request>)
    ensures left == Readable([request]) && request.port != 0
  {
    TimeoutEscapes();
    request := Request(Upload, "shard", 50100);
    var ledger := new ConnectionLedger(Readable([request]));
    var config := new NodeConfig(true, false, "10.0.0.1", 50000);
    var backend := new Backend();
    var router := new Router("10.0.0.1");
    assert Startable(ONE_BYTE, Initial(None));
    var session := new ZmqSessionManager(ONE_BYTE, None, VANISHES + [Go, Break(OtherError)]);
    var disk := new ShardFile(None);
    var receiver := new FragmentReceiver(config, ledger, backend, true, router, false, session, disk);
    var outcome := receiver.ReceiveData(request, NoFault);
    left := ledger.file;
  }

  // ----- from end to end

  /**
   Whatever faults an upload went through, once it is reported every download of the stored shard
   that reaches its END, through whatever faults, delivers the source.
   */
  lemma RoundTrip(up: Config, upStart: State, upRun: seq<Action>, stored: State,
                  down: Config, downStart: State, downRun: seq<Action>, delivered: State)
    requires up.role.NodeReceives? && Startable(up, upStart) && Exec(up, upStart, upRun) == Some(stored)
             && stored.tally.reported
    requires down.role.NodeSends? && Some(down.source) == stored.receiver.file
    requires Startable(down, downStart) && Exec(down, downStart, downRun) == Some(delivered)
             && delivered.receiver.pc.RDone?
    ensures delivered.receiver.file == Some(up.source)
  {
    CompletionSoundness(up, upStart, upRun, stored);
    DeliverySoundness(down, downStart, downRun, delivered);
  }

  /** Through the code: an audit after a completed upload answers with the digest of source and salt. */
  method UploadThenAudit(d: RequestDispatcher, upload: Request, audit: Request, salt: Bytes, found: nat, faults: Faults,
                         connection: Connection) returns (uploaded: Outcome, audited: Outcome)
    requires d.Ready() && upload.kind.Upload? && audit.kind.Audit? && connection.present && !connection.fails
    modifies d.ledger, connection`replies, d.disk, d.receiver.session, d.sender.session
    modifies d.receiver.backend`completed, d.receiver.router, d.sender.router
    ensures d.Ready()
    ensures uploaded.Completed? ==>
              && audited.Completed?
              && connection.replies == old(connection.replies) + (if upload.port == 0 then [PortReply(found)] else [])
                                       + [DigestReply(d.verifier.digest(d.receiver.session.cfg.source + salt))]
  {
    uploaded := d.Dispatch(upload, [], found, faults, connection);
    audited := d.Dispatch(audit, salt, found, faults, connection);
  }

  /** And a download after a completed upload has delivered the source to every client that has taken END. */
  method UploadThenDownload(d: RequestDispatcher, upload: Request, download: Request, found: nat, faults: Faults,
                            connection: Connection) returns (uploaded: Outcome, downloaded: Outcome)
    requires d.Ready() && upload.kind.Upload? && download.kind.Download?
    requires d.sender.session.cfg.source == d.receiver.session.cfg.source
    modifies d.ledger, connection`replies, d.disk, d.receiver.session, d.sender.session
    modifies d.receiver.backend`completed, d.receiver.router, d.sender.router
    ensures d.Ready()
    ensures uploaded.Completed? && d.sender.session.client.Receiving? && d.sender.session.client.receiver.pc.RDone? ==>
              d.sender.session.client.receiver.file == Some(d.receiver.session.cfg.source)
    ensures uploaded.Completed? && downloaded.Completed? ==> d.sender.AllSent()
  {
    uploaded := d.Dispatch(upload, [], found, faults, connection);
    downloaded := Missing;
    if uploaded.Completed? {
      downloaded := d.Dispatch(download, [], found, faults, connection);
      ghost var session := d.sender.session;
      if session.spec.receiver.pc.RDone? {
        DeliverySoundness(session.cfg, session.initial, session.taken, session.spec);
      }
    }
  }
}
