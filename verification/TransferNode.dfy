/**
 `FragmentReceiver`, `FragmentSender` and `ZmqSessionManager` of `chunk_transfer.py`, as classes.

 The methods follow the source statement by statement, against an oracle that decides what the
 client does meanwhile and which socket and disk operations raise.  A ghost record of protocol
 actions is kept next to the code: every method proves that the statements it executes are steps
 of `TransferProtocol`, so everything proved there about runs holds of the code.
 */
module TransferNode {
  import opened Wrappers
  import opened TransferProtocol
  import opened TransferSafety
  import opened TransferAccounting
  import opened TransferOracle
  import opened TransferEscapes
  import opened ConnectionLedgers
  import opened NodeParts

  datatype Reconnect = Connected | NotConnected | Raised

  function ClientOf(c: Config, s: State): Client {
    if c.role.NodeReceives? then Sending(s.sender) else Receiving(s.receiver)
  }

  /** The node's half of the state is untouched. */
  predicate NodeKept(c: Config, s: State, s': State) {
    && s'.call == s.call && s'.fromZero == s.fromZero
    && s'.tally.reported == s.tally.reported && s'.tally.sessions == s.tally.sessions
    && (if c.role.NodeReceives? then s'.receiver == s.receiver else s'.sender == s.sender)
  }

  /** The step that the environment takes shows in the protocol as it shows at the port. */
  ghost predicate Refined(c: Config, s: State, a: Action) {
    && Next(c, s, a).Some? && EnvStep(c, s.fromZero, ClientOf(c, s), s.link, a).Some?
    && var (client, link), s' := EnvStep(c, s.fromZero, ClientOf(c, s), s.link, a).value, Next(c, s, a).value;
       ClientOf(c, s') == client && s'.link == link && NodeKept(c, s, s')
  }

  lemma SendingClientRefines(c: Config, s: State, a: Action)
    requires c.role.NodeReceives? && SenderOwns(c, a) && ClientStep(c, s.fromZero, ClientOf(c, s), s.link, a).Some?
    ensures Refined(c, s, a)
  {
    assert Account(s, a).reported == s.tally.reported && Account(s, a).sessions == s.tally.sessions;
  }

  lemma ReceivingClientRefines(c: Config, s: State, a: Action)
    requires c.role.NodeSends? && ReceiverOwns(c, a) && ClientStep(c, s.fromZero, ClientOf(c, s), s.link, a).Some?
    ensures Refined(c, s, a)
  {
    assert Account(s, a).reported == s.tally.reported && Account(s, a).sessions == s.tally.sessions;
  }

  lemma WorldRefines(c: Config, s: State, a: Action)
    requires a.PeerJoin? || a.PeerCrash? || a.DropDown? || a.DropUp?
    requires EnvStep(c, s.fromZero, ClientOf(c, s), s.link, a).Some?
    ensures Refined(c, s, a)
  {
    assert Next(c, s, a) == ControlStep(c, s, a);
  }

  /** Each environment step is a step of the protocol that leaves the node alone. */
  lemma EnvRefines(c: Config, s: State, a: Action)
    requires EnvStep(c, s.fromZero, ClientOf(c, s), s.link, a).Some?
    ensures Refined(c, s, a)
  {
    if a.PeerJoin? || a.PeerCrash? || a.DropDown? || a.DropUp? {
      WorldRefines(c, s, a);
    } else if c.role.NodeReceives? {
      SendingClientRefines(c, s, a);
    } else {
      ReceivingClientRefines(c, s, a);
    }
  }

  /** `run` leads from `s` to `s'`; the trigger keeps the verifier from unfolding a run that nobody asks about. */
  ghost predicate Ran(c: Config, s: State, run: seq<Action>, s': State) {
    forall r {:trigger Exec(c, s, r)} :: r == run ==> Exec(c, s, r) == Some(s')
  }

  lemma RanOn(c: Config, initial: State, run: seq<Action>, s: State, a: Action, s': State)
    requires Ran(c, initial, run, s) && Next(c, s, a) == Some(s')
    ensures Ran(c, initial, run + [a], s')
  {
    assert Exec(c, initial, run) == Some(s);
    ExecSnoc(c, initial, run, a);
  }

  /** What a conforming client sends to a receiving node. */
  lemma OnlyDataAndEnd(c: Config, initial: State, run: seq<Action>, s: State)
    requires Startable(c, initial) && Ran(c, initial, run, s) && c.role.NodeReceives? && s.link.down != []
    ensures s.link.down[0].End? || (s.link.down[0].Data? && s.link.down[0].payload != [])
  {
    assert Exec(c, initial, run) == Some(s);
    StartableInv(c, initial);
    RunKeepsInv(c, initial, run, s);
    assert Behind(s.link.down) == Some(s.link.down[0]);
  }

  lemma BindRefines(c: Config, s: State, a: Action)
    requires a.Begin? || a.Reset?
    requires Next(c, s, a).Some?
    ensures var s' := Next(c, s, a).value;
            && ClientOf(c, s') == Unjoined(ClientOf(c, s)) && s'.link == Link([], [])
            && s'.tally.reported == s.tally.reported && s'.tally.sessions == s.tally.sessions + 1
            && s'.call == Active(if a.Begin? then 1 else s.call.reconnects - 1)
            && s'.fromZero == (if a.Reset? then false else if c.role.NodeReceives? then s.receiver.file.None?
                 else a.isNew)
            && (c.role.NodeReceives? ==> s'.receiver.pc.RStart? && s'.receiver.file == s.receiver.file)
            && (c.role.NodeSends? ==> s'.sender == Sender(SStart, 0))
  {
    assert Next(c, s, a) == ControlStep(c, s, a);
  }

  /** A transfer port, the network behind it, and the client at the other end. */
  class ZmqSessionManager {
    const cfg: Config
    ghost const initial: State
    var client: Client
    var link: Link
    var fromZero: bool
    var schedule: seq<Move>
    var bound: bool
    var attempts: nat            // calls of open and reset
    ghost var spec: State        // where the protocol stands
    ghost var taken: seq<Action> // and the run that led there
    ghost var raised: seq<Raise> // every exception an operation has raised

    ghost predicate Traced()
      reads this`spec, this`taken
    {
      Startable(cfg, initial) && Ran(cfg, initial, taken, spec)
    }

    ghost predicate Agrees()
      reads this
    {
      client == ClientOf(cfg, spec) && fromZero == spec.fromZero
    }

    ghost predicate Synced()
      reads this
    {
      Traced() && Agrees() && link == spec.link
    }

    /** What the oracle decides about, and by. */
    function Now(): Port
      reads this`client, this`link, this`fromZero, this`schedule
    {
      Port(client, link, fromZero, schedule)
    }

    constructor (cfg: Config, file: Option<Bytes>, schedule: seq<Move>)
      requires Startable(cfg, Initial(file))
      ensures Synced() && this.cfg == cfg && initial == spec == Initial(file) && taken == []
      ensures Now() == Port(ClientOf(cfg, spec), spec.link, spec.fromZero, schedule)
    {
      this.cfg := cfg;
      var s := Initial(file);
      client, link, fromZero := ClientOf(cfg, s), s.link, s.fromZero;
      this.schedule := schedule;
      bound, attempts := false, 0;
      initial, spec, taken, raised := s, s, [], [];
    }

    /** The run took action `a` after its first `before` actions. */
    ghost predicate TookSince(before: nat, a: Action)
      reads this
    {
      exists i :: before <= i < |taken| && taken[i] == a
    }

    lemma StillTook(before: nat, a: Action, earlier: seq<Action>)
      requires earlier <= taken && exists i :: before <= i < |earlier| && earlier[i] == a
      ensures TookSince(before, a)
    {
      var i :| before <= i < |earlier| && earlier[i] == a;
      assert taken[i] == a;
    }

    /** Record that the last statements were protocol step `a`. */
    ghost method Commit(a: Action)
      requires Traced() && Next(cfg, spec, a).Some?
      requires var s' := Next(cfg, spec, a).value;
               s'.link == link && ClientOf(cfg, s') == client && s'.fromZero == fromZero
      modifies this`spec, this`taken
      ensures Synced() && taken == old(taken) + [a] && Some(spec) == Next(cfg, old(spec), a)
    {
      var after := Next(cfg, spec, a).value;
      RanOn(cfg, initial, taken, spec, a, after);
      spec, taken := after, taken + [a];
    }

    /** The same for a step of a receiving node. */
    ghost method CommitReceiver(a: Action, r: Receiver)
      requires Traced() && Agrees() && cfg.role.NodeReceives? && ReceiverOwns(cfg, a)
      requires ReceiverStep(cfg, fromZero, spec.receiver, spec.link, a) == Some((r, link))
      modifies this`spec, this`taken
      ensures Synced() && old(taken) <= taken && spec.receiver == r && spec.call == old(spec.call)
      ensures spec.tally.reported == old(spec.tally.reported)
    {
      Commit(a);
    }

    /** And for one of a sending node. */
    ghost method CommitSender(a: Action, s: Sender)
      requires Traced() && Agrees() && cfg.role.NodeSends? && SenderOwns(cfg, a)
      requires SenderStep(cfg, fromZero, spec.sender, spec.link, a) == Some((s, link))
      modifies this`spec, this`taken
      ensures Synced() && taken == old(taken) + [a] && spec.sender == s && spec.call == old(spec.call)
      ensures spec.tally.sessions == old(spec.tally.sessions)
    {
      Commit(a);
    }

    /** The environment's moves due before the node's next operation. */
    method Interleave()
      requires Synced()
      modifies this`client, this`link, this`schedule, this`spec, this`taken
      ensures Synced() && NodeKept(cfg, old(spec), spec) && old(taken) <= taken
      ensures Now() == Settled(cfg, old(Now()))
    {
      while schedule != [] && schedule[0].Env?
        invariant Synced() && NodeKept(cfg, old(spec), spec) && old(taken) <= taken
        invariant Settled(cfg, Now()) == Settled(cfg, old(Now()))
        decreases |schedule|
      {
        var a := schedule[0].action;
        match EnvStep(cfg, fromZero, client, link, a) {
          case None =>
            schedule := schedule[1..];
          case Some((client', link')) =>
            EnvRefines(cfg, spec, a);
            schedule, client, link := schedule[1..], client', link';
            Commit(a);
        }
      }
    }

    /** Whether the node's next operation raises. */
    method Fate() returns (fault: Option<Fault>)
      modifies this`schedule
      ensures fault == Verdict(old(schedule)) && schedule == Rest(old(schedule))
    {
      if schedule == [] {
        fault := Some(OtherError);
      } else {
        fault := if schedule[0].Break? then Some(schedule[0].fault) else None;
        schedule := schedule[1..];
      }
    }

    /** `open` and `reset`: bind a fresh socket; what was in flight is gone, the client has to join again. */
    method Bind(zero: bool) returns (fault: Option<Fault>)
      requires Synced()
      modifies this
      ensures Traced() && NodeKept(cfg, old(spec), spec) && old(taken) <= taken && attempts == old(attempts) + 1
      ensures raised == old(raised) + Noted(Binds, fault)
      ensures Turn(fault, Now()) == Bound(cfg, old(Now()), zero)
      ensures if fault.Some? then Synced()
              else bound && fromZero == zero && link == Link([], []) && client == Unjoined(ClientOf(cfg, spec))
    {
      Interleave();
      attempts := attempts + 1;
      fault := Fate();
      raised := raised + Noted(Binds, fault);
      if fault.None? {
        link, fromZero, bound := Link([], []), zero, true;
        match client {
          case Sending(_) => client := Sending(Sender(SOff, 0));
          case Receiving(r) => client := Receiving(r.(pc := ROff, synced := |Content(r)|));
        }
      }
    }

    method Close()
      modifies this`bound
      ensures !bound
    {
      bound := false;
    }

    method Send(frame: Frame) returns (fault: Option<Fault>)
      requires Synced()
      modifies this`client, this`link, this`schedule, this`spec, this`taken, this`raised
      ensures Traced() && Agrees() && NodeKept(cfg, old(spec), spec) && old(taken) <= taken
      ensures raised == old(raised) + Noted(Sends(frame), fault)
      ensures Turn(fault, Now()) == Sent(cfg, old(Now()), frame)
      ensures link == if fault.Some? then spec.link else Put(cfg, spec.link, frame)
    {
      Interleave();
      fault := Fate();
      raised := raised + Noted(Sends(frame), fault);
      if fault.None? {
        link := if cfg.role.NodeReceives? then link.(up := link.up + [frame]) else link.(down := link.down + [frame]);
      }
    }

    /** What the node waits for. */
    ghost function Awaited(): Kind
      reads this`spec
    {
      if cfg.role.NodeSends? && spec.sender.pc.SResume? then Negotiates else Awaits
    }

    /** Blocks until a frame is there; with nothing to deliver the receive times out. */
    method Recv() returns (raw: Result<Frame, Fault>)
      requires Synced()
      modifies this`client, this`link, this`schedule, this`spec, this`taken, this`raised
      ensures Traced() && Agrees() && NodeKept(cfg, old(spec), spec) && old(taken) <= taken
      ensures raised == old(raised) + (if raw.Err? then [Raise(Awaited(), raw.error)] else [])
      ensures Received(raw, Now()) == Got(cfg, old(Now()))
      ensures match raw
              case Err(_) => link == spec.link
              case Ok(frame) =>
                Inbound(cfg, spec.link) != [] && frame == Inbound(cfg, spec.link)[0] && link == Taken(cfg, spec.link)
    {
      Interleave();
      var fault := Fate();
      var inbound := if cfg.role.NodeReceives? then link.down else link.up;
      if fault.Some? {
        raw := Err(fault.value);
      } else if inbound == [] {
        raw := Err(OtherError);
      } else {
        raw := Ok(inbound[0]);
        link := if cfg.role.NodeReceives? then link.(down := inbound[1..]) else link.(up := inbound[1..]);
      }
      raised := raised + (if raw.Err? then [Raise(Awaited(), raw.error)] else []);
    }

    /** A call of the file system, which takes its time and may raise. */
    method Touch() returns (fault: Option<Fault>)
      requires Synced()
      modifies this`client, this`link, this`schedule, this`spec, this`taken, this`raised
      ensures Synced() && NodeKept(cfg, old(spec), spec) && old(taken) <= taken
      ensures raised == old(raised) + Noted(TouchesFile, fault)
      ensures Turn(fault, Now()) == Touched(cfg, old(Now()))
    {
      Interleave();
      fault := Fate();
      raised := raised + Noted(TouchesFile, fault);
    }

    /** How many of `size` bytes a disk write gets onto the disk. */
    method DiskFate(size: nat) returns (written: nat)
      modifies this`schedule, this`raised
      ensures raised == old(raised) + (if written < size then [Raise(WritesFile, OtherError)] else [])
      ensures DiskWrite(written, Now()) == Wrote(old(Now()), size)
    {
      written := size;
      if schedule != [] && schedule[0].Short? {
        written := if schedule[0].written <= size then schedule[0].written else size;
        schedule := schedule[1..];
      }
      raised := raised + (if written < size then [Raise(WritesFile, OtherError)] else []);
    }
  }

  /** The shard's file in the data directory. */
  class ShardFile {
    var file: Option<Bytes>

    constructor (file: Option<Bytes>)
      ensures this.file == file
    {
      this.file := file;
    }

    method Create()
      modifies this
      ensures file == Some([])
    {
      file := Some([]);
    }

    method Append(data: Bytes)
      requires file.Some?
      modifies this
      ensures file == Some(old(file).value + data)
    {
      file := Some(file.value + data);
    }
  }

  /** `forward_port(disable=True)` at the end of a transfer, when the node manages a router. */
  method CloseRouterPort(config: NodeConfig, router: Router, hasRouter: bool, port: nat)
    modifies router
    ensures router.forwards == if !config.local && !config.hosted && hasRouter then old(router.forwards) - {port}
                               else old(router.forwards)
  {
    if !config.local && !config.hosted && hasRouter {
      router.ForwardPort(port, None, true);
    }
  }

  // ----- the receiving node

  class FragmentReceiver {
    const config: NodeConfig
    const ledger: ConnectionLedger<Request>
    const backend: Backend
    const hasBackend: bool
    const router: Router
    const hasRouter: bool
    const session: ZmqSessionManager
    const disk: ShardFile

    constructor (config: NodeConfig, ledger: ConnectionLedger<Request>, backend: Backend, hasBackend: bool,
                 router: Router, hasRouter: bool, session: ZmqSessionManager, disk: ShardFile)
      ensures this.config == config && this.ledger == ledger && this.backend == backend && this.hasBackend == hasBackend
      ensures this.router == router && this.hasRouter == hasRouter && this.session == session && this.disk == disk
    {
      this.config, this.ledger, this.backend, this.hasBackend := config, ledger, backend, hasBackend;
      this.router, this.hasRouter, this.session, this.disk := router, hasRouter, session, disk;
    }

    /** The code and the protocol agree, and the code is where the protocol says it is. */
    ghost predicate At(pc: ReceiverPc)
      reads session, disk
    {
      && session.cfg.role.NodeReceives? && session.Synced()
      && disk.file == session.spec.receiver.file && session.spec.receiver.pc == pc
    }

    /** Everything a call leaves alone while it works on its sessions. */
    twostate predicate Onward()
      reads session, disk
    {
      && old(session.taken) <= session.taken
      && session.spec.tally.reported == old(session.spec.tally.reported)
      && (old(disk.file).Some? ==> disk.file.Some? && old(disk.file).value <= disk.file.value)
    }

    /** Lines 199-200: take a frame off the socket. */
    method TakeFrame() returns (raw: Result<Frame, Fault>)
      requires At(RRecv)
      modifies session
      ensures Onward() && session.spec.call == old(session.spec.call) && session.attempts == old(session.attempts)
      ensures session.raised == old(session.raised) + (if raw.Err? then [Raise(Awaits, raw.error)] else [])
      ensures Received(raw, session.Now()) == Got(session.cfg, old(session.Now()))
      ensures match raw
              case Err(_) => At(ROff)
              case Ok(Data(data)) => At(RAck(data))
              case Ok(End) => At(RDone)
              case Ok(_) => At(RRecv)
      ensures raw.Ok? ==> raw.value.End? || (raw.value.Data? && raw.value.payload != [])
    {
      raw := session.Recv();
      if session.spec.link.down != [] {
        OnlyDataAndEnd(session.cfg, session.initial, session.taken, session.spec);
      }
      ghost var r := session.spec.receiver;
      ghost var after := match raw
        case Err(_) => r.(pc := ROff, synced := |Content(r)|)
        case Ok(Data(data)) => r.(pc := RAck(data))
        case Ok(End) => r.(pc := RDone)
        case Ok(_) => r;
      session.CommitReceiver(if raw.Err? then ReceiverFail else Action.TakeFrame, after);
    }

    /** Lines 203-204: acknowledge a chunk, before it is written. */
    method Acknowledge(data: Bytes) returns (raised: Option<Fault>)
      requires At(RAck(data))
      modifies session
      ensures Onward() && session.spec.call == old(session.spec.call) && session.attempts == old(session.attempts)
      ensures session.raised == old(session.raised) + Noted(Sends(Ack), raised)
      ensures Turn(raised, session.Now()) == Sent(session.cfg, old(session.Now()), Ack)
      ensures if raised.None? then At(RWrite(data)) else At(ROff)
    {
      raised := session.Send(Ack);
      ghost var r := session.spec.receiver;
      if raised.None? {
        session.CommitReceiver(SendAck, r.(pc := RWrite(data)));
      } else {
        session.CommitReceiver(ReceiverFail, r.(pc := ROff, synced := |Content(r)|));
      }
    }

    /** Line 205: append a chunk to the file; a failing write may leave part of it there. */
    method Store(data: Bytes) returns (written: nat)
      requires At(RWrite(data)) && disk.file.Some?
      modifies session, disk
      ensures Onward() && session.spec.call == old(session.spec.call) && session.attempts == old(session.attempts)
      ensures session.raised == old(session.raised) + (if written < |data| then [Raise(WritesFile, OtherError)] else [])
      ensures DiskWrite(written, session.Now()) == Wrote(old(session.Now()), |data|)
      ensures disk.file == Some(old(disk.file).value + data[..written])
      ensures if written == |data| then At(RRecv) else At(ROff)
    {
      ghost var r := session.spec.receiver;
      written := session.DiskFate(|data|);
      disk.Append(data[..written]);
      assert session.Synced() && session.spec.receiver == r;
      if written == |data| {
        assert data[..written] == data;
        session.CommitReceiver(WriteAll, r.(pc := RRecv, file := disk.file));
      } else {
        session.CommitReceiver(WriteSome(written), Receiver(ROff, disk.file, |Content(r)| + written));
      }
    }

    /** Lines 203-205. */
    method StoreChunk(data: Bytes) returns (ok: bool)
      requires At(RAck(data)) && disk.file.Some?
      modifies session, disk
      ensures Onward() && session.spec.call == old(session.spec.call) && session.attempts == old(session.attempts)
      ensures var r := StoresChunk(session.cfg, old(session.Now()), old(disk.file).value, data);
              (ok <==> r.fault.None?) && session.Now() == r.port && disk.file == r.file
      ensures if ok then session.raised == old(session.raised) else StreamRaised(old(session.raised), session.raised)
      ensures if ok then At(RRecv) else At(ROff)
    {
      var raised := Acknowledge(data);
      if raised.Some? {
        return false;
      }
      var written := Store(data);
      ok := written == |data|;
    }

    /**
     `_receive_chunks`: the loop ends with END, or with the session broken, as the oracle decides.  The
     client sends at most one frame for each byte that is missing, and END.
     */
    method ReceiveChunks() returns (completed: bool)
      requires At(RRecv) && disk.file.Some?
      modifies session, disk
      ensures if completed then At(RDone) else At(ROff)
      ensures Onward() && session.spec.call == old(session.spec.call) && session.attempts == old(session.attempts)
      ensures var r := Receives(session.cfg, old(session.Now()), old(disk.file).value);
              (completed <==> r.fault.None?) && session.Now() == r.port && disk.file == r.file
      ensures if completed then session.raised == old(session.raised)
              else StreamRaised(old(session.raised), session.raised)
      ensures Spends(old(session.Now()), 3 * |session.cfg.source| + 3, session.Now())
    {
      ghost var p0 := session.Now();
      ghost var used: nat := 0;
      while true
        invariant At(RRecv) && disk.file.Some? && used <= 3 * |disk.file.value|
        invariant Onward() && session.spec.call == old(session.spec.call) && session.attempts == old(session.attempts)
        invariant Receives(session.cfg, session.Now(), disk.file.value)
                  == Receives(session.cfg, old(session.Now()), old(disk.file).value)
        invariant session.raised == old(session.raised)
        invariant Spends(p0, used, session.Now())
        decreases |session.schedule|
      {
        FitsSource();
        var more;
        more, completed := ReceiveFrame(p0, used);
        if !more { return; }
        used := used + 3;
      }
    }

    /** One turn of the loop. */
    method ReceiveFrame(ghost p0: Port, ghost used: nat) returns (more: bool, completed: bool)
      requires At(RRecv) && disk.file.Some? && Spends(p0, used, session.Now())
      modifies session, disk
      ensures Onward() && session.spec.call == old(session.spec.call) && session.attempts == old(session.attempts)
      ensures if more then At(RRecv) else if completed then At(RDone) else At(ROff)
      ensures disk.file.Some? && (more ==> |disk.file.value| > old(|disk.file.value|))
      ensures more ==> |session.schedule| < old(|session.schedule|)
      ensures var r := Receives(session.cfg, old(session.Now()), old(disk.file).value);
              if more then r == Receives(session.cfg, session.Now(), disk.file.value)
              else (completed <==> r.fault.None?) && r.port == session.Now() && r.file == disk.file
      ensures if more || completed then session.raised == old(session.raised)
              else StreamRaised(old(session.raised), session.raised)
      ensures Spends(p0, used + 3, session.Now())
    {
      ghost var p := session.Now();
      var raw := TakeFrame();
      ghost var q := session.Now();
      GotSpends(session.cfg, p);
      match raw {
        case Err(_) =>
          more, completed := false, false;
        case Ok(Data(data)) =>
          StoreSpends(session.cfg, q, disk.file.value, data);
          more := StoreChunk(data);
          completed := false;
        case Ok(End) =>
          more, completed := false, true;
        case Ok(_) =>
          more, completed := true, false;
      }
      SpendsMore(p, 1, q, 2, session.Now(), 3);
      SpendsMore(p0, used, p, 3, session.Now(), used + 3);
    }

    lemma FitsSource()
      requires At(session.spec.receiver.pc)
      ensures disk.file.Some? ==> |disk.file.value| <= |session.cfg.source|
    {
      PrefixSafety(session.cfg, session.initial, session.taken, session.spec);
    }

    /** Lines 256 and 217: bind the port for the first session of a call, or for another one. */
    method OpenSession(again: bool) returns (fault: Option<Fault>)
      requires At(ROff)
      requires if again then session.spec.call == Active(1) && disk.file.Some? else session.spec.call.Idle?
      modifies session
      ensures Onward() && session.attempts == old(session.attempts) + 1
      ensures session.raised == old(session.raised) + Noted(Binds, fault)
      ensures Turn(fault, session.Now()) == Bound(session.cfg, old(session.Now()), disk.file.None?)
      ensures if fault.Some? then At(ROff) && session.spec.call == old(session.spec.call)
              else At(RStart) && session.spec.call == Active(if again then 0 else 1)
                   && session.fromZero == disk.file.None?
    {
      fault := session.Bind(!again && disk.file.None?);
      if fault.None? {
        ghost var a := if again then Reset else Begin(false);
        BindRefines(session.cfg, session.spec, a);
        session.Commit(a);
      }
    }

    /** `_emit_start_signal`. */
    method EmitStartSignal() returns (fault: Option<Fault>)
      requires At(RStart)
      modifies session
      ensures Onward() && session.attempts == old(session.attempts)
      ensures session.spec.call == old(session.spec.call) && session.fromZero == old(session.fromZero)
      ensures if fault.None? then session.raised == old(session.raised)
              else OpeningRaised(old(session.raised), fault.value, session.raised)
      ensures Turn(fault, session.Now()) == Sent(session.cfg, old(session.Now()), Frame.Start)
      ensures if fault.None? then At(ROpen) else At(ROff)
    {
      fault := session.Send(Frame.Start);
      ghost var r := session.spec.receiver;
      if fault.None? {
        session.CommitReceiver(EmitStart, r.(pc := ROpen));
      } else {
        session.CommitReceiver(ReceiverFail, r.(pc := ROff, synced := |Content(r)|));
      }
    }

    /** Lines 256-258 and 217-223: bind, then announce the start. */
    method Announce(again: bool) returns (fault: Option<Fault>)
      requires At(ROff)
      requires if again then session.spec.call == Active(1) && disk.file.Some? else session.spec.call.Idle?
      modifies session
      ensures Onward() && session.attempts == old(session.attempts) + 1
      ensures if fault.None? then session.raised == old(session.raised)
              else OpeningRaised(old(session.raised), fault.value, session.raised)
      ensures Turn(fault, session.Now()) == Announced(session.cfg, old(session.Now()), disk.file.None?)
      ensures fault.None? ==>
                At(ROpen) && session.fromZero == disk.file.None? && session.spec.call == Active(if again then 0 else 1)
      ensures fault.Some? ==> At(ROff) && (again ==> session.spec.call.Active?)
    {
      fault := OpenSession(again);
      if fault.None? {
        fault := EmitStartSignal();
      }
    }

    /** `_send_resume_offset`, for the length of the file. */
    method SendResumeOffset() returns (fault: Option<Fault>)
      requires At(ROpen) && !session.fromZero && disk.file.Some?
      modifies session
      ensures Onward() && session.spec.call == old(session.spec.call) && session.attempts == old(session.attempts)
      ensures if fault.None? then session.raised == old(session.raised)
              else OpeningRaised(old(session.raised), fault.value, session.raised)
      ensures Turn(fault, session.Now()) == Sent(session.cfg, old(session.Now()), Resume(|disk.file.value|))
      ensures if fault.None? then At(RRecv) else At(ROff)
    {
      fault := session.Send(Resume(|disk.file.value|));
      ghost var r := session.spec.receiver;
      if fault.None? {
        session.CommitReceiver(OpenFile, Receiver(RRecv, Some(Content(r)), |Content(r)|));
      } else {
        session.CommitReceiver(ReceiverFail, r.(pc := ROff, synced := |Content(r)|));
      }
    }

    /** `os.path.getsize`, and `open` in append mode; an exception ends the session. */
    method TouchFile() returns (fault: Option<Fault>)
      requires At(ROpen) || At(RRecv)
      modifies session
      ensures Onward() && session.spec.call == old(session.spec.call) && session.attempts == old(session.attempts)
      ensures session.fromZero == old(session.fromZero)
      ensures if fault.None? then session.raised == old(session.raised)
              else OpeningRaised(old(session.raised), fault.value, session.raised)
      ensures Turn(fault, session.Now()) == Touched(session.cfg, old(session.Now()))
      ensures if fault.None? then At(old(session.spec.receiver.pc)) else At(ROff)
    {
      fault := session.Touch();
      if fault.Some? {
        ghost var r := session.spec.receiver;
        session.CommitReceiver(ReceiverFail, r.(pc := ROff, synced := |Content(r)|));
      }
    }

    /** `open` in write mode. */
    method CreateFile() returns (fault: Option<Fault>)
      requires At(ROpen) && session.fromZero && disk.file.None?
      modifies session, disk
      ensures Onward() && session.spec.call == old(session.spec.call) && session.attempts == old(session.attempts)
      ensures if fault.None? then session.raised == old(session.raised)
              else OpeningRaised(old(session.raised), fault.value, session.raised)
      ensures Turn(fault, session.Now()) == Touched(session.cfg, old(session.Now()))
      ensures if fault.None? then At(RRecv) && disk.file == Some([]) else At(ROff) && disk.file.None?
    {
      fault := TouchFile();
      if fault.None? {
        disk.Create();
        session.CommitReceiver(OpenFile, Receiver(RRecv, Some([]), 0));
      }
    }

    /** `_open_shard_file`: tell the client how much is there, and append; or start an empty file. */
    method OpenShardFile() returns (fault: Option<Fault>)
      requires At(ROpen) && session.fromZero == disk.file.None?
      modifies session, disk
      ensures Onward() && session.spec.call == old(session.spec.call) && session.attempts == old(session.attempts)
      ensures if fault.None? then session.raised == old(session.raised)
              else OpeningRaised(old(session.raised), fault.value, session.raised)
      ensures Reception(fault, session.Now(), disk.file)
              == ShardOpens(session.cfg, old(session.Now()), old(disk.file))
      ensures if fault.None? then At(RRecv) else At(ROff)
      ensures old(disk.file).Some? ==> disk.file == old(disk.file)
    {
      if disk.file.None? {
        fault := CreateFile();
        return;
      }
      fault := TouchFile();
      if fault.None? {
        fault := SendResumeOffset();
        if fault.None? {
          fault := TouchFile();
        }
      }
    }

    /** Lines 256-259 and 217-235: bind, announce the start, open the file. */
    method StartSession(again: bool) returns (fault: Option<Fault>)
      requires At(ROff)
      requires if again then session.spec.call == Active(1) && disk.file.Some? else session.spec.call.Idle?
      modifies session, disk
      ensures Onward() && session.attempts == old(session.attempts) + 1
      ensures if fault.None? then session.raised == old(session.raised)
              else OpeningRaised(old(session.raised), fault.value, session.raised)
      ensures Reception(fault, session.Now(), disk.file)
              == ReceiverOpens(session.cfg, old(session.Now()), old(disk.file))
      ensures fault.None? ==> At(RRecv) && session.spec.call == Active(if again then 0 else 1)
      ensures fault.Some? ==> At(ROff) && (again ==> session.spec.call.Active?)
    {
      fault := Announce(again);
      if fault.None? {
        fault := OpenShardFile();
      }
    }

    /** `_attempt_reconnect`: only a socket error counts as a failed reconnect; anything else propagates. */
    method AttemptReconnect() returns (result: Reconnect)
      requires At(ROff) && session.spec.call == Active(1) && disk.file.Some?
      modifies session, disk
      ensures Onward() && session.attempts == old(session.attempts) + 1 && disk.file == old(disk.file)
      ensures session.spec.call.Active? && (if result.Connected? then At(RRecv) else At(ROff))
      ensures match result
              case Connected => session.raised == old(session.raised)
              case NotConnected => OpeningRaised(old(session.raised), SocketError, session.raised)
              case Raised => OpeningRaised(old(session.raised), OtherError, session.raised)
      ensures var r := ReceiverOpens(session.cfg, old(session.Now()), old(disk.file));
              && session.Now() == r.port
              && (result.Connected? <==> r.fault.None?)
              && (result.NotConnected? <==> r.fault == Some(SocketError))
              && (result.Raised? <==> r.fault == Some(OtherError))
    {
      var fault := StartSession(true);
      result := match fault case None => Connected case Some(SocketError) => NotConnected
          case Some(OtherError) => Raised;
    }

    /** Lines 273-274 and, when an exception escapes, the end of the thread: the call is over. */
    ghost method EndCall()
      requires At(ROff) || (At(RDone) && session.spec.call.Active?)
      modifies session`spec, session`taken
      ensures At(ROff) && session.spec.call.Idle? && old(session.taken) <= session.taken
      ensures old(session.spec.call).Active? ==>
                session.spec.tally.reported == (old(session.spec.tally.reported) || old(At(RDone)))
      ensures old(session.spec.call).Idle? ==> session.spec == old(session.spec)
    {
      if session.spec.call.Active? {
        session.Commit(Finish);
      }
    }

    /** Lines 268-271: receive once more after a reconnect. */
    method Retry() returns (outcome: Outcome)
      requires At(ROff) && disk.file.Some? && session.spec.call == Active(1)
      modifies session, disk
      ensures Onward() && session.spec.call.Active?
      ensures match outcome
              case Completed => session.raised == old(session.raised)
              case GaveUp => || OpeningRaised(old(session.raised), SocketError, session.raised)
                             || StreamRaised(old(session.raised), session.raised)
              case Escaped => OpeningRaised(old(session.raised), OtherError, session.raised)
              case Missing => false
      ensures outcome == ReceiverRetries(session.cfg, old(session.Now()), old(disk.file))
      ensures if outcome.Completed? then At(RDone) else At(ROff)
      ensures session.attempts == old(session.attempts) + 1
    {
      var reconnect := AttemptReconnect();
      match reconnect {
        case Raised =>
          return Escaped;
        case NotConnected =>
          return GaveUp;
        case Connected =>
          var completed := ReceiveChunks();
          return if completed then Completed else GaveUp;
      }
    }

    /** Lines 264-271: receive, and once more after a reconnect. */
    method Receive() returns (outcome: Outcome)
      requires At(RRecv) && disk.file.Some? && session.spec.call == Active(1)
      modifies session, disk
      ensures Onward() && session.spec.call.Active?
      ensures old(session.raised) <= session.raised
      ensures var news := session.raised[|old(session.raised)|..];
              UploadEnded(news, outcome) && (news != [] ==> !IsOpening(news[0]))
      ensures outcome == ReceiverSessions(session.cfg, old(session.Now()), old(disk.file).value)
      ensures Patient(old(session.Now()), 3 * |session.cfg.source| + 8) ==> !outcome.Escaped?
      ensures if outcome.Completed? then At(RDone) else At(ROff)
      ensures session.attempts <= old(session.attempts) + 1
      ensures outcome.GaveUp? ==> session.attempts == old(session.attempts) + 1
    {
      ghost var p := session.Now();
      var completed := ReceiveChunks();
      if completed {
        return Completed;
      }
      NoRetryEscapes(session.cfg, p, 3 * |session.cfg.source| + 3, session.Now(), disk.file);
      outcome := Retry();
    }

    /** The sessions of one call: what `receive_data` does up to closing the file. */
    method RunSessions() returns (outcome: Outcome)
      requires At(ROff) && session.spec.call.Idle?
      modifies session, disk
      ensures At(ROff) && session.spec.call.Idle? && old(session.taken) <= session.taken
      ensures outcome == ReceiverOutcome(session.cfg, old(session.Now()), old(disk.file)) && !outcome.Missing?
      ensures old(session.raised) <= session.raised
      ensures UploadEnded(session.raised[|old(session.raised)|..], outcome)
      ensures outcome.Escaped? <==> ReceiverEscapes(session.cfg, old(session.Now()), old(disk.file))
      ensures Patient(old(session.Now()), 3 * |session.cfg.source| + 13) ==> !outcome.Escaped?
      ensures old(disk.file).Some? ==> disk.file.Some? && old(disk.file).value <= disk.file.value
      ensures session.spec.tally.reported == (old(session.spec.tally.reported) || outcome.Completed?)
      ensures session.attempts <= old(session.attempts) + 2
      ensures outcome.GaveUp? ==> session.attempts == old(session.attempts) + 2
    {
      ReceiverEscapesIff(session.cfg, session.Now(), disk.file);
      if Patient(session.Now(), 3 * |session.cfg.source| + 13) {
        ReceiverOpensTurns(session.cfg, session.Now(), disk.file);
      }
      var fault := StartSession(false);
      if fault.Some? {
        outcome := Escaped;
      } else {
        outcome := Receive();
      }
      EndCall();
    }

    /**
     `receive_data`.  How it ends is decided by the oracle alone: an exception escapes if and only if
     opening the first session raised, or that session broke and the reconnect raised something other
     than a socket error; never if the oracle raises nothing and does not run out too early.  Unless
     one escapes, the request leaves the ledger and the router; completion is reported exactly when the
     last session took END, and then the file on disk is the whole source.
     */
    method ReceiveData(request: Request, writeFault: WriteFault) returns (outcome: Outcome)
      requires At(ROff) && session.spec.call.Idle? && !ledger.held
      modifies session, disk, ledger, backend`completed, router
      ensures At(ROff) && session.spec.call.Idle? && old(session.taken) <= session.taken && !ledger.held
      ensures outcome == ReceiverOutcome(session.cfg, old(session.Now()), old(disk.file)) && !outcome.Missing?
      ensures old(session.raised) <= session.raised
      ensures UploadEnded(session.raised[|old(session.raised)|..], outcome)
      ensures outcome.Escaped? <==> ReceiverEscapes(session.cfg, old(session.Now()), old(disk.file))
      ensures Patient(old(session.Now()), 3 * |session.cfg.source| + 13) ==> !outcome.Escaped?
      ensures Content(session.spec.receiver) <= session.cfg.source
      ensures old(disk.file).Some? ==> disk.file.Some? && old(disk.file).value <= disk.file.value
      ensures session.spec.tally.reported == (old(session.spec.tally.reported) || outcome.Completed?)
      ensures outcome.Completed? ==> disk.file == Some(session.cfg.source)
      ensures backend.completed == old(backend.completed)
              + (if outcome.Completed? && hasBackend then [request.shardId] else [])
      ensures session.attempts <= old(session.attempts) + 2
      ensures outcome.GaveUp? ==> session.attempts == old(session.attempts) + 2
      ensures ledger.file == if outcome.Escaped? then old(ledger.file)
              else Unregistered(old(ledger.file), request, writeFault)
      ensures router.forwards == if !outcome.Escaped? && !config.local && !config.hosted && hasRouter
                                 then old(router.forwards) - {request.port} else old(router.forwards)
    {
      outcome := RunSessions();
      PrefixSafety(session.cfg, session.initial, session.taken, session.spec);
      if outcome.Escaped? {
        return;
      }
      session.Close();
      if outcome.Completed? {
        CompletionSoundness(session.cfg, session.initial, session.taken, session.spec);
        if hasBackend {
          backend.DoneUploading(request.shardId);
        }
      }
      CloseRouterPort(config, router, hasRouter, request.port);
      var removed := ledger.Unregister(request, writeFault);
    }
  }

  // ----- the sending node

  /** A file open for reading. */
  class FileHandle {
    const data: Bytes
    var position: nat

    constructor (data: Bytes)
      ensures this.data == data && position == 0
    {
      this.data := data;
      position := 0;
    }

    method Read(size: nat) returns (chunk: Bytes)
      modifies this`position
      ensures position == old(position) + |chunk|
      ensures old(position) >= |data| ==> chunk == []
      ensures old(position) < |data| ==> position <= |data| && chunk == data[old(position)..position]
                                         && |chunk| == Min(size, |data| - old(position))
    {
      if position >= |data| {
        chunk := [];
      } else {
        chunk := data[position..position + Min(size, |data| - position)];
        position := position + |chunk|;
      }
    }

    method Seek(offset: nat)
      modifies this`position
      ensures position == offset
    {
      position := offset;
    }
  }

  class FragmentSender {
    const config: NodeConfig
    const ledger: ConnectionLedger<Request>
    const router: Router
    const hasRouter: bool
    const session: ZmqSessionManager
    const disk: ShardFile

    constructor (config: NodeConfig, ledger: ConnectionLedger<Request>, router: Router, hasRouter: bool,
                 session: ZmqSessionManager, disk: ShardFile)
      ensures this.config == config && this.ledger == ledger && this.router == router && this.hasRouter == hasRouter
      ensures this.session == session && this.disk == disk
    {
      this.config, this.ledger, this.router, this.hasRouter := config, ledger, router, hasRouter;
      this.session, this.disk := session, disk;
    }

    ghost predicate At(pc: SenderPc)
      reads session
    {
      session.cfg.role.NodeSends? && session.Synced() && session.spec.sender.pc == pc
    }

    /** The code's file cursor is the protocol's. */
    ghost predicate Reading(fh: FileHandle)
      reads session, fh
    {
      fh.data == session.cfg.source && fh.position == session.spec.sender.cursor
    }

    twostate predicate Onward()
      reads session
    {
      old(session.taken) <= session.taken && session.spec.tally.sessions == old(session.spec.tally.sessions)
      && session.spec.call == old(session.spec.call) && session.attempts == old(session.attempts)
    }

    /** `fh.read(chunk_size)`. */
    method ReadChunk(fh: FileHandle) returns (chunk: Bytes)
      requires At(SRead) && Reading(fh) && ValidConfig(session.cfg)
      modifies session`spec, session`taken, fh`position
      ensures Onward() && Reading(fh) && session.Now() == old(session.Now())
      ensures if chunk == [] then At(SEnd) else At(SSend(chunk))
      ensures chunk == ReadAt(session.cfg, old(fh.position)) && fh.position == old(fh.position) + |chunk|
    {
      chunk := fh.Read(session.cfg.chunk);
      ghost var s := session.spec.sender;
      if chunk == [] {
        session.CommitSender(Action.ReadChunk(0), s.(pc := SEnd));
      } else {
        session.CommitSender(Action.ReadChunk(|chunk|), Sender(SSend(chunk), fh.position));
      }
    }

    /** Lines 84-85: send one chunk. */
    method SendChunk(fh: FileHandle, chunk: Bytes) returns (raised: Option<Fault>)
      requires At(SSend(chunk)) && Reading(fh)
      modifies session
      ensures Onward() && (if raised.None? then At(SAck) && Reading(fh) else At(SOff))
      ensures session.raised == old(session.raised) + Noted(Sends(Data(chunk)), raised)
      ensures Turn(raised, session.Now()) == Sent(session.cfg, old(session.Now()), Data(chunk))
    {
      raised := session.Send(Data(chunk));
      ghost var s := session.spec.sender;
      session.CommitSender(if raised.None? then Action.SendData else SenderFail,
          s.(pc := if raised.None? then SAck else SOff));
    }

    /** Lines 87-88: wait for the acknowledgement. */
    method AwaitAck(fh: FileHandle) returns (ok: bool)
      requires At(SAck) && Reading(fh)
      modifies session
      ensures Onward() && (if ok then At(SRead) && Reading(fh) else At(SOff))
      ensures if ok then session.raised == old(session.raised) else StreamRaised(old(session.raised), session.raised)
      ensures ok == Got(session.cfg, old(session.Now())).raw.Ok?
              && session.Now() == Got(session.cfg, old(session.Now())).port
    {
      var raw := session.Recv();
      ok := raw.Ok?;
      ghost var s := session.spec.sender;
      session.CommitSender(if ok then TakeAck else SenderFail, s.(pc := if ok then SRead else SOff));
    }

    /** Lines 84-88. */
    method DeliverChunk(fh: FileHandle, chunk: Bytes) returns (ok: bool)
      requires At(SSend(chunk)) && Reading(fh)
      modifies session
      ensures Onward() && (if ok then At(SRead) && Reading(fh) else At(SOff))
      ensures if ok then session.raised == old(session.raised) else StreamRaised(old(session.raised), session.raised)
      ensures var t := Delivers(session.cfg, old(session.Now()), chunk);
              (ok <==> t.fault.None?) && session.Now() == t.port
    {
      var raised := SendChunk(fh, chunk);
      ok := false;
      if raised.None? {
        ok := AwaitAck(fh);
      }
    }

    /** Lines 83-93: one turn of the loop. */
    method SendAndRead(fh: FileHandle, chunk: Bytes, ghost end: Transmission) returns (ok: bool, next: Bytes)
      requires At(SSend(chunk)) && Reading(fh) && ValidConfig(session.cfg) && chunk != []
      requires LoopEnds(session.cfg, session.Now(), chunk, fh.position, end)
      modifies session, fh`position
      ensures Onward() && (ok ==> Reading(fh)) && (if !ok then At(SOff) else if next == [] then At(SEnd)
              else At(SSend(next)))
      ensures if ok then session.raised == old(session.raised) else StreamRaised(old(session.raised), session.raised)
      ensures ok ==> |session.schedule| < old(|session.schedule|)
      ensures if ok then LoopEnds(session.cfg, session.Now(), next, fh.position, end)
              else end.fault.Some? && end.port == session.Now()
    {
      LoopTurns(session.cfg, session.Now(), chunk, fh.position, end);
      next := [];
      ok := DeliverChunk(fh, chunk);
      if ok {
        ghost var q, cursor := session.Now(), fh.position;
        next := ReadChunk(fh);
        assert session.Now() == q && next == ReadAt(session.cfg, cursor) && fh.position == cursor + |next|;
      }
    }

    /**
     `_transmit_chunks`, as the oracle decides: true means that the data frames of this session were
     the whole source from the resume offset on, and that each of them was acknowledged.
     */
    method TransmitChunks(fh: FileHandle) returns (completed: bool)
      requires At(SRead) && Reading(fh) && ValidConfig(session.cfg)
      modifies session, fh`position
      ensures Onward() && (if completed then At(SEnd) && AllSent() else At(SOff))
      ensures if completed then session.raised == old(session.raised)
              else StreamRaised(old(session.raised), session.raised)
      ensures var r := TransmitsFrom(session.cfg, old(session.Now()), old(fh.position));
              (completed <==> r.fault.None?) && session.Now() == r.port
    {
      ghost var end := TransmitsFrom(session.cfg, session.Now(), fh.position);
      LoopStarts(session.cfg, session.Now(), fh.position);
      var chunk := ReadChunk(fh);
      while chunk != []
        invariant Onward() && Reading(fh) && (if chunk == [] then At(SEnd) else At(SSend(chunk)))
        invariant session.raised == old(session.raised)
        invariant LoopEnds(session.cfg, session.Now(), chunk, fh.position, end)
        decreases |session.schedule|
      {
        completed, chunk := SendAndRead(fh, chunk, end);
        if !completed { return; }
      }
      LoopTurns(session.cfg, session.Now(), chunk, fh.position, end);
      EndSentAll();
      return true;
    }

    /** Lines 135 and 100: bind the port for the first session of a call, or for another one. */
    method OpenSession(again: bool, isNew: bool) returns (fault: Option<Fault>)
      requires At(SOff)
      requires if again then session.spec.call == Active(1) && !isNew else session.spec.call.Idle?
      modifies session
      ensures old(session.taken) <= session.taken && session.attempts == old(session.attempts) + 1
      ensures if fault.None? then session.raised == old(session.raised)
              else OpeningRaised(old(session.raised), fault.value, session.raised)
      ensures Turn(fault, session.Now()) == Bound(session.cfg, old(session.Now()), isNew)
      ensures if fault.Some? then At(SOff) && session.spec.call == old(session.spec.call)
              else At(SStart) && session.spec.call == Active(if again then 0 else 1) && session.fromZero == isNew
                   && old(session.taken) < session.taken
                   && session.taken[|session.taken| - 1] == (if again then Reset else Begin(isNew))
    {
      fault := session.Bind(isNew);
      if fault.None? {
        ghost var a := if again then Reset else Begin(isNew);
        BindRefines(session.cfg, session.spec, a);
        session.Commit(a);
      }
    }

    /** `_emit_start_signal`. */
    method EmitStartSignal() returns (fault: Option<Fault>)
      requires At(SStart)
      modifies session
      ensures Onward() && session.fromZero == old(session.fromZero)
      ensures if fault.None? then session.raised == old(session.raised)
              else OpeningRaised(old(session.raised), fault.value, session.raised)
      ensures Turn(fault, session.Now()) == Sent(session.cfg, old(session.Now()), Frame.Start)
      ensures if fault.None? then At(if session.fromZero then SRead else SResume) && session.spec.sender.cursor == 0
              else At(SOff)
    {
      fault := session.Send(Frame.Start);
      ghost var s := session.spec.sender;
      if fault.None? {
        session.CommitSender(EmitStart, Sender(if session.fromZero then SRead else SResume, 0));
      } else {
        session.CommitSender(SenderFail, s.(pc := SOff));
      }
    }

    /** `_negotiate_resume_point`: any frame without an offset raises. */
    method NegotiateResumePoint(fh: FileHandle) returns (fault: Option<Fault>)
      requires At(SResume) && fh.data == session.cfg.source
      modifies session, fh`position
      ensures Onward() && (if fault.None? then At(SRead) && Reading(fh) else At(SOff))
      ensures if fault.None? then session.raised == old(session.raised)
              else OpeningRaised(old(session.raised), fault.value, session.raised)
      ensures var g := Got(session.cfg, old(session.Now()));
              && session.Now() == g.port
              && fault == (if g.raw.Err? then Some(g.raw.error) else if g.raw.value.Resume? then None
                   else Some(OtherError))
              && (fault.None? ==> fh.position == g.raw.value.offset)
    {
      var raw := session.Recv();
      ghost var s := session.spec.sender;
      match raw {
        case Err(f) =>
          session.CommitSender(SenderFail, s.(pc := SOff));
          fault := Some(f);
        case Ok(frame) =>
          session.CommitSender(TakeResume, if frame.Resume? then Sender(SRead, frame.offset) else s.(pc := SOff));
          if frame.Resume? {
            fh.Seek(frame.offset);
            fault := None;
          } else {
            fault := Some(OtherError);
            session.raised := session.raised + [Raise(Negotiates, OtherError)];
          }
      }
    }

    /** Lines 135-137 and 100-106: bind, then announce the start. */
    method Announce(again: bool, isNew: bool) returns (fault: Option<Fault>, ghost at: nat)
      requires At(SOff)
      requires if again then session.spec.call == Active(1) && !isNew else session.spec.call.Idle?
      modifies session
      ensures old(session.taken) <= session.taken && session.attempts == old(session.attempts) + 1
      ensures if fault.None? then session.raised == old(session.raised)
              else OpeningRaised(old(session.raised), fault.value, session.raised)
      ensures Turn(fault, session.Now()) == Announced(session.cfg, old(session.Now()), isNew)
      ensures if fault.None? then At(if isNew then SRead else SResume) && session.spec.sender.cursor == 0
                                  && session.spec.call == Active(if again then 0 else 1)
                                  && |old(session.taken)| <= at < |session.taken|
                                  && session.taken[at] == (if again then Reset else Begin(isNew))
              else At(SOff) && (again ==> session.spec.call.Active?)
    {
      at := 0;
      fault := OpenSession(again, isNew);
      if fault.None? {
        at := |session.taken| - 1;
        fault := EmitStartSignal();
      }
    }

    /** Lines 135-143 and 100-109: bind, announce the start, and await the offset unless the session is fresh. */
    method StartSession(fh: FileHandle, again: bool, isNew: bool) returns (fault: Option<Fault>, ghost at: nat)
      requires At(SOff) && fh.data == session.cfg.source && (isNew ==> fh.position == 0)
      requires if again then session.spec.call == Active(1) && !isNew else session.spec.call.Idle?
      modifies session, fh`position
      ensures old(session.taken) <= session.taken && session.attempts == old(session.attempts) + 1
      ensures if fault.None? then session.raised == old(session.raised)
              else OpeningRaised(old(session.raised), fault.value, session.raised)
      ensures var r := SenderOpens(session.cfg, old(session.Now()), isNew);
              fault == r.fault && session.Now() == r.port && (fault.None? ==> fh.position == r.cursor)
      ensures if fault.None? then At(SRead) && Reading(fh) && session.spec.call == Active(if again then 0 else 1)
              else At(SOff) && (again ==> session.spec.call.Active?)
      ensures fault.None? ==>
                |old(session.taken)| <= at < |session.taken|
                && session.taken[at] == (if again then Reset else Begin(isNew))
    {
      fault, at := Announce(again, isNew);
      if fault.None? && !isNew {
        fault := NegotiateResumePoint(fh);
      }
    }

    /** `_attempt_reconnect`: every exception counts as a failed reconnect. */
    method AttemptReconnect(fh: FileHandle) returns (connected: bool)
      requires At(SOff) && session.spec.call == Active(1) && fh.data == session.cfg.source
      modifies session, fh`position
      ensures old(session.taken) <= session.taken && session.attempts == old(session.attempts) + 1
      ensures session.spec.call.Active? && (if connected then At(SRead) && Reading(fh) else At(SOff))
      ensures if connected then session.raised == old(session.raised)
              else OneMore(old(session.raised), session.raised) && IsOpening(session.raised[|old(session.raised)|])
      ensures var r := SenderOpens(session.cfg, old(session.Now()), false);
              (connected <==> r.fault.None?) && session.Now() == r.port && (connected ==> fh.position == r.cursor)
    {
      var fault, _ := StartSession(fh, true, false);
      connected := fault.None?;
    }

    /** Lines 161-162 and, when an exception escapes, the end of the thread: the call is over. */
    ghost method EndCall()
      requires At(SOff) || (At(SDone) && session.spec.call.Active?)
      modifies session`spec, session`taken
      ensures At(SOff) && session.spec.call.Idle? && old(session.taken) <= session.taken
      ensures session.spec.tally == old(session.spec.tally)
    {
      if session.spec.call.Active? {
        session.Commit(Finish);
      }
    }

    /** Lines 157-158: tell the client that this was all. */
    method SendEnd() returns (raised: Option<Fault>)
      requires At(SEnd)
      modifies session
      ensures Onward() && (if raised.None? then At(SDone) else At(SOff))
      ensures session.raised == old(session.raised) + Noted(Sends(End), raised)
      ensures Turn(raised, session.Now()) == Sent(session.cfg, old(session.Now()), End)
      ensures raised.None? ==> session.TookSince(|old(session.taken)|, Action.SendEnd)
    {
      raised := session.Send(End);
      ghost var s := session.spec.sender;
      session.CommitSender(if raised.None? then Action.SendEnd else SenderFail,
          s.(pc := if raised.None? then SDone else SOff));
      assert raised.None? ==> session.taken[|session.taken| - 1] == Action.SendEnd;
    }

    /** The current session put the whole source from its resume offset on the wire, every frame acknowledged. */
    ghost predicate AllSent()
      reads session`spec
    {
      var t := session.spec.tally;
      t.offset <= |session.cfg.source| && Concat(t.chunks) == session.cfg.source[t.offset..] && t.acked == |t.chunks|
    }

    lemma EndSentAll()
      requires At(SEnd) || At(SDone)
      ensures AllSent()
    {
      EndMeansAll(session.cfg, session.initial, session.taken, session.spec);
    }

    /** Lines 152-154: transmit once more after a reconnect. */
    method Retry(fh: FileHandle) returns (completed: bool)
      requires At(SOff) && fh.data == session.cfg.source && ValidConfig(session.cfg) && session.spec.call == Active(1)
      modifies session, fh`position
      ensures old(session.taken) <= session.taken && session.spec.call.Active?
      ensures if completed then At(SEnd) else At(SOff)
      ensures if completed then session.raised == old(session.raised)
              else OneMore(old(session.raised), session.raised) && !AtEnd(session.raised[|old(session.raised)|])
      ensures var r := SenderRetries(session.cfg, old(session.Now()));
              (completed <==> r.fault.None?) && session.Now() == r.port
      ensures session.attempts == old(session.attempts) + 1
    {
      completed := AttemptReconnect(fh);
      if completed {
        completed := TransmitChunks(fh);
      }
    }

    /** Lines 149-154: transmit, and once more after a reconnect. */
    method Transmit(fh: FileHandle) returns (completed: bool)
      requires At(SRead) && Reading(fh) && ValidConfig(session.cfg) && session.spec.call == Active(1)
      modifies session, fh`position
      ensures old(session.taken) <= session.taken && session.spec.call.Active?
      ensures if completed then At(SEnd) else At(SOff)
      ensures if completed
              then session.raised == old(session.raised) || StreamRaised(old(session.raised), session.raised)
              else StreamRaisedTwice(old(session.raised), session.raised)
      ensures var r := SenderSessions(session.cfg, old(session.Now()), old(fh.position));
              (completed <==> r.fault.None?) && session.Now() == r.port
      ensures session.attempts <= old(session.attempts) + 1
              && (!completed ==> session.attempts == old(session.attempts) + 1)
    {
      completed := TransmitChunks(fh);
      if !completed {
        completed := Retry(fh);
      }
    }

    /** Lines 149-159: transmit, and send END if everything was transmitted. */
    method TransmitAll(fh: FileHandle) returns (outcome: Outcome)
      requires At(SRead) && Reading(fh) && ValidConfig(session.cfg) && session.spec.call == Active(1)
      modifies session, fh`position
      ensures old(session.taken) <= session.taken && session.spec.call.Active?
      ensures old(session.raised) <= session.raised
      ensures var news := session.raised[|old(session.raised)|..];
              DownloadEnded(news, outcome) && (news != [] ==> !IsOpening(news[0]))
      ensures outcome == SenderEnds(session.cfg, old(session.Now()), old(fh.position))
      ensures if outcome.Completed? then At(SDone) && AllSent() else At(SOff)
      ensures session.attempts <= old(session.attempts) + 1
      ensures outcome.GaveUp? ==> session.attempts == old(session.attempts) + 1
      ensures outcome.Completed? ==> session.TookSince(|old(session.taken)|, Action.SendEnd)
    {
      var completed := Transmit(fh);
      if !completed {
        return GaveUp;
      }
      var raised := SendEnd();
      if raised.Some? {
        return Escaped;
      }
      EndSentAll();
      return Completed;
    }

    /** Lines 134-159: open the first session and serve it. */
    method Serve(isNew: bool) returns (outcome: Outcome)
      requires At(SOff) && session.spec.call.Idle? && disk.file == Some(session.cfg.source) && ValidConfig(session.cfg)
      modifies session
      ensures old(session.taken) <= session.taken && (outcome.Escaped? || session.spec.call.Active?)
      ensures if outcome.Completed? then At(SDone) && AllSent() else At(SOff)
      ensures old(session.raised) <= session.raised
      ensures DownloadEnded(session.raised[|old(session.raised)|..], outcome)
      ensures outcome == SenderOutcome(session.cfg, old(session.Now()), isNew) && !outcome.Missing?
      ensures session.attempts <= old(session.attempts) + 2
      ensures !outcome.Escaped? ==> session.TookSince(|old(session.taken)|, Begin(isNew))
      ensures outcome.Completed? ==> session.TookSince(|old(session.taken)|, Action.SendEnd)
      ensures outcome.GaveUp? ==> session.attempts == old(session.attempts) + 2
    {
      var fh := new FileHandle(disk.file.value);
      var fault;
      ghost var at;
      fault, at := StartSession(fh, false, isNew);
      if fault.Some? {
        OpeningEscapes(old(session.raised), fault.value, session.raised);
        return Escaped;
      }
      outcome := TransmitAll(fh);
      assert session.taken[at] == Begin(isNew);
    }

    /** The sessions of one call: what `send_data` does up to closing the file. */
    method RunSessions(isNew: bool) returns (outcome: Outcome)
      requires At(SOff) && session.spec.call.Idle? && disk.file == Some(session.cfg.source) && ValidConfig(session.cfg)
      modifies session
      ensures At(SOff) && session.spec.call.Idle? && old(session.taken) <= session.taken
      ensures outcome == SenderOutcome(session.cfg, old(session.Now()), isNew) && !outcome.Missing?
      ensures old(session.raised) <= session.raised
      ensures DownloadEnded(session.raised[|old(session.raised)|..], outcome)
      ensures outcome.Escaped? <==> SenderEscapes(session.cfg, old(session.Now()), isNew)
      ensures session.attempts <= old(session.attempts) + 2
      ensures !outcome.Escaped? ==> session.TookSince(|old(session.taken)|, Begin(isNew))
      ensures outcome.Completed? ==> AllSent() && session.TookSince(|old(session.taken)|, Action.SendEnd)
      ensures outcome.GaveUp? ==> session.attempts == old(session.attempts) + 2
    {
      SenderEscapesIff(session.cfg, session.Now(), isNew);
      outcome := Serve(isNew);
      ghost var served := session.taken;
      EndCall();
      if !outcome.Escaped? {
        session.StillTook(|old(session.taken)|, Begin(isNew), served);
      }
      if outcome.Completed? {
        session.StillTook(|old(session.taken)|, Action.SendEnd, served);
      }
    }

    /** Lines 134-166, for a shard that is there. */
    method SendShard(request: Request, isNew: bool, writeFault: WriteFault) returns (outcome: Outcome)
      requires At(SOff) && session.spec.call.Idle? && !ledger.held && ValidConfig(session.cfg)
      requires disk.file == Some(session.cfg.source)
      modifies session, ledger, router
      ensures At(SOff) && session.spec.call.Idle? && old(session.taken) <= session.taken && !ledger.held
      ensures outcome == SenderOutcome(session.cfg, old(session.Now()), isNew) && !outcome.Missing?
      ensures old(session.raised) <= session.raised
      ensures DownloadEnded(session.raised[|old(session.raised)|..], outcome)
      ensures outcome.Escaped? <==> SenderEscapes(session.cfg, old(session.Now()), isNew)
      ensures !outcome.Escaped? ==> session.TookSince(|old(session.taken)|, Begin(isNew))
      ensures outcome.Completed? ==> AllSent() && session.TookSince(|old(session.taken)|, Action.SendEnd)
      ensures session.attempts <= old(session.attempts) + 2
      ensures outcome.GaveUp? ==> session.attempts == old(session.attempts) + 2
      ensures ledger.file == if outcome.Escaped? then old(ledger.file)
              else Unregistered(old(ledger.file), request, writeFault)
      ensures router.forwards == if !outcome.Escaped? && !config.local && !config.hosted && hasRouter
                                 then old(router.forwards) - {request.port} else old(router.forwards)
    {
      outcome := RunSessions(isNew);
      if !outcome.Escaped? {
        EndTransfer(request, writeFault);
      }
    }

    /**
     `send_data`.  A missing shard ends the call before anything else happens.  Otherwise the oracle
     alone decides how it ends: an exception escapes if and only if opening the first session raised,
     or everything was transmitted and sending END raised; unless one escapes, the request leaves the
     ledger and the router, whether or not the transfer was completed.
     */
    method SendData(request: Request, isNew: bool, writeFault: WriteFault) returns (outcome: Outcome)
      requires At(SOff) && session.spec.call.Idle? && !ledger.held && ValidConfig(session.cfg)
      requires disk.file.Some? ==> disk.file.value == session.cfg.source
      modifies session, ledger, router
      ensures At(SOff) && session.spec.call.Idle? && old(session.taken) <= session.taken && !ledger.held
      ensures outcome == if disk.file.None? then Missing else SenderOutcome(session.cfg, old(session.Now()), isNew)
      ensures old(session.raised) <= session.raised
      ensures disk.file.Some? ==> DownloadEnded(session.raised[|old(session.raised)|..], outcome)
      ensures outcome.Escaped? <==> disk.file.Some? && SenderEscapes(session.cfg, old(session.Now()), isNew)
      ensures outcome.Missing? ==> unchanged(session) && unchanged(router)
      ensures outcome.Completed? || outcome.GaveUp? ==> session.TookSince(|old(session.taken)|, Begin(isNew))
      ensures outcome.Completed? ==> AllSent() && session.TookSince(|old(session.taken)|, Action.SendEnd)
      ensures session.attempts <= old(session.attempts) + 2
      ensures outcome.GaveUp? ==> session.attempts == old(session.attempts) + 2
      ensures ledger.file == if outcome.Escaped? || outcome.Missing? then old(ledger.file)
                             else Unregistered(old(ledger.file), request, writeFault)
      ensures router.forwards == if !outcome.Escaped? && !outcome.Missing? && !config.local && !config.hosted
                                    && hasRouter
                                 then old(router.forwards) - {request.port} else old(router.forwards)
    {
      if disk.file.None? {
        return Missing;
      }
      outcome := SendShard(request, isNew, writeFault);
    }

    /** Lines 162-166. */
    method EndTransfer(request: Request, writeFault: WriteFault)
      requires !ledger.held
      modifies session`bound, ledger, router
      ensures !ledger.held && ledger.file == Unregistered(old(ledger.file), request, writeFault)
      ensures router.forwards == if !config.local && !config.hosted && hasRouter
                                 then old(router.forwards) - {request.port} else old(router.forwards)
    {
      session.Close();
      CloseRouterPort(config, router, hasRouter, request.port);
      var removed := ledger.Unregister(request, writeFault);
    }
  }
}
