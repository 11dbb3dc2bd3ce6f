/**
 The resumable chunk transfer of `chunk_transfer.py`, as a labelled step system.

 One side of a transfer is the storage node, which binds the port and opens every session; the
 other is a connecting client.  In an upload the node receives the shard, in a download the node
 sends it.  Both directions run the same stop-and-wait protocol, so one system describes both:
 the role decides which side opens sessions and which side merely joins them.

 `SenderStep` and `ReceiverStep` say what a conforming sender and a conforming receiver may do.
 They are the two halves of an assume-guarantee contract: the node classes in `TransferNode`
 are proved to take only such steps, and the client is assumed to.
 */
module TransferProtocol {
  import opened Wrappers

  newtype byte = x: int | 0 <= x < 256

  type Bytes = seq<byte>

  datatype Frame = Start | Resume(offset: nat) | Data(payload: Bytes) | Ack | End

  /** Which side of the transfer the storage node is. */
  datatype Role = NodeReceives | NodeSends

  datatype Config = Config(role: Role, source: Bytes, chunk: nat)

  ghost predicate ValidConfig(c: Config) {
    c.chunk >= 1
  }

  // ----- the two endpoints and the wire between them

  /**
   SOff: no session.  SStart: the opening frame is still to be emitted (node) or awaited (client).
   SResume: blocked on the resume frame.  SRead: about to read a chunk.  SSend: chunk read, not sent.
   SAck: blocked on the acknowledgement.  SEnd: end of file reached.  SDone: END sent.
   */
  datatype SenderPc = SOff | SStart | SResume | SRead | SSend(chunk: Bytes) | SAck | SEnd | SDone

  /**
   ROff, RStart: as for the sender.  ROpen: opening frame exchanged, file not yet open.
   RRecv: blocked on the next frame.  RAck: chunk taken, not acknowledged, not written.
   RWrite: chunk acknowledged, not written.  RLate: chunk written, not acknowledged.
   RDone: END taken.
   */
  datatype ReceiverPc = ROff | RStart | ROpen | RRecv | RAck(chunk: Bytes) | RWrite(chunk: Bytes) | RLate | RDone

  datatype Sender = Sender(pc: SenderPc, cursor: nat)

  /** `synced` is how much of the file was on disk when it was last closed: a crash keeps that much. */
  datatype Receiver = Receiver(pc: ReceiverPc, file: Option<Bytes>, synced: nat)

  /** `down` carries frames from sender to receiver, `up` from receiver to sender. */
  datatype Link = Link(down: seq<Frame>, up: seq<Frame>)

  /** A call of `send_data` or `receive_data`, with the reconnects it may still try. */
  datatype Call = Idle | Active(reconnects: nat)

  /**
   What happened so far.  No step's guard looks at these fields.
   sessions: sessions opened.  broken: earlier sessions after which the source was not fully stored,
   or that sent from byte zero to a receiver that never opened its file.  sent: payload bytes put on
   the wire.  lost: stored bytes given up by crashes and by files opened afresh; lostBefore: as it was
   when this session began, or opened its file afresh.  abandoned: chunks acknowledged and then not
   fully written; torn: that happened in this session.  unopened: the session starts from byte zero and
   its receiver has not opened the file yet.  offset, front, chunks, acked: where this session's stream
   began, how far it got, its data payloads, and how many acknowledgements the sender has taken.
   clean: no fault in this session.  reported: `done_uploading` has been called.
   */
  datatype Tally = Tally(
    sessions: nat, broken: nat, sent: nat, lost: nat, lostBefore: nat, abandoned: nat, torn: bool, unopened: bool,
    offset: nat, front: nat, chunks: seq<Bytes>, acked: nat, clean: bool, reported: bool)

  /** `fromZero`: this session starts at byte zero and exchanges no resume frame. */
  datatype State = State(call: Call, fromZero: bool, sender: Sender, receiver: Receiver, link: Link, tally: Tally)

  datatype Action =
    // the node's calls and sessions
    | Begin(isNew: bool) | Reset | Finish | Crash(kept: nat)
    // the opening frame: emitted by the node, taken by the client
    | EmitStart | TakeStart
    // the sender
    | TakeResume | ReadChunk(size: nat) | SendData | TakeAck | SendEnd | SenderFail
    // the receiver
    | OpenFile | TakeFrame | SendAck | WriteAll | WriteSome(written: nat) | WriteFirst | LateAck | ReceiverFail
    // the client coming and going, and the network losing frames
    | PeerJoin | PeerCrash(kept: nat) | DropDown(at: nat) | DropUp(at: nat)

  function Content(r: Receiver): Bytes {
    if r.file.Some? then r.file.value else []
  }

  function Min(a: nat, b: nat): nat {
    if a <= b then a else b
  }

  predicate SenderOwns(c: Config, a: Action) {
    match a
    case EmitStart => c.role.NodeSends?
    case TakeStart => c.role.NodeReceives?
    case TakeResume | ReadChunk(_) | SendData | TakeAck | SendEnd | SenderFail => true
    case _ => false
  }

  predicate ReceiverOwns(c: Config, a: Action) {
    match a
    case EmitStart => c.role.NodeReceives?
    case TakeStart => c.role.NodeSends?
    case OpenFile | TakeFrame | SendAck | WriteAll | WriteSome(_) | WriteFirst | LateAck | ReceiverFail => true
    case _ => false
  }

  // ----- what each endpoint may do

  function SenderStep(c: Config, fromZero: bool, s: Sender, l: Link, a: Action): Option<(Sender, Link)> {
    match (a, s.pc)
    case (EmitStart, SStart) =>
      Some((Sender(if fromZero then SRead else SResume, 0), l.(down := l.down + [Start])))
    case (TakeStart, SStart) =>
      if l.up == [] then None else
        Some((Sender(if l.up[0] != Start then SOff else if fromZero then SRead else SResume, 0), l.(up := l.up[1..])))
    case (TakeResume, SResume) =>
      if l.up == [] then None else
      if l.up[0].Resume? then Some((Sender(SRead, l.up[0].offset), l.(up := l.up[1..])))
      else Some((s.(pc := SOff), l.(up := l.up[1..])))
    case (ReadChunk(n), SRead) =>
      if s.cursor >= |c.source| then
        (if n == 0 then Some((s.(pc := SEnd), l)) else None)
      else if 1 <= n <= Min(c.chunk, |c.source| - s.cursor)
           && (c.role.NodeSends? ==> n == Min(c.chunk, |c.source| - s.cursor)) then
        Some((Sender(SSend(c.source[s.cursor..s.cursor + n]), s.cursor + n), l))
      else None
    case (SendData, SSend(chunk)) =>
      Some((s.(pc := SAck), l.(down := l.down + [Data(chunk)])))
    case (TakeAck, SAck) =>
      if l.up == [] then None else Some((s.(pc := SRead), l.(up := l.up[1..])))
    case (SendEnd, SEnd) =>
      Some((s.(pc := SDone), l.(down := l.down + [End])))
    case (SenderFail, pc) =>
      if pc.SOff? then None else Some((s.(pc := SOff), l))
    case _ => None
  }

  function ReceiverStep(c: Config, fromZero: bool, r: Receiver, l: Link, a: Action): Option<(Receiver, Link)> {
    match (a, r.pc)
    case (EmitStart, RStart) =>
      Some((r.(pc := ROpen), l.(up := l.up + [Start])))
    case (TakeStart, RStart) =>
      if l.down == [] then None else
        Some((r.(pc := if l.down[0].Start? then ROpen else ROff), l.(down := l.down[1..])))
    case (OpenFile, ROpen) =>
      if fromZero then Some((Receiver(RRecv, Some([]), 0), l))
      else Some((Receiver(RRecv, Some(Content(r)), |Content(r)|), l.(up := l.up + [Resume(|Content(r)|)])))
    case (TakeFrame, RRecv) =>
      if l.down == [] then None else
        Some((r.(pc := match l.down[0] case Data(d) => RAck(d) case End => RDone case _ => RRecv),
              l.(down := l.down[1..])))
    case (SendAck, RAck(d)) =>
      Some((r.(pc := RWrite(d)), l.(up := l.up + [Ack])))
    case (WriteAll, RWrite(d)) =>
      Some((r.(pc := RRecv, file := Some(Content(r) + d)), l))
    case (WriteSome(k), RWrite(d)) =>
      if k <= |d| then Some((Receiver(ROff, Some(Content(r) + d[..k]), |Content(r)| + k), l)) else None
    case (WriteFirst, RAck(d)) =>
      if c.role.NodeSends? then Some((r.(pc := RLate, file := Some(Content(r) + d)), l)) else None
    case (LateAck, RLate) =>
      Some((r.(pc := RRecv), l.(up := l.up + [Ack])))
    case (ReceiverFail, pc) =>
      if pc.ROff? || pc.RWrite? then None else Some((r.(pc := ROff, synced := |Content(r)|), l))
    case _ => None
  }

  // ----- the node's calls and sessions

  predicate NodeOff(c: Config, s: State) {
    if c.role.NodeReceives? then s.receiver.pc.ROff? else s.sender.pc.SOff?
  }

  predicate NodeFinished(c: Config, s: State) {
    if c.role.NodeReceives? then s.receiver.pc.RDone? else s.sender.pc.SDone?
  }

  /** `session.open()` or `session.reset()`: in-flight frames are gone and the client has to join again. */
  function OpenSession(c: Config, s: State, fromZero: bool, call: Call): State {
    var r := s.receiver;
    var kept := if fromZero then 0 else |Content(r)|;
    State(call, fromZero,
          Sender(if c.role.NodeSends? then SStart else SOff, 0),
          r.(pc := if c.role.NodeReceives? then RStart else ROff, synced := |Content(r)|),
          Link([], []),
          s.tally.(sessions := s.tally.sessions + 1,
                   broken := s.tally.broken + (if EndedShort(c, s) then 1 else 0),
                   lostBefore := s.tally.lost,
                   abandoned := s.tally.abandoned + (if r.pc.RWrite? then 1 else 0),
                   torn := false, unopened := fromZero,
                   offset := kept, front := kept, chunks := [], acked := 0, clean := true))
  }

  /** There was a session, and it has left something to send again. */
  predicate EndedShort(c: Config, s: State) {
    s.tally.sessions > 0 && (Content(s.receiver) != c.source || (s.tally.unopened && s.tally.chunks != []))
  }

  function CloseNode(c: Config, s: State): State {
    if c.role.NodeReceives? then s.(receiver := s.receiver.(pc := ROff, synced := |Content(s.receiver)|))
    else s.(sender := s.sender.(pc := SOff))
  }

  /** A process dies while the shard file may be open: the file keeps `kept` bytes. */
  function Truncated(s: State, kept: nat): State
    requires kept <= |Content(s.receiver)|
  {
    var r := s.receiver;
    var file := if r.file.None? then None else Some(r.file.value[..kept]);
    s.(receiver := Receiver(ROff, file, kept),
       tally := s.tally.(lost := s.tally.lost + |Content(r)| - kept,
                         abandoned := s.tally.abandoned + (if r.pc.RWrite? then 1 else 0),
                         torn := s.tally.torn || r.pc.RWrite?))
  }

  function Faulted(s: State): State {
    s.(tally := s.tally.(clean := false))
  }

  predicate IsFault(a: Action) {
    a.Crash? || a.SenderFail? || a.WriteSome? || a.ReceiverFail? || a.PeerCrash? || a.DropDown? || a.DropUp?
  }

  /** The steps that only the node or only the environment takes as a whole. */
  function ControlStep(c: Config, s: State, a: Action): Option<State> {
    match a
    case Begin(isNew) =>
      if !s.call.Idle? then None else
        Some(OpenSession(c, s, if c.role.NodeReceives? then s.receiver.file.None? else isNew, Active(1)))
    case Reset =>
      if s.call.Active? && s.call.reconnects > 0 && NodeOff(c, s) && (c.role.NodeReceives? ==> s.receiver.file.Some?)
      then Some(OpenSession(c, s, false, Active(s.call.reconnects - 1))) else None
    case Finish =>
      if s.call.Active? && (NodeOff(c, s) || NodeFinished(c, s)) then
        Some(CloseNode(c, s).(call := Idle,
                              tally := s.tally.(reported := s.tally.reported
                                  || (c.role.NodeReceives? && NodeFinished(c, s)))))
      else None
    case Crash(kept) =>
      if c.role.NodeSends? then Some(Faulted(CloseNode(c, s).(call := Idle)))
      else if s.receiver.synced <= kept <= |Content(s.receiver)| then Some(Faulted(Truncated(s, kept).(call := Idle)))
      else None
    case PeerCrash(kept) =>
      if c.role.NodeSends? && s.receiver.synced <= kept <= |Content(s.receiver)| then Some(Faulted(Truncated(s, kept)))
      else None
    case PeerJoin =>
      if c.role.NodeReceives? then
        (if s.sender.pc.SOff? || s.sender.pc.SDone? then
           Some(s.(sender := Sender(SStart, 0), tally := s.tally.(clean := s.tally.clean && s.sender.pc.SOff?)))
         else None)
      else
        (if s.receiver.pc.ROff? || s.receiver.pc.RDone? then
           Some(s.(receiver := s.receiver.(pc := RStart, synced := |Content(s.receiver)|),
                   tally := s.tally.(clean := s.tally.clean && s.receiver.pc.ROff?)))
         else None)
    case DropDown(i) =>
      if i < |s.link.down| then Some(Faulted(s.(link := s.link.(down := s.link.down[..i] + s.link.down[i + 1..]))))
          else None
    case DropUp(i) =>
      if i < |s.link.up| then Some(Faulted(s.(link := s.link.(up := s.link.up[..i] + s.link.up[i + 1..])))) else None
    case _ => None
  }

  /** The bookkeeping for a sender or receiver step. */
  function Account(s: State, a: Action): Tally {
    var t := if IsFault(a) then s.tally.(clean := false) else s.tally;
    match a
    case TakeResume =>
      if s.link.up != [] && s.link.up[0].Resume? then t.(offset := s.link.up[0].offset, front := s.link.up[0].offset)
          else t
    case SendData =>
      if s.sender.pc.SSend? then
        t.(sent := t.sent + |s.sender.pc.chunk|, front := s.sender.cursor, chunks := t.chunks + [s.sender.pc.chunk])
      else t
    case TakeAck => t.(acked := t.acked + 1)
    case OpenFile =>
      if s.fromZero then
        var lost := t.lost + |Content(s.receiver)|;
        t.(lost := lost, lostBefore := lost, unopened := false)
      else t
    case WriteSome(k) =>
      if s.receiver.pc.RWrite? && k < |s.receiver.pc.chunk| then t.(abandoned := t.abandoned + 1, torn := true) else t
    case _ => t
  }

  function Next(c: Config, s: State, a: Action): Option<State> {
    if SenderOwns(c, a) then
      match SenderStep(c, s.fromZero, s.sender, s.link, a)
      case None => None
      case Some((sender, link)) => Some(s.(sender := sender, link := link, tally := Account(s, a)))
    else if ReceiverOwns(c, a) then
      match ReceiverStep(c, s.fromZero, s.receiver, s.link, a)
      case None => None
      case Some((receiver, link)) => Some(s.(receiver := receiver, link := link, tally := Account(s, a)))
    else
      ControlStep(c, s, a)
  }

  /** Before the first call: nothing stored, or a file with this content already closed on disk. */
  function Initial(file: Option<Bytes>): State {
    var length := if file.Some? then |file.value| else 0;
    State(Idle, true, Sender(SOff, 0), Receiver(ROff, file, length), Link([], []),
          Tally(0, 0, 0, 0, 0, 0, false, false, length, length, [], 0, false, false))
  }

  /** The state after taking all of `run` from `s`, if every action is possible when its turn comes. */
  function Exec(c: Config, s: State, run: seq<Action>): Option<State>
    decreases |run|
  {
    if run == [] then Some(s)
    else match Exec(c, s, run[..|run| - 1])
         case None => None
         case Some(mid) => Next(c, mid, run[|run| - 1])
  }

  lemma ExecSnoc(c: Config, s: State, run: seq<Action>, a: Action)
    ensures Exec(c, s, run + [a]) == match Exec(c, s, run) case None => None case Some(mid) => Next(c, mid, a)
  {
    assert (run + [a])[..|run|] == run;
  }

  /** Runs compose. */
  lemma {:induction false} ExecAppend(c: Config, s: State, run: seq<Action>, more: seq<Action>)
    ensures Exec(c, s, run + more) == match Exec(c, s, run) case None => None case Some(mid) => Exec(c, mid, more)
    decreases |more|
  {
    if more == [] {
      assert run + more == run;
    } else {
      var init, last := more[..|more| - 1], more[|more| - 1];
      ExecAppend(c, s, run, init);
      assert run + more == (run + init) + [last];
      ExecSnoc(c, s, run + init, last);
    }
  }
}
