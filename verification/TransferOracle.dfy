/**
 One transfer port as the node's code sees it: what the client, the network and the disk do in
 answer to the node's operations, and how a whole call of `chunk_transfer.py` ends because of that.

 Everything here is a function of an oracle: a schedule that says what the environment does next
 and whether the node's next operation raises.  The methods of `TransferNode` are proved to compute
 these functions, so what is proved here about them is known before a call is made.
 */
module TransferOracle {
  import opened Wrappers
  import opened TransferProtocol

  /** `socket.error`, or any other exception: ZeroMQ's own errors are of the second kind. */
  datatype Fault = SocketError | OtherError

  /** One entry of the oracle: something the environment does, or how the node's next operation fares. */
  datatype Move = Env(action: Action) | Go | Break(fault: Fault) | Short(written: nat)

  /** The endpoint the client runs. */
  datatype Client = Sending(sender: Sender) | Receiving(receiver: Receiver)

  /** How a call ended; an escaped exception ends the thread before the ledger is touched. */
  datatype Outcome = Missing | Completed | GaveUp | Escaped

  datatype Port = Port(client: Client, link: Link, fromZero: bool, schedule: seq<Move>)

  /** What the node was doing when an exception was raised; `Negotiates` is waiting for the resume frame. */
  datatype Kind = Binds | Sends(frame: Frame) | Negotiates | Awaits | TouchesFile | WritesFile

  datatype Raise = Raise(kind: Kind, fault: Fault)

  /** The exception belongs to the opening of a session: binding, announcing, negotiating, opening the file. */
  predicate IsOpening(r: Raise) {
    match r.kind
    case Binds | Negotiates | TouchesFile => true
    case Sends(frame) => frame.Start? || frame.Resume?
    case _ => false
  }

  /**
   The exceptions raised during an upload decide how it ended.  None, or one in the middle of the first
   session, and the rest went well; one in the opening of the first session escapes; a second one ends
   the call, and escapes from the opening of the second session unless it is a socket error.
   */
  ghost predicate UploadEnded(raised: seq<Raise>, outcome: Outcome) {
    match outcome
    case Completed => raised == [] || (|raised| == 1 && !IsOpening(raised[0]))
    case GaveUp => |raised| == 2 && !IsOpening(raised[0]) && (IsOpening(raised[1]) ==> raised[1].fault.SocketError?)
    case Escaped =>
      || (|raised| == 1 && IsOpening(raised[0]))
      || (|raised| == 2 && !IsOpening(raised[0]) && IsOpening(raised[1]) && raised[1].fault.OtherError?)
    case Missing => false
  }

  /** And those raised during a download: in the opening of the first session and with END they escape. */
  ghost predicate DownloadEnded(raised: seq<Raise>, outcome: Outcome) {
    match outcome
    case Completed => raised == [] || (|raised| == 1 && !IsOpening(raised[0]) && !AtEnd(raised[0]))
    case GaveUp => |raised| == 2 && !IsOpening(raised[0]) && !AtEnd(raised[0]) && !AtEnd(raised[1])
    case Escaped =>
      || (|raised| == 1 && (IsOpening(raised[0]) || AtEnd(raised[0])))
      || (|raised| == 2 && !IsOpening(raised[0]) && !AtEnd(raised[0]) && AtEnd(raised[1]))
    case Missing => false
  }

  predicate AtEnd(r: Raise) {
    r.kind == Sends(End)
  }

  /** At most one outcome fits what was raised. */
  lemma OneOutcome(raised: seq<Raise>, one: Outcome, other: Outcome)
    ensures UploadEnded(raised, one) && UploadEnded(raised, other) ==> one == other
    ensures DownloadEnded(raised, one) && DownloadEnded(raised, other) ==> one == other
  {
  }

  /** What one operation adds to the exceptions raised so far. */
  function Noted(kind: Kind, fault: Option<Fault>): seq<Raise> {
    if fault.None? then [] else [Raise(kind, fault.value)]
  }

  /** Exactly one exception more. */
  ghost predicate OneMore(before: seq<Raise>, after: seq<Raise>) {
    before <= after && |after| == |before| + 1
  }

  /** Exactly one more, in the opening of a session; or exactly one more, later. */
  ghost predicate OpeningRaised(before: seq<Raise>, fault: Fault, after: seq<Raise>) {
    OneMore(before, after) && IsOpening(after[|before|]) && after[|before|].fault == fault
  }

  ghost predicate StreamRaised(before: seq<Raise>, after: seq<Raise>) {
    OneMore(before, after) && !IsOpening(after[|before|]) && !AtEnd(after[|before|])
  }

  lemma OpeningEscapes(before: seq<Raise>, fault: Fault, after: seq<Raise>)
    requires OpeningRaised(before, fault, after)
    ensures UploadEnded(after[|before|..], Escaped) && DownloadEnded(after[|before|..], Escaped)
  {
  }

  /** Two more, the first one later than the opening of its session, and neither with END. */
  ghost predicate StreamRaisedTwice(before: seq<Raise>, after: seq<Raise>) {
    && before <= after && |after| == |before| + 2 && !IsOpening(after[|before|])
    && !AtEnd(after[|before|]) && !AtEnd(after[|before| + 1])
  }

  // ----- the client and the network

  function ClientStep(c: Config, fromZero: bool, client: Client, l: Link, a: Action): Option<(Client, Link)> {
    match client
    case Sending(s) =>
      if a.PeerJoin? then (if s.pc.SOff? || s.pc.SDone? then Some((Sending(Sender(SStart, 0)), l)) else None)
      else if !SenderOwns(c, a) then None
      else (match SenderStep(c, fromZero, s, l, a) case None => None case Some((s', l')) => Some((Sending(s'), l')))
    case Receiving(r) =>
      if a.PeerJoin? then
        (if r.pc.ROff? || r.pc.RDone? then Some((Receiving(r.(pc := RStart, synced := |Content(r)|)), l)) else None)
      else if a.PeerCrash? then
        (if r.synced <= a.kept <= |Content(r)| then
           Some((Receiving(Receiver(ROff, if r.file.None? then None else Some(r.file.value[..a.kept]), a.kept)), l))
         else None)
      else if !ReceiverOwns(c, a) then None
      else (match ReceiverStep(c, fromZero, r, l, a) case None => None case Some((r', l')) => Some((Receiving(r'), l')))
  }

  /** What the client and the network do on their own. */
  function EnvStep(c: Config, fromZero: bool, client: Client, l: Link, a: Action): Option<(Client, Link)> {
    match a
    case DropDown(i) =>
      if i < |l.down| then Some((client, l.(down := l.down[..i] + l.down[i + 1..]))) else None
    case DropUp(i) =>
      if i < |l.up| then Some((client, l.(up := l.up[..i] + l.up[i + 1..]))) else None
    case _ => ClientStep(c, fromZero, client, l, a)
  }

  /** The environment's moves that are due before the node's next operation; impossible ones are skipped. */
  function Settled(c: Config, p: Port): (q: Port)
    ensures |q.schedule| <= |p.schedule| && q.fromZero == p.fromZero
    decreases |p.schedule|
  {
    if p.schedule == [] || !p.schedule[0].Env? then p
    else
      match EnvStep(c, p.fromZero, p.client, p.link, p.schedule[0].action)
      case None => Settled(c, p.(schedule := p.schedule[1..]))
      case Some((client, link)) => Settled(c, Port(client, link, p.fromZero, p.schedule[1..]))
  }

  // ----- the node's operations

  /** Whether the next operation raises; when the oracle has run out, it times out. */
  function Verdict(schedule: seq<Move>): Option<Fault> {
    if schedule == [] then Some(OtherError) else if schedule[0].Break? then Some(schedule[0].fault) else None
  }

  function Rest(schedule: seq<Move>): seq<Move> {
    if schedule == [] then [] else schedule[1..]
  }

  datatype Turn = Turn(fault: Option<Fault>, port: Port)

  function Unjoined(client: Client): Client {
    match client
    case Sending(_) => Sending(Sender(SOff, 0))
    case Receiving(r) => Receiving(r.(pc := ROff, synced := |Content(r)|))
  }

  /** `open` and `reset`. */
  function Bound(c: Config, p: Port, zero: bool): (t: Turn)
    ensures |t.port.schedule| <= |p.schedule|
  {
    var q := Settled(c, p);
    var fault := Verdict(q.schedule);
    Turn(fault, if fault.Some? then q.(schedule := Rest(q.schedule))
                else Port(Unjoined(q.client), Link([], []), zero, Rest(q.schedule)))
  }

  /** A call of the file system: `getsize` or `open`. */
  function Touched(c: Config, p: Port): (t: Turn)
    ensures |t.port.schedule| <= |p.schedule|
  {
    var q := Settled(c, p);
    Turn(Verdict(q.schedule), q.(schedule := Rest(q.schedule)))
  }

  function Put(c: Config, l: Link, frame: Frame): Link {
    if c.role.NodeReceives? then l.(up := l.up + [frame]) else l.(down := l.down + [frame])
  }

  /** `sock.send`. */
  function Sent(c: Config, p: Port, frame: Frame): (t: Turn)
    ensures |t.port.schedule| <= |p.schedule|
  {
    var q := Settled(c, p).(schedule := Rest(Settled(c, p).schedule));
    var fault := Verdict(Settled(c, p).schedule);
    Turn(fault, if fault.Some? then q else q.(link := Put(c, q.link, frame)))
  }

  /** The beginning of every session: bind, then `_emit_start_signal`. */
  function Announced(c: Config, p: Port, zero: bool): (t: Turn)
    ensures |t.port.schedule| <= |p.schedule|
  {
    var bound := Bound(c, p, zero);
    if bound.fault.Some? then bound else Sent(c, bound.port, Start)
  }

  function Inbound(c: Config, l: Link): seq<Frame> {
    if c.role.NodeReceives? then l.down else l.up
  }

  function Taken(c: Config, l: Link): Link
    requires Inbound(c, l) != []
  {
    if c.role.NodeReceives? then l.(down := l.down[1..]) else l.(up := l.up[1..])
  }

  datatype Received = Received(raw: Result<Frame, Fault>, port: Port)

  /** `sock.recv`: with nothing to deliver it times out. */
  function Got(c: Config, p: Port): (g: Received)
    ensures |g.port.schedule| <= |p.schedule| && (g.raw.Ok? ==> |g.port.schedule| < |p.schedule|)
  {
    var q := Settled(c, p).(schedule := Rest(Settled(c, p).schedule));
    var fault := Verdict(Settled(c, p).schedule);
    if fault.Some? then Received(Err(fault.value), q)
    else if Inbound(c, q.link) == [] then Received(Err(OtherError), q)
    else Received(Ok(Inbound(c, q.link)[0]), q.(link := Taken(c, q.link)))
  }

  datatype DiskWrite = DiskWrite(count: nat, port: Port)

  /** How many of `size` bytes a disk write gets onto the disk. */
  function Wrote(p: Port, size: nat): (w: DiskWrite)
    ensures w.count <= size && |w.port.schedule| <= |p.schedule|
  {
    if p.schedule != [] && p.schedule[0].Short? then
      DiskWrite(Min(p.schedule[0].written, size), p.(schedule := p.schedule[1..]))
    else DiskWrite(size, p)
  }

  // ----- a call of the receiving node

  datatype Reception = Reception(fault: Option<Fault>, port: Port, file: Option<Bytes>)

  /**
   `_open_shard_file` and lines 231-235: an existing file is measured, announced and opened, a missing
   one created.
   */
  function ShardOpens(c: Config, p: Port, file: Option<Bytes>): (r: Reception)
    ensures r.fault.None? ==> r.file.Some?
  {
    if file.None? then
      var created := Touched(c, p);
      Reception(created.fault, created.port, if created.fault.None? then Some([]) else None)
    else
      var measured := Touched(c, p);
      if measured.fault.Some? then Reception(measured.fault, measured.port, file)
      else
        var resumed := Sent(c, measured.port, Resume(|file.value|));
        if resumed.fault.Some? then Reception(resumed.fault, resumed.port, file)
        else
          var ready := Touched(c, resumed.port);
          Reception(ready.fault, ready.port, file)
  }

  /** Opening a session: bind, announce the start, open the file. */
  function ReceiverOpens(c: Config, p: Port, file: Option<Bytes>): (r: Reception)
    ensures r.fault.None? ==> r.file.Some?
  {
    var started := Announced(c, p, file.None?);
    if started.fault.Some? then Reception(started.fault, started.port, file)
    else ShardOpens(c, started.port, file)
  }

  /** One data frame: acknowledged, then appended to the file. */
  function StoresChunk(c: Config, p: Port, file: Bytes, data: Bytes): (r: Reception)
    ensures r.file.Some? && |r.port.schedule| <= |p.schedule|
  {
    var acked := Sent(c, p, Ack);
    if acked.fault.Some? then Reception(acked.fault, acked.port, Some(file))
    else
      var wrote := Wrote(acked.port, |data|);
      Reception(if wrote.count < |data| then Some(OtherError) else None, wrote.port, Some(file + data[..wrote.count]))
  }

  /** The receive loop; no fault means that END was taken. */
  function Receives(c: Config, p: Port, file: Bytes): (r: Reception)
    ensures r.file.Some?
    decreases |p.schedule|
  {
    var got := Got(c, p);
    match got.raw
    case Err(fault) => Reception(Some(fault), got.port, Some(file))
    case Ok(Data(data)) =>
      var kept := StoresChunk(c, got.port, file, data);
      if kept.fault.Some? then kept else Receives(c, kept.port, kept.file.value)
    case Ok(End) => Reception(None, got.port, Some(file))
    case Ok(_) => Receives(c, got.port, file)
  }

  /** The rest of a call once its first session has broken. */
  function ReceiverRetries(c: Config, p: Port, file: Option<Bytes>): Outcome {
    var again := ReceiverOpens(c, p, file);
    match again.fault
    case Some(OtherError) => Escaped
    case Some(SocketError) => GaveUp
    case None => if Receives(c, again.port, again.file.value).fault.None? then Completed else GaveUp
  }

  /** The rest of a call once its first session is open. */
  function ReceiverSessions(c: Config, p: Port, file: Bytes): Outcome {
    var broken := Receives(c, p, file);
    if broken.fault.None? then Completed else ReceiverRetries(c, broken.port, broken.file)
  }

  /** How `receive_data` ends. */
  function ReceiverOutcome(c: Config, p: Port, file: Option<Bytes>): Outcome {
    var first := ReceiverOpens(c, p, file);
    if first.fault.Some? then Escaped else ReceiverSessions(c, first.port, first.file.value)
  }

  // ----- a call of the sending node

  datatype Transmission = Transmission(fault: Option<Fault>, port: Port, cursor: nat)

  /** Opening a session: bind, announce the start, and await the offset unless the session is fresh. */
  function SenderOpens(c: Config, p: Port, zero: bool): Transmission {
    var started := Announced(c, p, zero);
    if started.fault.Some? || zero then Transmission(started.fault, started.port, 0)
    else
      var got := Got(c, started.port);
      match got.raw
      case Err(fault) => Transmission(Some(fault), got.port, 0)
      case Ok(Resume(offset)) => Transmission(None, got.port, offset)
      case Ok(_) => Transmission(Some(OtherError), got.port, 0)
  }

  /** One data frame: sent, then acknowledged by whatever frame comes next. */
  function Delivers(c: Config, p: Port, chunk: Bytes): (t: Turn)
    ensures |t.port.schedule| <= |p.schedule| && (t.fault.None? ==> |t.port.schedule| < |p.schedule|)
  {
    var sent := Sent(c, p, Data(chunk));
    if sent.fault.Some? then sent
    else
      var got := Got(c, sent.port);
      Turn(if got.raw.Err? then Some(got.raw.error) else None, got.port)
  }

  /** What a read at `cursor` returns. */
  function ReadAt(c: Config, cursor: nat): Bytes {
    if cursor >= |c.source| then [] else c.source[cursor..cursor + Min(c.chunk, |c.source| - cursor)]
  }

  /** The send loop, with `chunk` already read up to `cursor`; no fault means that the file was read to its end. */
  function Transmits(c: Config, p: Port, chunk: Bytes, cursor: nat): Transmission
    decreases |p.schedule|
  {
    if chunk == [] then Transmission(None, p, cursor)
    else
      var delivered := Delivers(c, p, chunk);
      if delivered.fault.Some? then Transmission(delivered.fault, delivered.port, cursor)
      else
        var next := ReadAt(c, cursor);
        Transmits(c, delivered.port, next, cursor + |next|)
  }

  /** `_transmit_chunks` of a file at `cursor`. */
  function TransmitsFrom(c: Config, p: Port, cursor: nat): Transmission {
    var first := ReadAt(c, cursor);
    Transmits(c, p, first, cursor + |first|)
  }

  /** The loop ends like `end`; the trigger keeps the verifier from unfolding it turn by turn. */
  ghost predicate LoopEnds(c: Config, p: Port, chunk: Bytes, cursor: nat, end: Transmission) {
    forall q {:trigger Transmits(c, q, chunk, cursor)} :: q == p ==> Transmits(c, q, chunk, cursor) == end
  }

  lemma LoopStarts(c: Config, p: Port, cursor: nat)
    ensures var chunk := ReadAt(c, cursor); LoopEnds(c, p, chunk, cursor + |chunk|, TransmitsFrom(c, p, cursor))
  {
  }

  lemma LoopTurns(c: Config, p: Port, chunk: Bytes, cursor: nat, end: Transmission)
    requires LoopEnds(c, p, chunk, cursor, end)
    ensures chunk == [] ==> end == Transmission(None, p, cursor)
    ensures chunk != [] ==>
              var d, next := Delivers(c, p, chunk), ReadAt(c, cursor);
              if d.fault.None? then LoopEnds(c, d.port, next, cursor + |next|, end)
                  else end == Transmission(d.fault, d.port, cursor)
  {
    assert Transmits(c, p, chunk, cursor) == end;
  }

  /** One more session after one that has broken. */
  function SenderRetries(c: Config, p: Port): Transmission {
    var again := SenderOpens(c, p, false);
    if again.fault.Some? then again else TransmitsFrom(c, again.port, again.cursor)
  }

  /** The two sessions of a call; no fault means that the last one was read to its end. */
  function SenderSessions(c: Config, p: Port, cursor: nat): Transmission {
    var broken := TransmitsFrom(c, p, cursor);
    if broken.fault.None? then broken else SenderRetries(c, broken.port)
  }

  /** The rest of a call once its first session is open. */
  function SenderEnds(c: Config, p: Port, cursor: nat): Outcome {
    var last := SenderSessions(c, p, cursor);
    if last.fault.Some? then GaveUp
    else if Sent(c, last.port, End).fault.Some? then Escaped
    else Completed
  }

  /** How `send_data` ends, given that the shard is there. */
  function SenderOutcome(c: Config, p: Port, isNew: bool): Outcome {
    var first := SenderOpens(c, p, isNew);
    if first.fault.Some? then Escaped else SenderEnds(c, first.port, first.cursor)
  }

  // ----- when an exception escapes, and the request stays in the ledger

  /** Opening the first session raises, or it breaks and the reconnect raises anything but a socket error. */
  predicate ReceiverEscapes(c: Config, p: Port, file: Option<Bytes>) {
    var first := ReceiverOpens(c, p, file);
    first.fault.Some? ||
    (var broken := Receives(c, first.port, first.file.value);
     broken.fault.Some? && ReceiverOpens(c, broken.port, broken.file).fault == Some(OtherError))
  }

  lemma SessionsEscapeIff(c: Config, p: Port, file: Bytes)
    ensures var broken := Receives(c, p, file);
            ReceiverSessions(c, p, file).Escaped? <==>
              broken.fault.Some? && ReceiverOpens(c, broken.port, broken.file).fault == Some(OtherError)
  {
  }

  lemma ReceiverEscapesIff(c: Config, p: Port, file: Option<Bytes>)
    ensures ReceiverOutcome(c, p, file).Escaped? <==> ReceiverEscapes(c, p, file)
  {
    var first := ReceiverOpens(c, p, file);
    if first.fault.None? {
      SessionsEscapeIff(c, first.port, first.file.value);
    }
  }

  /** Opening the first session raises, or everything was transmitted and sending END raises. */
  predicate SenderEscapes(c: Config, p: Port, isNew: bool) {
    var first := SenderOpens(c, p, isNew);
    first.fault.Some? ||
    (var last := SenderSessions(c, first.port, first.cursor);
     last.fault.None? && Sent(c, last.port, End).fault.Some?)
  }

  lemma SenderEscapesIff(c: Config, p: Port, isNew: bool)
    ensures SenderOutcome(c, p, isNew).Escaped? <==> SenderEscapes(c, p, isNew)
  {
  }
}
