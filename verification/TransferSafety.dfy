/**
 Safety of the transfer over every run: the stored shard is always a prefix of the source, and
 `done_uploading` is reported only for the whole source, whatever frames, sessions, partial writes
 and processes are lost on the way.
 */
module TransferSafety {
  import opened Wrappers
  import opened TransferProtocol

  /** `part` sits in `whole` at index `i`. */
  ghost predicate Part(whole: Bytes, i: nat, part: Bytes) {
    i + |part| <= |whole| && forall k :: 0 <= k < |part| ==> part[k] == whole[i + k]
  }

  lemma PartConcat(whole: Bytes, i: nat, a: Bytes, b: Bytes)
    requires Part(whole, i, a) && Part(whole, i + |a|, b)
    ensures Part(whole, i, a + b)
  {
  }

  lemma PartTake(whole: Bytes, i: nat, a: Bytes, k: nat)
    requires Part(whole, i, a) && k <= |a|
    ensures Part(whole, i, a[..k])
  {
  }

  lemma PartWhole(whole: Bytes, part: Bytes)
    requires Part(whole, 0, part) && |part| == |whole|
    ensures part == whole
  {
  }

  // ----- reading the wire

  predicate HasStart(q: seq<Frame>) {
    q != [] && q[0].Start?
  }

  /** The frame in flight, not counting an opening frame ahead of it. */
  function Behind(q: seq<Frame>): Option<Frame> {
    if HasStart(q) then (if |q| > 1 then Some(q[1]) else None)
    else if |q| > 0 then Some(q[0]) else None
  }

  /** At most one frame, and at most one opening frame ahead of it. */
  predicate Short(q: seq<Frame>) {
    |q| <= (if HasStart(q) then 2 else 1) && Behind(q) != Some(Start)
  }

  predicate DataIn(q: seq<Frame>) {
    Behind(q).Some? && Behind(q).value.Data?
  }

  predicate EndIn(q: seq<Frame>) {
    Behind(q) == Some(End)
  }

  predicate AckIn(q: seq<Frame>) {
    Behind(q) == Some(Ack)
  }

  predicate ResumeIn(q: seq<Frame>) {
    Behind(q).Some? && Behind(q).value.Resume?
  }

  /** The payload in flight. */
  function Stream(q: seq<Frame>): Bytes {
    if DataIn(q) then Behind(q).value.payload else []
  }

  /** The chunk taken from the wire and not yet in the file. */
  function Pending(pc: ReceiverPc): Bytes {
    if pc.RAck? || pc.RWrite? then pc.chunk else []
  }

  predicate Opened(pc: ReceiverPc) {
    pc.RRecv? || pc.RAck? || pc.RWrite? || pc.RLate?
  }

  predicate Streaming(pc: SenderPc) {
    pc.SRead? || pc.SSend? || pc.SAck? || pc.SEnd? || pc.SDone?
  }

  /** The receiver takes part, or can still take part, in the current session. */
  predicate Attached(s: State) {
    Opened(s.receiver.pc) || s.receiver.pc.ROpen? || HasStart(s.link.down)
  }

  /** The offset the receiver will have reached once everything in flight is stored. */
  function Position(s: State): nat {
    (if Opened(s.receiver.pc) then |Content(s.receiver)| + |Pending(s.receiver.pc)| else 0) + |Stream(s.link.down)|
  }

  /** How many data frames the sender has no acknowledgement for, among those still alive. */
  function Outstanding(s: State): nat {
    (if DataIn(s.link.down) then 1 else 0)
    + (if s.receiver.pc.RAck? || s.receiver.pc.RLate? then 1 else 0)
    + (if AckIn(s.link.up) then 1 else 0)
  }

  // ----- the invariant

  /** What is stored, and what each side holds in memory. */
  ghost predicate Stored(c: Config, s: State) {
    && Part(c.source, 0, Content(s.receiver))
    && s.receiver.synced <= |Content(s.receiver)|
    && (s.call.Idle? ==> NodeOff(c, s))
    && (Streaming(s.sender.pc) ==> s.sender.cursor <= |c.source|)
    && (s.sender.pc.SSend? ==>
          && 0 < |s.sender.pc.chunk| <= Min(c.chunk, s.sender.cursor)
          && Part(c.source, s.sender.cursor - |s.sender.pc.chunk|, s.sender.pc.chunk))
    && (s.tally.reported ==>
          Content(s.receiver) == c.source && s.receiver.synced == |c.source| && s.receiver.file.Some?)
    && (c.role.NodeReceives? ==> !s.receiver.pc.RLate?)
    && (c.role.NodeSends? ==> !s.tally.reported)
    && (c.role.NodeReceives? && s.fromZero && (s.receiver.pc.RStart? || s.receiver.pc.ROpen?) ==> s.receiver.file.None?)
    && (s.sender.pc.SDone? ==> s.sender.cursor == |c.source|)
    && (s.sender.pc.SEnd? ==> s.sender.cursor == |c.source|)
    && (Opened(s.receiver.pc) || s.receiver.pc.RDone? ==> s.receiver.file.Some?)
  }

  /** At most one frame per direction behind an opening frame, and never more than one chunk unacknowledged. */
  ghost predicate Wired(c: Config, s: State) {
    && Short(s.link.down) && Short(s.link.up)
    && (Behind(s.link.down).Some? ==> DataIn(s.link.down) || EndIn(s.link.down))
    && (Behind(s.link.up).Some? ==> AckIn(s.link.up) || ResumeIn(s.link.up))
    && (EndIn(s.link.down) && Streaming(s.sender.pc) ==> s.sender.pc.SDone?)
    && (DataIn(s.link.down) ==> 0 < |Stream(s.link.down)| <= c.chunk)
    && |Pending(s.receiver.pc)| <= c.chunk
    && (ResumeIn(s.link.up) ==> Behind(s.link.up).value.offset <= |c.source|)
    && Outstanding(s) <= 1
    && (Streaming(s.sender.pc) && !s.sender.pc.SAck? ==> Outstanding(s) == 0)
    && (if c.role.NodeReceives? then !HasStart(s.link.down) else !HasStart(s.link.up))
  }

  /** The handshake, while the opening frame or the resume frame is awaited. */
  ghost predicate Shaken(c: Config, s: State) {
    && (HasStart(s.link.up) ==>
          && s.link.down == [] && !AckIn(s.link.up)
          && (s.sender.pc.SOff? || s.sender.pc.SStart?)
          && !s.receiver.pc.RAck? && !s.receiver.pc.RWrite? && !s.receiver.pc.RDone?
          && (s.fromZero && Opened(s.receiver.pc) ==> Content(s.receiver) == []))
    && (HasStart(s.link.down) ==>
          && s.link.up == [] && (s.receiver.pc.ROff? || s.receiver.pc.RStart?)
          && (s.sender.pc.SResume? ==> Behind(s.link.down).None?))
    && (s.sender.pc.SResume? ==>
          && !s.fromZero && Behind(s.link.down).None? && !AckIn(s.link.up)
          && !s.receiver.pc.RAck? && !s.receiver.pc.RWrite? && !s.receiver.pc.RLate? && !s.receiver.pc.RDone?)
    && (c.role.NodeSends? && s.sender.pc.SStart? ==>
          s.link == Link([], []) && (s.receiver.pc.ROff? || s.receiver.pc.RStart?))
    && (c.role.NodeReceives? && s.receiver.pc.RStart? ==>
          s.link == Link([], []) && (s.sender.pc.SOff? || s.sender.pc.SStart?))
    && (s.receiver.pc.ROpen? ==> Behind(s.link.up).None?)
    && (ResumeIn(s.link.up) ==>
          && !s.fromZero && !Streaming(s.sender.pc) && Behind(s.link.down).None?
          && (Opened(s.receiver.pc) ==>
                s.receiver.pc.RRecv? && Behind(s.link.up).value.offset == |Content(s.receiver)|))
  }

  /** What the receiver holds, plus what is in flight, continues the source. */
  ghost predicate Flowing(c: Config, s: State) {
    && (Opened(s.receiver.pc) ==>
          && Part(c.source, |Content(s.receiver)|, Pending(s.receiver.pc))
          && Part(c.source, |Content(s.receiver)| + |Pending(s.receiver.pc)|, Stream(s.link.down))
          && (EndIn(s.link.down) ==> Position(s) == |c.source|))
    && (s.receiver.pc.ROpen? || HasStart(s.link.down) ==>
          && (Behind(s.link.down).Some? ==> s.fromZero)
          && Part(c.source, 0, Stream(s.link.down))
          && (EndIn(s.link.down) ==> c.source == []))
    && (s.receiver.pc.RDone? ==> Content(s.receiver) == c.source)
  }

  /** Where the sender stands relative to an attached receiver. */
  ghost predicate InStep(c: Config, s: State) {
    Attached(s) && Streaming(s.sender.pc) ==>
      && (!Opened(s.receiver.pc) ==> s.fromZero)
      && match s.sender.pc
         case SSend(chunk) => s.sender.cursor == Position(s) + |chunk|
         case SAck => Position(s) <= s.sender.cursor <= Position(s) + c.chunk
                      && (Outstanding(s) == 1 ==> s.sender.cursor == Position(s))
         case _ => s.sender.cursor == Position(s)
  }

  ghost predicate Inv(c: Config, s: State) {
    ValidConfig(c) && Stored(c, s) && Wired(c, s) && Shaken(c, s) && Flowing(c, s) && InStep(c, s)
  }

  /** Where a run may start: nothing, or a closed file that is a prefix of the source. */
  ghost predicate Startable(c: Config, s: State) {
    ValidConfig(c) && exists file :: s == Initial(file) && Content(Receiver(ROff, file, 0)) <= c.source
  }

  lemma StartableInv(c: Config, s: State)
    requires Startable(c, s)
    ensures Inv(c, s)
  {
  }

  // ----- every step keeps it

  /** A side that leaves the session, or joins anew, takes nothing the other side relies on with it. */
  lemma SenderLeaves(c: Config, s: State, s': State)
    requires Inv(c, s) && (s'.sender.pc.SOff? || (c.role.NodeReceives? && s'.sender.pc.SStart?))
    requires s'.receiver == s.receiver && s'.link == s.link && s'.fromZero == s.fromZero
    requires s'.tally.reported == s.tally.reported && (c.role.NodeReceives? ==> s'.call == s.call)
    ensures Inv(c, s')
  {
  }

  lemma ReceiverLeaves(c: Config, s: State, s': State)
    requires Inv(c, s) && (s'.receiver.pc.ROff? || (c.role.NodeSends? && s'.receiver.pc.RStart?))
             && s'.receiver.synced <= |Content(s'.receiver)|
    requires Part(c.source, 0, Content(s'.receiver))
    requires s'.sender == s.sender && s'.link == s.link && s'.fromZero == s.fromZero
    requires s'.tally.reported ==>
               c.role.NodeReceives? && s'.receiver.file == Some(c.source) && s'.receiver.synced == |c.source|
    requires c.role.NodeSends? ==> s'.call == s.call
    ensures Inv(c, s')
  {
  }

  ghost predicate Fewer(q: seq<Frame>, q': seq<Frame>) {
    Short(q') && |q'| < |q| && (HasStart(q') ==> HasStart(q)) && (Behind(q').None? || Behind(q') == Behind(q))
  }

  lemma DownFrameLost(c: Config, s: State, s': State)
    requires Inv(c, s) && s'.sender == s.sender && s'.receiver == s.receiver && s'.fromZero == s.fromZero
    requires s'.tally.reported == s.tally.reported && s'.call == s.call && s'.link.up == s.link.up
    requires Fewer(s.link.down, s'.link.down)
    ensures Inv(c, s')
  {
    assert Stored(c, s');
    assert Wired(c, s') && Outstanding(s') <= Outstanding(s) && Position(s') <= Position(s);
    assert Shaken(c, s') && Flowing(c, s');
  }

  lemma UpFrameLost(c: Config, s: State, s': State)
    requires Inv(c, s) && s'.sender == s.sender && s'.receiver == s.receiver && s'.fromZero == s.fromZero
    requires s'.tally.reported == s.tally.reported && s'.call == s.call && s'.link.down == s.link.down
    requires Fewer(s.link.up, s'.link.up)
    ensures Inv(c, s')
  {
    if Behind(s'.link.up).None? {
      assert !AckIn(s'.link.up) && !ResumeIn(s'.link.up);
    } else {
      assert Behind(s'.link.up) == Behind(s.link.up);
    }
  }

  /** A chunk that is written, acknowledged or not, moves from memory into the file. */
  lemma ChunkStored(c: Config, s: State, s': State)
    requires Inv(c, s) && s' == s.(receiver := s'.receiver)
    requires s'.receiver.file == Some(Content(s.receiver) + Pending(s.receiver.pc))
             && s'.receiver.synced == s.receiver.synced
    requires (s.receiver.pc.RWrite? && s'.receiver.pc.RRecv?)
          || (c.role.NodeSends? && s.receiver.pc.RAck? && s'.receiver.pc.RLate?)
    ensures Inv(c, s')
  {
    PartConcat(c.source, 0, Content(s.receiver), s.receiver.pc.chunk);
    assert Stored(c, s') && Wired(c, s');
    assert Position(s') == Position(s) && Outstanding(s') == Outstanding(s);
    assert Shaken(c, s') && Flowing(c, s');
  }

  lemma SenderEmitStartKeepsInv(c: Config, s: State, s': State)
    requires Inv(c, s) && SenderOwns(c, EmitStart) && Next(c, s, EmitStart) == Some(s')
    ensures Inv(c, s')
  {
  }

  lemma SenderTakeStartKeepsInv(c: Config, s: State, s': State)
    requires Inv(c, s) && SenderOwns(c, TakeStart) && Next(c, s, TakeStart) == Some(s')
    ensures Inv(c, s')
  {
  }

  lemma TakeResumeKeepsInv(c: Config, s: State, s': State)
    requires Inv(c, s) && Next(c, s, TakeResume) == Some(s')
    ensures Inv(c, s')
  {
  }

  lemma ChunkRead(c: Config, s: State, s': State)
    requires Inv(c, s) && s.sender.pc.SRead? && s' == s.(sender := s'.sender)
    requires s'.sender.pc.SEnd? || s'.sender.pc.SSend?
    requires s'.sender.pc.SEnd? ==> s'.sender.cursor == s.sender.cursor == |c.source|
    requires s'.sender.pc.SSend? ==>
               && 0 < |s'.sender.pc.chunk| <= c.chunk && s'.sender.cursor == s.sender.cursor + |s'.sender.pc.chunk|
               && Part(c.source, s.sender.cursor, s'.sender.pc.chunk)
    ensures Inv(c, s')
  {
    assert Stored(c, s');
    assert Wired(c, s') && Shaken(c, s');
    assert Flowing(c, s');
  }

  lemma ReadChunkKeepsInv(c: Config, s: State, n: nat, s': State)
    requires Inv(c, s) && Next(c, s, ReadChunk(n)) == Some(s')
    ensures Inv(c, s')
  {
    assert s'.tally == s.tally;
    ChunkRead(c, s, s');
  }

  /** A sender that is not waiting has nothing in flight; its frame goes behind at most an opening frame. */
  lemma FramePut(c: Config, s: State, frame: Frame)
    requires Wired(c, s) && Streaming(s.sender.pc) && !s.sender.pc.SAck? && !s.sender.pc.SDone? && !frame.Start?
    ensures Outstanding(s) == 0 && Behind(s.link.down).None? && Stream(s.link.down) == []
    ensures var q := s.link.down + [frame];
            Short(q) && Behind(q) == Some(frame) && (HasStart(q) <==> HasStart(s.link.down))
  {
  }

  lemma SendDataKeepsInv(c: Config, s: State, s': State)
    requires Inv(c, s) && Next(c, s, SendData) == Some(s')
    ensures Inv(c, s')
  {
    FramePut(c, s, Data(s.sender.pc.chunk));
    assert s'.receiver == s.receiver && s'.link.up == s.link.up && Stored(c, s');
    assert Wired(c, s') && Shaken(c, s');
    assert Flowing(c, s');
  }

  lemma TakeAckKeepsInv(c: Config, s: State, s': State)
    requires Inv(c, s) && Next(c, s, TakeAck) == Some(s')
    ensures Inv(c, s')
  {
  }

  lemma EndFlows(c: Config, s: State, s': State)
    requires Flowing(c, s) && s'.receiver == s.receiver && Stream(s'.link.down) == Stream(s.link.down)
    requires HasStart(s'.link.down) == HasStart(s.link.down) && EndIn(s'.link.down)
    requires s.receiver.pc.ROpen? || HasStart(s.link.down) ==> s.fromZero && s'.fromZero && c.source == []
    requires Opened(s.receiver.pc) ==> Position(s) == |c.source|
    ensures Flowing(c, s')
  {
  }

  lemma SendEndKeepsInv(c: Config, s: State, s': State)
    requires Inv(c, s) && Next(c, s, SendEnd) == Some(s')
    ensures Inv(c, s')
  {
    FramePut(c, s, End);
    assert s.sender.cursor == |c.source| && (Attached(s) ==> Position(s) == |c.source|);
    EndFlows(c, s, s');
    assert Stored(c, s');
    assert Wired(c, s') && Shaken(c, s');
  }

  lemma SenderFailKeepsInv(c: Config, s: State, s': State)
    requires Inv(c, s) && Next(c, s, SenderFail) == Some(s')
    ensures Inv(c, s')
  {
    SenderLeaves(c, s, s');
  }

  lemma ReceiverEmitStartKeepsInv(c: Config, s: State, s': State)
    requires Inv(c, s) && ReceiverOwns(c, EmitStart) && Next(c, s, EmitStart) == Some(s')
    ensures Inv(c, s')
  {
  }

  lemma StartTaken(c: Config, s: State, s': State)
    requires Inv(c, s) && c.role.NodeSends? && s.receiver.pc.RStart? && HasStart(s.link.down)
    requires s' == s.(receiver := s.receiver.(pc := ROpen), link := s.link.(down := s.link.down[1..]))
    ensures Inv(c, s')
  {
    assert Behind(s'.link.down) == Behind(s.link.down) && !HasStart(s'.link.down);
    assert Stored(c, s') && Wired(c, s');
    assert Shaken(c, s') && Flowing(c, s');
  }

  lemma ReceiverTakeStartKeepsInv(c: Config, s: State, s': State)
    requires Inv(c, s) && ReceiverOwns(c, TakeStart) && Next(c, s, TakeStart) == Some(s')
    ensures Inv(c, s')
  {
    assert s'.tally == s.tally;
    if HasStart(s.link.down) {
      StartTaken(c, s, s');
    } else {
      var lost := s.(link := s'.link);
      DownFrameLost(c, s, lost);
      assert s'.receiver.file == s.receiver.file;
      ReceiverLeaves(c, lost, s');
    }
  }

  lemma OpenFileKeepsInv(c: Config, s: State, s': State)
    requires Inv(c, s) && Next(c, s, OpenFile) == Some(s')
    ensures Inv(c, s')
  {
  }

  lemma TakeFrameKeepsInv(c: Config, s: State, s': State)
    requires Inv(c, s) && Next(c, s, TakeFrame) == Some(s')
    ensures Inv(c, s')
  {
    assert Behind(s.link.down) == Some(s.link.down[0]) && s'.link.down == [];
    assert Stored(c, s') && Wired(c, s');
    assert Shaken(c, s') && Flowing(c, s');
  }

  lemma SendAckKeepsInv(c: Config, s: State, s': State)
    requires Inv(c, s) && Next(c, s, SendAck) == Some(s')
    ensures Inv(c, s')
  {
  }

  lemma WriteAllKeepsInv(c: Config, s: State, s': State)
    requires Inv(c, s) && Next(c, s, WriteAll) == Some(s')
    ensures Inv(c, s')
  {
    ChunkStored(c, s, s');
  }

  lemma WriteSomeKeepsInv(c: Config, s: State, k: nat, s': State)
    requires Inv(c, s) && Next(c, s, WriteSome(k)) == Some(s')
    ensures Inv(c, s')
  {
    PartTake(c.source, |Content(s.receiver)|, s.receiver.pc.chunk, k);
    PartConcat(c.source, 0, Content(s.receiver), s.receiver.pc.chunk[..k]);
    if s.tally.reported {
      PartWhole(c.source, Content(s'.receiver));
    }
    ReceiverLeaves(c, s, s');
  }

  lemma WriteFirstKeepsInv(c: Config, s: State, s': State)
    requires Inv(c, s) && Next(c, s, WriteFirst) == Some(s')
    ensures Inv(c, s')
  {
    ChunkStored(c, s, s');
  }

  lemma LateAckKeepsInv(c: Config, s: State, s': State)
    requires Inv(c, s) && Next(c, s, LateAck) == Some(s')
    ensures Inv(c, s')
  {
  }

  lemma ReceiverFailKeepsInv(c: Config, s: State, s': State)
    requires Inv(c, s) && Next(c, s, ReceiverFail) == Some(s')
    ensures Inv(c, s')
  {
    ReceiverLeaves(c, s, s');
  }

  lemma BeginKeepsInv(c: Config, s: State, isNew: bool, s': State)
    requires Inv(c, s) && Next(c, s, Begin(isNew)) == Some(s')
    ensures Inv(c, s')
  {
  }

  lemma ResetKeepsInv(c: Config, s: State, s': State)
    requires Inv(c, s) && Next(c, s, Reset) == Some(s')
    ensures Inv(c, s')
  {
  }

  lemma FinishKeepsInv(c: Config, s: State, s': State)
    requires Inv(c, s) && Next(c, s, Finish) == Some(s')
    ensures Inv(c, s')
  {
    if c.role.NodeReceives? {
      ReceiverLeaves(c, s, s');
    } else {
      SenderLeaves(c, s, s');
    }
  }

  lemma ReceivingNodeCrashKeepsInv(c: Config, s: State, kept: nat, s': State)
    requires Inv(c, s) && c.role.NodeReceives? && Next(c, s, Crash(kept)) == Some(s')
    ensures Inv(c, s')
  {
    PartTake(c.source, 0, Content(s.receiver), kept);
    assert Content(s'.receiver) == Content(s.receiver)[..kept];
    if s.tally.reported {
      PartWhole(c.source, Content(s'.receiver));
    }
    ReceiverLeaves(c, s, s');
  }

  lemma SendingNodeCrashKeepsInv(c: Config, s: State, kept: nat, s': State)
    requires Inv(c, s) && c.role.NodeSends? && Next(c, s, Crash(kept)) == Some(s')
    ensures Inv(c, s')
  {
    SenderLeaves(c, s, s');
  }

  lemma CrashKeepsInv(c: Config, s: State, kept: nat, s': State)
    requires Inv(c, s) && Next(c, s, Crash(kept)) == Some(s')
    ensures Inv(c, s')
  {
    if c.role.NodeReceives? {
      ReceivingNodeCrashKeepsInv(c, s, kept, s');
    } else {
      SendingNodeCrashKeepsInv(c, s, kept, s');
    }
  }

  lemma PeerCrashKeepsInv(c: Config, s: State, kept: nat, s': State)
    requires Inv(c, s) && Next(c, s, PeerCrash(kept)) == Some(s')
    ensures Inv(c, s')
  {
    PartTake(c.source, 0, Content(s.receiver), kept);
    ReceiverLeaves(c, s, s');
  }

  lemma PeerJoinKeepsInv(c: Config, s: State, s': State)
    requires Inv(c, s) && Next(c, s, PeerJoin) == Some(s')
    ensures Inv(c, s')
  {
    if c.role.NodeReceives? {
      SenderLeaves(c, s, s');
    } else {
      ReceiverLeaves(c, s, s');
    }
  }

  /** Losing a frame loses the opening frame or the one behind it. */
  lemma DropShape(q: seq<Frame>, i: nat)
    requires i < |q| && Short(q)
    ensures Fewer(q, q[..i] + q[i + 1..])
  {
  }

  lemma DropDownKeepsInv(c: Config, s: State, i: nat, s': State)
    requires Inv(c, s) && Next(c, s, DropDown(i)) == Some(s')
    ensures Inv(c, s')
  {
    assert s'.link.down == s.link.down[..i] + s.link.down[i + 1..];
    DropShape(s.link.down, i);
    DownFrameLost(c, s, s');
  }

  lemma DropUpKeepsInv(c: Config, s: State, i: nat, s': State)
    requires Inv(c, s) && Next(c, s, DropUp(i)) == Some(s')
    ensures Inv(c, s')
  {
    assert s'.link.up == s.link.up[..i] + s.link.up[i + 1..];
    DropShape(s.link.up, i);
    UpFrameLost(c, s, s');
  }

  lemma SenderKeepsInv(c: Config, s: State, a: Action, s': State)
    requires Inv(c, s) && SenderOwns(c, a) && Next(c, s, a) == Some(s')
    ensures Inv(c, s')
  {
    match a
    case EmitStart => SenderEmitStartKeepsInv(c, s, s');
    case TakeStart => SenderTakeStartKeepsInv(c, s, s');
    case TakeResume => TakeResumeKeepsInv(c, s, s');
    case ReadChunk(n) => ReadChunkKeepsInv(c, s, n, s');
    case SendData => SendDataKeepsInv(c, s, s');
    case TakeAck => TakeAckKeepsInv(c, s, s');
    case SendEnd => SendEndKeepsInv(c, s, s');
    case SenderFail => SenderFailKeepsInv(c, s, s');
    case _ =>
  }

  lemma ReceiverKeepsInv(c: Config, s: State, a: Action, s': State)
    requires Inv(c, s) && ReceiverOwns(c, a) && Next(c, s, a) == Some(s')
    ensures Inv(c, s')
  {
    match a
    case EmitStart => ReceiverEmitStartKeepsInv(c, s, s');
    case TakeStart => ReceiverTakeStartKeepsInv(c, s, s');
    case OpenFile => OpenFileKeepsInv(c, s, s');
    case TakeFrame => TakeFrameKeepsInv(c, s, s');
    case SendAck => SendAckKeepsInv(c, s, s');
    case WriteAll => WriteAllKeepsInv(c, s, s');
    case WriteSome(k) => WriteSomeKeepsInv(c, s, k, s');
    case WriteFirst => WriteFirstKeepsInv(c, s, s');
    case LateAck => LateAckKeepsInv(c, s, s');
    case ReceiverFail => ReceiverFailKeepsInv(c, s, s');
    case _ =>
  }

  lemma ControlKeepsInv(c: Config, s: State, a: Action, s': State)
    requires Inv(c, s) && !SenderOwns(c, a) && !ReceiverOwns(c, a) && Next(c, s, a) == Some(s')
    ensures Inv(c, s')
  {
    match a
    case Begin(isNew) => BeginKeepsInv(c, s, isNew, s');
    case Reset => ResetKeepsInv(c, s, s');
    case Finish => FinishKeepsInv(c, s, s');
    case Crash(kept) => CrashKeepsInv(c, s, kept, s');
    case PeerCrash(kept) => PeerCrashKeepsInv(c, s, kept, s');
    case PeerJoin => PeerJoinKeepsInv(c, s, s');
    case DropDown(i) => DropDownKeepsInv(c, s, i, s');
    case DropUp(i) => DropUpKeepsInv(c, s, i, s');
    case _ =>
  }

  lemma NextKeepsInv(c: Config, s: State, a: Action, s': State)
    requires Inv(c, s) && Next(c, s, a) == Some(s')
    ensures Inv(c, s')
  {
    if SenderOwns(c, a) {
      SenderKeepsInv(c, s, a, s');
    } else if ReceiverOwns(c, a) {
      ReceiverKeepsInv(c, s, a, s');
    } else {
      ControlKeepsInv(c, s, a, s');
    }
  }

  // ----- over whole runs

  lemma {:induction false} RunKeepsInv(c: Config, s: State, run: seq<Action>, s': State)
    requires Inv(c, s) && Exec(c, s, run) == Some(s')
    ensures Inv(c, s')
    decreases |run|
  {
    if run != [] {
      var before := run[..|run| - 1];
      var mid := Exec(c, s, before).value;
      RunKeepsInv(c, s, before, mid);
      NextKeepsInv(c, mid, run[|run| - 1], s');
    }
  }

  /** In every reachable state of every run, what is stored is a prefix of the source. */
  lemma PrefixSafety(c: Config, s: State, run: seq<Action>, s': State)
    requires Startable(c, s) && Exec(c, s, run) == Some(s')
    ensures Content(s'.receiver) <= c.source
  {
    StartableInv(c, s);
    RunKeepsInv(c, s, run, s');
  }

  /**
   Once completion has been reported, the whole source is on disk, then and ever after, whatever
   later calls, sessions and crashes bring; and only a receiving node reports.
   */
  lemma CompletionSoundness(c: Config, s: State, run: seq<Action>, s': State)
    requires Startable(c, s) && Exec(c, s, run) == Some(s') && s'.tally.reported
    ensures s'.receiver.file == Some(c.source) && s'.receiver.synced == |c.source| && c.role.NodeReceives?
  {
    StartableInv(c, s);
    RunKeepsInv(c, s, run, s');
  }

  /** A receiver that has taken END, node or client, holds the whole source. */
  lemma DeliverySoundness(c: Config, s: State, run: seq<Action>, s': State)
    requires Startable(c, s) && Exec(c, s, run) == Some(s') && s'.receiver.pc.RDone?
    ensures s'.receiver.file == Some(c.source)
  {
    StartableInv(c, s);
    RunKeepsInv(c, s, run, s');
  }

  // ----- a file that was there before

  /** A receiving node only appends, and not even a crash takes bytes that were on disk before. */
  ghost predicate Keeps(c: Config, prior: Bytes, s: State) {
    && |prior| <= s.receiver.synced <= |Content(s.receiver)| && prior <= Content(s.receiver)
    && (s.fromZero && (s.receiver.pc.RStart? || s.receiver.pc.ROpen?) ==> s.receiver.file.None?)
  }

  lemma {:induction false} NodeOnlyAppends(c: Config, prior: Bytes, s: State, run: seq<Action>, s': State)
    requires c.role.NodeReceives? && Keeps(c, prior, s) && Exec(c, s, run) == Some(s')
    ensures Keeps(c, prior, s')
    decreases |run|
  {
    if run != [] {
      var before, last := run[..|run| - 1], run[|run| - 1];
      var mid := Exec(c, s, before).value;
      NodeOnlyAppends(c, prior, s, before, mid);
      StepAppends(c, prior, mid, last, s');
    }
  }

  lemma StepAppends(c: Config, prior: Bytes, s: State, a: Action, s': State)
    requires c.role.NodeReceives? && Keeps(c, prior, s) && Next(c, s, a) == Some(s')
    ensures Keeps(c, prior, s')
  {
  }

  /**
   The node never checks what a file already holds.  An upload over a file left on disk ends with
   the whole source if and only if that file was a prefix of it.
   */
  lemma UploadOverOldFile(c: Config, file: Option<Bytes>, run: seq<Action>, s': State)
    requires ValidConfig(c) && c.role.NodeReceives? && Exec(c, Initial(file), run) == Some(s') && s'.receiver.pc.RDone?
    ensures Content(s'.receiver) == c.source <==> Content(Initial(file).receiver) <= c.source
  {
    NodeOnlyAppends(c, Content(Initial(file).receiver), Initial(file), run, s');
    if Content(Initial(file).receiver) <= c.source {
      DeliverySoundness(c, Initial(file), run, s');
    }
  }

  /** And it does fail: an upload of the empty shard over a one-byte file is reported complete. */
  lemma OldFileReported() returns (c: Config, run: seq<Action>, s: State)
    ensures ValidConfig(c) && c.role.NodeReceives? && Exec(c, Initial(Some([7])), run) == Some(s)
    ensures s.tally.reported && s.receiver.file != Some(c.source)
  {
    c := Config(NodeReceives, [], 1);
    run, s := [], Initial(Some([7]));
    var i := 0;
    while i < 10
      invariant 0 <= i <= 10 && Exec(c, Initial(Some([7])), run) == Some(s) && OldFileAt(i, s)
    {
      ExecSnoc(c, Initial(Some([7])), run, OldFileScript(i));
      OldFileStep(c, i, s);
      run, s, i := run + [OldFileScript(i)], Next(c, s, OldFileScript(i)).value, i + 1;
    }
  }

  function OldFileScript(i: nat): Action
    requires i < 10
  {
    [Begin(false), EmitStart, PeerJoin, TakeStart, OpenFile, TakeResume, ReadChunk(0), SendEnd, TakeFrame, Finish][i]
  }

  lemma OldFileStep(c: Config, i: nat, s: State)
    requires c == Config(NodeReceives, [], 1) && i < 10 && OldFileAt(i, s)
    ensures var after := Next(c, s, OldFileScript(i)); after.Some? && OldFileAt(i + 1, after.value)
  {
  }

  ghost predicate OldFileAt(i: nat, s: State) {
    && (s.fromZero <==> i == 0)
    && s.call == (if i == 0 || i == 10 then Idle else Active(1))
    && s.receiver.file == Some([7])
    && s.receiver.pc == (if i == 0 || i == 10 then ROff else if i == 1 then RStart else if i < 5 then ROpen
         else if i < 9 then RRecv else RDone)
    && s.sender.pc == (if i < 3 then SOff else if i == 3 then SStart else if i < 6 then SResume
         else if i == 6 then SRead else if i == 7 then SEnd else SDone)
    && (i == 6 ==> s.sender.cursor == 1)
    && s.link.up == (if i == 2 || i == 3 then [Frame.Start] else if i == 5 then [Resume(1)] else [])
    && s.link.down == (if i == 8 then [End] else [])
    && (i == 10 ==> s.tally.reported)
  }
}
