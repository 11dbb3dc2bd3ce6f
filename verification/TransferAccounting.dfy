/**
 What a transfer costs: the exact stream of each session, how far the sender can run ahead of the
 file, and a conservation law for the bytes that are sent more than once.
 */
module TransferAccounting {
  import opened Wrappers
  import opened TransferProtocol
  import opened TransferSafety

  // ----- the stream of one session

  function Concat(chunks: seq<Bytes>): Bytes {
    if chunks == [] then [] else Concat(chunks[..|chunks| - 1]) + chunks[|chunks| - 1]
  }

  /** How many reads of at most `size` bytes it takes to read `length` bytes. */
  function Reads(length: nat, size: nat): (n: nat)
    requires size >= 1
    decreases length
  {
    if length == 0 then 0 else 1 + Reads(length - Min(size, length), size)
  }

  /** Every chunk is full, except that the last one of the file may be short. */
  ghost predicate FullChunks(c: Config, t: Tally) {
    forall i :: 0 <= i < |t.chunks| ==>
      |t.chunks[i]| == c.chunk || (i == |t.chunks| - 1 && 0 < |t.chunks[i]| < c.chunk && t.front == |c.source|)
  }

  /** The data frames of the current session, sent so far. */
  ghost predicate Streamed(c: Config, t: Tally) {
    && ValidConfig(c)
    && t.offset <= t.front <= |c.source|
    && Concat(t.chunks) == c.source[t.offset..t.front]
    && (c.role.NodeSends? ==>
          && FullChunks(c, t)
          && |t.chunks| + Reads(|c.source| - t.front, c.chunk) == Reads(|c.source| - t.offset, c.chunk))
  }

  lemma FreshStream(c: Config, t: Tally)
    requires ValidConfig(c) && t.chunks == [] && t.offset == t.front <= |c.source|
    ensures Streamed(c, t)
  {
  }

  lemma ChunkStreamed(c: Config, t: Tally, chunk: Bytes, t': Tally)
    requires Streamed(c, t) && 0 < |chunk| <= c.chunk && Part(c.source, t.front, chunk)
    requires c.role.NodeSends? ==> |chunk| == Min(c.chunk, |c.source| - t.front)
    requires t'.offset == t.offset && t'.front == t.front + |chunk| && t'.chunks == t.chunks + [chunk]
    ensures Streamed(c, t')
  {
    assert t'.chunks[..|t.chunks|] == t.chunks;
    assert c.source[t.offset..t.front] + c.source[t.front..t'.front] == c.source[t.offset..t'.front];
  }

  /** Nothing has been sent yet in this session, and something still can be. */
  predicate AtHandshake(c: Config, s: State) {
    || HasStart(s.link.up) || s.sender.pc.SResume? || ResumeIn(s.link.up)
    || (c.role.NodeSends? && s.sender.pc.SStart?) || (c.role.NodeReceives? && s.receiver.pc.RStart?)
    || (!s.fromZero && (s.receiver.pc.ROpen? || HasStart(s.link.down)))
  }

  function Last(t: Tally): Bytes {
    if t.chunks == [] then [] else t.chunks[|t.chunks| - 1]
  }

  /** The history follows the program counters and the wire. */
  ghost predicate Counted(c: Config, s: State) {
    var t := s.tally;
    && (Streaming(s.sender.pc) ==>
          && t.acked + (if s.sender.pc.SAck? then 1 else 0) == |t.chunks|
          && t.front + (if s.sender.pc.SSend? then |s.sender.pc.chunk| else 0) == s.sender.cursor)
    && (c.role.NodeSends? && s.sender.pc.SSend? ==>
          t.front <= |c.source| && |s.sender.pc.chunk| == Min(c.chunk, |c.source| - t.front))
    && (AtHandshake(c, s) ==> t.chunks == [] && t.acked == 0 && (s.fromZero ==> t.front == 0))
    && (t.sessions == 0 ==>
          && t.chunks == [] && s.link == Link([], [])
          && (s.receiver.pc.ROff? || (c.role.NodeSends? && s.receiver.pc.RStart?))
          && (s.sender.pc.SOff? || (c.role.NodeReceives? && s.sender.pc.SStart?)))
    && (DataIn(s.link.down) ==> t.chunks != [] && Stream(s.link.down) == Last(t))
    && (s.receiver.pc.RAck? ==> t.chunks != [] && s.receiver.pc.chunk == Last(t))
    && (s.receiver.pc.RLate? ==> t.chunks != [])
    && |Last(t)| <= c.chunk
  }

  lemma SendDataKeepsCount(c: Config, s: State, s': State)
    requires Stored(c, s) && Wired(c, s) && Shaken(c, s) && InStep(c, s) && Counted(c, s)
    requires Next(c, s, SendData) == Some(s')
    ensures Counted(c, s')
  {
    assert Behind(s'.link.down) == Some(Data(s.sender.pc.chunk));
  }

  lemma ShakingKeepsCount(c: Config, s: State, a: Action, s': State)
    requires Stored(c, s) && Wired(c, s) && Shaken(c, s) && Counted(c, s)
    requires SenderOwns(c, a) && (a.EmitStart? || a.TakeStart? || a.TakeResume?) && Next(c, s, a) == Some(s')
    ensures Counted(c, s')
  {
    assert s'.receiver == s.receiver;
  }

  lemma ReadingKeepsCount(c: Config, s: State, a: Action, s': State)
    requires Stored(c, s) && Wired(c, s) && Shaken(c, s) && Counted(c, s)
    requires SenderOwns(c, a) && (a.ReadChunk? || a.SendEnd?) && Next(c, s, a) == Some(s')
    ensures Counted(c, s')
  {
    assert s'.receiver == s.receiver;
  }

  lemma AckedKeepsCount(c: Config, s: State, a: Action, s': State)
    requires Stored(c, s) && Wired(c, s) && Shaken(c, s) && Counted(c, s)
    requires SenderOwns(c, a) && (a.TakeAck? || a.SenderFail?) && Next(c, s, a) == Some(s')
    ensures Counted(c, s')
  {
    assert s'.receiver == s.receiver;
  }

  lemma TakingKeepsCount(c: Config, s: State, a: Action, s': State)
    requires Wired(c, s) && Shaken(c, s) && Counted(c, s)
    requires (a.TakeStart? || a.TakeFrame?) && ReceiverOwns(c, a) && Next(c, s, a) == Some(s')
    ensures Counted(c, s')
  {
    assert Behind(s'.link.down) == (if s.link.down[0].Start? then Behind(s.link.down) else None);
  }

  lemma JoiningKeepsCount(c: Config, s: State, a: Action, s': State)
    requires Wired(c, s) && Shaken(c, s) && Counted(c, s)
    requires (a.EmitStart? || a.OpenFile?) && ReceiverOwns(c, a) && Next(c, s, a) == Some(s')
    ensures Counted(c, s')
  {
    assert s'.sender == s.sender && s'.link.down == s.link.down;
  }

  lemma AckingKeepsCount(c: Config, s: State, a: Action, s': State)
    requires Wired(c, s) && Shaken(c, s) && Counted(c, s)
    requires (a.SendAck? || a.LateAck?) && ReceiverOwns(c, a) && Next(c, s, a) == Some(s')
    ensures Counted(c, s')
  {
    assert s'.sender == s.sender && s'.link.down == s.link.down;
  }

  lemma WritingKeepsCount(c: Config, s: State, a: Action, s': State)
    requires Wired(c, s) && Shaken(c, s) && Counted(c, s)
    requires (a.WriteAll? || a.WriteFirst? || a.WriteSome? || a.ReceiverFail?) && ReceiverOwns(c, a)
             && Next(c, s, a) == Some(s')
    ensures Counted(c, s')
  {
    assert s'.sender == s.sender && s'.link.down == s.link.down;
  }

  lemma CallsKeepCount(c: Config, s: State, a: Action, s': State)
    requires Wired(c, s) && Shaken(c, s) && Counted(c, s)
    requires (a.Begin? || a.Reset? || a.Finish?) && Next(c, s, a) == Some(s')
    ensures Counted(c, s')
  {
  }

  lemma CrashesKeepCount(c: Config, s: State, a: Action, s': State)
    requires Wired(c, s) && Shaken(c, s) && Counted(c, s)
    requires (a.Crash? || a.PeerCrash?) && Next(c, s, a) == Some(s')
    ensures Counted(c, s')
  {
  }

  lemma JoinKeepsCount(c: Config, s: State, s': State)
    requires Wired(c, s) && Shaken(c, s) && Counted(c, s)
    requires Next(c, s, PeerJoin) == Some(s')
    ensures Counted(c, s')
  {
  }

  lemma LossKeepsCount(c: Config, s: State, s': State)
    requires Counted(c, s) && s'.sender == s.sender && s'.receiver == s.receiver && s'.fromZero == s.fromZero
    requires s'.tally == s.tally.(clean := false)
    requires s'.link.down == s.link.down || Fewer(s.link.down, s'.link.down)
    requires s'.link.up == s.link.up || Fewer(s.link.up, s'.link.up)
    ensures Counted(c, s')
  {
    assert AtHandshake(c, s') ==> AtHandshake(c, s);
  }

  lemma DropsKeepCount(c: Config, s: State, a: Action, s': State)
    requires Wired(c, s) && Counted(c, s)
    requires (a.DropDown? || a.DropUp?) && ControlStep(c, s, a) == Some(s')
    ensures Counted(c, s')
  {
    if a.DropDown? {
      DropShape(s.link.down, a.at);
    } else {
      DropShape(s.link.up, a.at);
    }
    LossKeepsCount(c, s, s');
  }

  lemma SenderKeepsCount(c: Config, s: State, a: Action, s': State)
    requires Inv(c, s) && Counted(c, s) && SenderOwns(c, a) && Next(c, s, a) == Some(s')
    ensures Counted(c, s')
  {
    match a
    case SendData => SendDataKeepsCount(c, s, s');
    case ReadChunk(_) | SendEnd => ReadingKeepsCount(c, s, a, s');
    case TakeAck | SenderFail => AckedKeepsCount(c, s, a, s');
    case _ => ShakingKeepsCount(c, s, a, s');
  }

  lemma ReceiverKeepsCount(c: Config, s: State, a: Action, s': State)
    requires Inv(c, s) && Counted(c, s) && ReceiverOwns(c, a) && Next(c, s, a) == Some(s')
    ensures Counted(c, s')
  {
    match a
    case TakeStart | TakeFrame => TakingKeepsCount(c, s, a, s');
    case EmitStart | OpenFile => JoiningKeepsCount(c, s, a, s');
    case SendAck | LateAck => AckingKeepsCount(c, s, a, s');
    case _ => WritingKeepsCount(c, s, a, s');
  }

  lemma NextKeepsCount(c: Config, s: State, a: Action, s': State)
    requires Inv(c, s) && Counted(c, s) && Next(c, s, a) == Some(s')
    ensures Counted(c, s')
  {
    if SenderOwns(c, a) {
      SenderKeepsCount(c, s, a, s');
    } else if ReceiverOwns(c, a) {
      ReceiverKeepsCount(c, s, a, s');
    } else {
      match a
      case Begin(_) | Reset | Finish => CallsKeepCount(c, s, a, s');
      case DropDown(_) | DropUp(_) => DropsKeepCount(c, s, a, s');
      case PeerJoin => JoinKeepsCount(c, s, s');
      case _ => CrashesKeepCount(c, s, a, s');
    }
  }

  ghost predicate SameStream(t: Tally, t': Tally) {
    t'.offset == t.offset && t'.front == t.front && t'.chunks == t.chunks
  }

  /** `sent` and the stream of the session grow by exactly the data frame that is put on the wire. */
  lemma SentCounts(c: Config, s: State, a: Action, s': State)
    requires Next(c, s, a) == Some(s')
    ensures !a.SendData? ==> s'.tally.sent == s.tally.sent
    ensures a.SendData? ==>
              exists chunk :: && s'.link.down == s.link.down + [Data(chunk)]
                              && s'.tally.sent == s.tally.sent + |chunk|
                              && s'.tally.chunks == s.tally.chunks + [chunk]
  {
    if SenderOwns(c, a) || ReceiverOwns(c, a) {
      assert s'.tally == Account(s, a);
      if a.SendData? {
        assert s'.link.down == s.link.down + [Data(s.sender.pc.chunk)];
      }
    } else {
      assert ControlStep(c, s, a) == Some(s');
    }
  }

  /** `lost` grows by exactly what a step takes from the file. */
  lemma LostCounts(c: Config, s: State, a: Action, s': State)
    requires Next(c, s, a) == Some(s')
    ensures var before, after := |Content(s.receiver)|, |Content(s'.receiver)|;
            s'.tally.lost == s.tally.lost + (if after < before then before - after else 0)
  {
    if SenderOwns(c, a) || ReceiverOwns(c, a) {
      assert s'.tally == Account(s, a);
    } else {
      assert ControlStep(c, s, a) == Some(s');
    }
  }

  lemma StreamedOn(c: Config, t: Tally, t': Tally)
    requires Streamed(c, t) && SameStream(t, t')
    ensures Streamed(c, t')
  {
  }

  lemma QuietEndpoints(c: Config, s: State, a: Action, s': State)
    requires Next(c, s, a) == Some(s') && (SenderOwns(c, a) || ReceiverOwns(c, a)) && !a.SendData? && !a.TakeResume?
    ensures SameStream(s.tally, s'.tally)
  {
    assert s'.tally == Account(s, a);
  }

  lemma QuietControl(c: Config, s: State, a: Action, s': State)
    requires ControlStep(c, s, a) == Some(s') && !a.Begin? && !a.Reset?
    ensures SameStream(s.tally, s'.tally)
  {
  }

  lemma SendDataKeepsStream(c: Config, s: State, s': State)
    requires ValidConfig(c) && Stored(c, s) && Counted(c, s) && Streamed(c, s.tally) && Next(c, s, SendData) == Some(s')
    ensures Streamed(c, s'.tally)
  {
    ChunkStreamed(c, s.tally, s.sender.pc.chunk, s'.tally);
  }

  lemma OpeningKeepsStream(c: Config, s: State, a: Action, s': State)
    requires ValidConfig(c) && Stored(c, s) && Wired(c, s) && Counted(c, s) && Streamed(c, s.tally)
    requires (a.TakeResume? || a.Begin? || a.Reset?) && Next(c, s, a) == Some(s')
    ensures Streamed(c, s'.tally)
  {
    if a.TakeResume? && !s.link.up[0].Resume? {
    } else {
      FreshStream(c, s'.tally);
    }
  }

  lemma NextKeepsStream(c: Config, s: State, a: Action, s': State)
    requires ValidConfig(c) && Stored(c, s) && Wired(c, s) && Counted(c, s) && Streamed(c, s.tally)
             && Next(c, s, a) == Some(s')
    ensures Streamed(c, s'.tally)
  {
    if a.SendData? {
      SendDataKeepsStream(c, s, s');
    } else if a.TakeResume? || a.Begin? || a.Reset? {
      OpeningKeepsStream(c, s, a, s');
    } else if SenderOwns(c, a) || ReceiverOwns(c, a) {
      QuietEndpoints(c, s, a, s');
      StreamedOn(c, s.tally, s'.tally);
    } else {
      QuietControl(c, s, a, s');
      StreamedOn(c, s.tally, s'.tally);
    }
  }

  // ----- bytes sent more than once

  /** What broken sessions may cost: one chunk each, and one more if an acknowledged chunk was not written. */
  function Waste(c: Config, t: Tally): nat {
    c.chunk * (t.broken + t.abandoned)
  }

  /** The size of a chunk that was sent and that the sender cannot know to have been taken. */
  function Unacked(s: State): nat {
    if s.tally.chunks == [] || (Streaming(s.sender.pc) && !s.sender.pc.SAck?) || (s.sender.pc.SAck? && AckIn(s.link.up))
    then 0 else |Last(s.tally)|
  }

  /** The size of a chunk acknowledged but not yet in the file. */
  function Unwritten(s: State): nat {
    if s.receiver.pc.RWrite? then |s.receiver.pc.chunk| else 0
  }

  /** The size of a chunk in the file but not yet acknowledged. */
  function Late(s: State): nat {
    if s.receiver.pc.RLate? then |Last(s.tally)| else 0
  }

  /** The receiver may still truncate the file because this session starts at byte zero. */
  predicate WillTruncate(c: Config, s: State) {
    s.fromZero && (s.receiver.pc.ROpen? || HasStart(s.link.down) || (c.role.NodeSends? && s.sender.pc.SStart?))
  }

  /** What the receiver gives up if it opens its file afresh. */
  function AtStake(s: State): nat {
    if s.tally.unopened then |Content(s.receiver)| else 0
  }

  /** Every payload byte sent beyond the first copy is matched by a lost byte or by `waste`. */
  ghost predicate Balanced(c: Config, o: nat, waste: nat, s: State) {
    var t := s.tally;
    && t.sent + o <= t.front + t.lost + waste + AtStake(s)
    && t.sent + o + Late(s) <= |Content(s.receiver)| + Unwritten(s) + t.lost + waste + Unacked(s)
    && (ResumeIn(s.link.up) ==> t.sent + o <= Behind(s.link.up).value.offset + t.lost + waste)
  }

  predicate MayReceive(c: Config, s: State) {
    Attached(s) || (c.role.NodeSends? && s.sender.pc.SStart?) || (c.role.NodeReceives? && s.receiver.pc.RStart?)
  }

  /** A session abandons at most one chunk, and its receiver takes no further part after that. */
  ghost predicate Torn(c: Config, s: State) {
    var t := s.tally;
    && t.abandoned <= t.broken + (if t.torn then 1 else 0)
    && (t.torn ==> |Content(s.receiver)| < |c.source|)
    && (s.receiver.pc.RAck? || s.receiver.pc.RWrite? ==> s.receiver.pc.chunk != [])
    && (MayReceive(c, s) ==> !t.torn && t.sessions > 0)
    && (t.sessions == 0 ==> t.abandoned == 0 && !t.torn && !t.unopened)
    && (t.unopened ==> s.fromZero && !Opened(s.receiver.pc) && !s.receiver.pc.RDone?)
    && (WillTruncate(c, s) || (s.fromZero && c.role.NodeReceives? && s.receiver.pc.RStart?) ==> t.unopened)
  }

  /** How many more chunks may be wasted after a step. */
  function Breaks(t: Tally, t': Tally): int {
    t'.broken + t'.abandoned - t.broken - t.abandoned
  }

  function Cost(c: Config, t: Tally, t': Tally): nat {
    match Breaks(t, t') case 1 => c.chunk case 2 => 2 * c.chunk case _ => 0
  }

  lemma WasteGrows(c: Config, t: Tally, t': Tally)
    requires 0 <= Breaks(t, t') <= 2
    ensures Waste(c, t') == Waste(c, t) + Cost(c, t, t')
  {
    var e, d := t.broken + t.abandoned, Breaks(t, t');
    assert c.chunk * (e + d) == c.chunk * e + c.chunk * d;
  }

  lemma SendDataKeepsBalance(c: Config, o: nat, waste: nat, s: State, s': State)
    requires Inv(c, s) && Counted(c, s) && Balanced(c, o, waste, s) && Torn(c, s)
    requires Next(c, s, SendData) == Some(s')
    ensures Torn(c, s') && 0 <= Breaks(s.tally, s'.tally) <= 2
    ensures Balanced(c, o, waste + Cost(c, s.tally, s'.tally), s')
  {
  }

  lemma ReadingKeepsBalance(c: Config, o: nat, waste: nat, s: State, a: Action, s': State)
    requires Inv(c, s) && Counted(c, s) && Balanced(c, o, waste, s) && Torn(c, s)
    requires SenderOwns(c, a) && Next(c, s, a) == Some(s')
    requires a.ReadChunk? || a.SendEnd?
    ensures Torn(c, s') && 0 <= Breaks(s.tally, s'.tally) <= 2
    ensures Balanced(c, o, waste + Cost(c, s.tally, s'.tally), s')
  {
  }

  lemma AckedKeepsBalance(c: Config, o: nat, waste: nat, s: State, a: Action, s': State)
    requires Inv(c, s) && Counted(c, s) && Balanced(c, o, waste, s) && Torn(c, s)
    requires SenderOwns(c, a) && Next(c, s, a) == Some(s')
    requires a.TakeAck? || a.SenderFail?
    ensures Torn(c, s') && 0 <= Breaks(s.tally, s'.tally) <= 2
    ensures Balanced(c, o, waste + Cost(c, s.tally, s'.tally), s')
  {
  }

  lemma ShakingKeepsBalance(c: Config, o: nat, waste: nat, s: State, a: Action, s': State)
    requires Inv(c, s) && Counted(c, s) && Balanced(c, o, waste, s) && Torn(c, s)
    requires SenderOwns(c, a) && Next(c, s, a) == Some(s')
    requires a.EmitStart? || a.TakeStart? || a.TakeResume?
    ensures Torn(c, s') && 0 <= Breaks(s.tally, s'.tally) <= 2
    ensures Balanced(c, o, waste + Cost(c, s.tally, s'.tally), s')
  {
  }

  lemma WriteSomeKeepsBalance(c: Config, o: nat, waste: nat, s: State, k: nat, s': State)
    requires Wired(c, s) && Shaken(c, s) && Flowing(c, s) && Counted(c, s) && Balanced(c, o, waste, s) && Torn(c, s)
    requires Next(c, s, WriteSome(k)) == Some(s')
    ensures Torn(c, s') && 0 <= Breaks(s.tally, s'.tally) <= 2
    ensures Balanced(c, o, waste + Cost(c, s.tally, s'.tally), s')
  {
  }

  lemma AckingKeepsBalance(c: Config, o: nat, waste: nat, s: State, a: Action, s': State)
    requires Inv(c, s) && Counted(c, s) && Balanced(c, o, waste, s) && Torn(c, s)
    requires ReceiverOwns(c, a) && Next(c, s, a) == Some(s')
    requires a.SendAck? || a.LateAck? || a.WriteFirst?
    ensures Torn(c, s') && 0 <= Breaks(s.tally, s'.tally) <= 2
    ensures Balanced(c, o, waste + Cost(c, s.tally, s'.tally), s')
  {
  }

  lemma TakeFrameKeepsBalance(c: Config, o: nat, waste: nat, s: State, s': State)
    requires Inv(c, s) && Counted(c, s) && Balanced(c, o, waste, s) && Torn(c, s)
    requires Next(c, s, TakeFrame) == Some(s')
    ensures Torn(c, s') && Breaks(s.tally, s'.tally) == 0 && Balanced(c, o, waste, s')
  {
  }

  lemma WriteAllKeepsBalance(c: Config, o: nat, waste: nat, s: State, s': State)
    requires Inv(c, s) && Counted(c, s) && Balanced(c, o, waste, s) && Torn(c, s)
    requires Next(c, s, WriteAll) == Some(s')
    ensures Torn(c, s') && Breaks(s.tally, s'.tally) == 0 && Balanced(c, o, waste, s')
  {
  }

  lemma ReceiverFailKeepsBalance(c: Config, o: nat, waste: nat, s: State, s': State)
    requires Inv(c, s) && Counted(c, s) && Balanced(c, o, waste, s) && Torn(c, s)
    requires Next(c, s, ReceiverFail) == Some(s')
    ensures Torn(c, s') && Breaks(s.tally, s'.tally) == 0 && Balanced(c, o, waste, s')
  {
  }

  lemma JoiningKeepsBalance(c: Config, o: nat, waste: nat, s: State, a: Action, s': State)
    requires Inv(c, s) && Counted(c, s) && Balanced(c, o, waste, s) && Torn(c, s)
    requires ReceiverOwns(c, a) && Next(c, s, a) == Some(s')
    requires a.EmitStart? || a.TakeStart? || a.OpenFile?
    ensures Torn(c, s') && 0 <= Breaks(s.tally, s'.tally) <= 2
    ensures Balanced(c, o, waste + Cost(c, s.tally, s'.tally), s')
  {
  }

  /**
   A new session forgets at most one unacknowledged and one unwritten chunk of the session before,
   and nothing at all if that one left the whole source.
   */
  lemma OpeningKeepsBalance(c: Config, o: nat, waste: nat, s: State, a: Action, s': State)
    requires Stored(c, s) && Wired(c, s) && Flowing(c, s) && Counted(c, s) && Balanced(c, o, waste, s) && Torn(c, s)
    requires s.tally.front <= |c.source| && (a.Begin? || a.Reset?) && Next(c, s, a) == Some(s')
    ensures Torn(c, s') && 0 <= Breaks(s.tally, s'.tally) <= 2
    ensures Balanced(c, o, waste + Cost(c, s.tally, s'.tally), s')
  {
    assert Content(s.receiver) == c.source ==> !s.receiver.pc.RWrite? && !s.tally.torn;
    assert Content(s.receiver) != c.source ==> |Content(s.receiver)| <= |c.source|;
  }

  lemma TruncationKeepsBalance(c: Config, o: nat, waste: nat, s: State, kept: nat, s': State)
    requires Inv(c, s) && Counted(c, s) && Balanced(c, o, waste, s) && Torn(c, s) && kept <= |Content(s.receiver)|
    requires s'.sender == s.sender && s'.link == s.link && s'.fromZero == s.fromZero
    requires s'.receiver == Truncated(s, kept).receiver && s'.tally == Truncated(s, kept).tally.(clean := false)
    ensures Torn(c, s') && 0 <= Breaks(s.tally, s'.tally) <= 2
    ensures Balanced(c, o, waste + Cost(c, s.tally, s'.tally), s')
  {
  }

  lemma LeavingKeepsBalance(c: Config, o: nat, waste: nat, s: State, s': State)
    requires Wired(c, s) && Counted(c, s) && Balanced(c, o, waste, s) && Torn(c, s)
    requires s'.sender == s.sender.(pc := SOff) && s'.receiver == s.receiver && s'.link == s.link
             && s'.fromZero == s.fromZero
    requires s'.tally == s.tally.(clean := false)
    ensures Torn(c, s') && Breaks(s.tally, s'.tally) == 0 && Balanced(c, o, waste, s')
  {
  }

  lemma CrashKeepsBalance(c: Config, o: nat, waste: nat, s: State, a: Action, s': State)
    requires Inv(c, s) && Counted(c, s) && Balanced(c, o, waste, s) && Torn(c, s)
    requires (a.Crash? || a.PeerCrash?) && ControlStep(c, s, a) == Some(s')
    ensures Torn(c, s') && 0 <= Breaks(s.tally, s'.tally) <= 2
    ensures Balanced(c, o, waste + Cost(c, s.tally, s'.tally), s')
  {
    if a.Crash? && c.role.NodeSends? {
      LeavingKeepsBalance(c, o, waste, s, s');
    } else {
      TruncationKeepsBalance(c, o, waste, s, a.kept, s');
    }
  }

  lemma FinishKeepsBalance(c: Config, o: nat, waste: nat, s: State, s': State)
    requires Stored(c, s) && Wired(c, s) && Shaken(c, s) && Counted(c, s) && Balanced(c, o, waste, s) && Torn(c, s)
    requires Next(c, s, Finish) == Some(s')
    ensures Torn(c, s') && Breaks(s.tally, s'.tally) == 0 && Balanced(c, o, waste, s')
  {
  }

  lemma JoinKeepsBalance(c: Config, o: nat, waste: nat, s: State, s': State)
    requires Stored(c, s) && Wired(c, s) && Shaken(c, s) && Counted(c, s) && Balanced(c, o, waste, s) && Torn(c, s)
    requires Next(c, s, PeerJoin) == Some(s')
    ensures Torn(c, s') && Breaks(s.tally, s'.tally) == 0 && Balanced(c, o, waste, s')
  {
  }

  lemma LossKeepsBalance(c: Config, o: nat, waste: nat, s: State, s': State)
    requires Wired(c, s) && Counted(c, s) && Balanced(c, o, waste, s) && Torn(c, s)
    requires s'.sender == s.sender && s'.receiver == s.receiver && s'.fromZero == s.fromZero
    requires s'.tally == s.tally.(clean := false)
    requires s'.link.down == s.link.down || Fewer(s.link.down, s'.link.down)
    requires s'.link.up == s.link.up || Fewer(s.link.up, s'.link.up)
    ensures Torn(c, s') && Breaks(s.tally, s'.tally) == 0 && Balanced(c, o, waste, s')
  {
    assert AckIn(s'.link.up) ==> AckIn(s.link.up);
    assert Unacked(s) <= Unacked(s') && Late(s') == Late(s);
  }

  lemma DropKeepsBalance(c: Config, o: nat, waste: nat, s: State, a: Action, s': State)
    requires Wired(c, s) && Counted(c, s) && Balanced(c, o, waste, s) && Torn(c, s)
    requires (a.DropDown? || a.DropUp?) && ControlStep(c, s, a) == Some(s')
    ensures Torn(c, s') && Breaks(s.tally, s'.tally) == 0 && Balanced(c, o, waste, s')
  {
    if a.DropDown? {
      DropShape(s.link.down, a.at);
    } else {
      DropShape(s.link.up, a.at);
    }
    LossKeepsBalance(c, o, waste, s, s');
  }

  // ----- over whole runs

  ghost predicate Books(c: Config, o: nat, s: State) {
    Inv(c, s) && Counted(c, s) && Streamed(c, s.tally) && Torn(c, s) && Balanced(c, o, Waste(c, s.tally), s)
  }

  lemma SenderKeepsBalance(c: Config, o: nat, waste: nat, s: State, a: Action, s': State)
    requires Inv(c, s) && Counted(c, s) && Torn(c, s) && Balanced(c, o, waste, s) && Next(c, s, a) == Some(s')
    requires SenderOwns(c, a)
    ensures Torn(c, s') && 0 <= Breaks(s.tally, s'.tally) <= 2
    ensures Balanced(c, o, waste + Cost(c, s.tally, s'.tally), s')
  {
    match a
    case SendData => SendDataKeepsBalance(c, o, waste, s, s');
    case ReadChunk(_) | SendEnd => ReadingKeepsBalance(c, o, waste, s, a, s');
    case TakeAck | SenderFail => AckedKeepsBalance(c, o, waste, s, a, s');
    case _ => ShakingKeepsBalance(c, o, waste, s, a, s');
  }

  lemma ReceiverKeepsBalance(c: Config, o: nat, waste: nat, s: State, a: Action, s': State)
    requires Inv(c, s) && Counted(c, s) && Torn(c, s) && Balanced(c, o, waste, s) && Next(c, s, a) == Some(s')
    requires ReceiverOwns(c, a)
    ensures Torn(c, s') && 0 <= Breaks(s.tally, s'.tally) <= 2
    ensures Balanced(c, o, waste + Cost(c, s.tally, s'.tally), s')
  {
    match a
    case WriteSome(k) => WriteSomeKeepsBalance(c, o, waste, s, k, s');
    case SendAck | LateAck | WriteFirst => AckingKeepsBalance(c, o, waste, s, a, s');
    case TakeFrame => TakeFrameKeepsBalance(c, o, waste, s, s');
    case WriteAll => WriteAllKeepsBalance(c, o, waste, s, s');
    case ReceiverFail => ReceiverFailKeepsBalance(c, o, waste, s, s');
    case _ => JoiningKeepsBalance(c, o, waste, s, a, s');
  }

  lemma ControlKeepsBalance(c: Config, o: nat, waste: nat, s: State, a: Action, s': State)
    requires Inv(c, s) && Counted(c, s) && Streamed(c, s.tally) && Torn(c, s) && Balanced(c, o, waste, s)
    requires !SenderOwns(c, a) && !ReceiverOwns(c, a) && Next(c, s, a) == Some(s')
    ensures Torn(c, s') && 0 <= Breaks(s.tally, s'.tally) <= 2
    ensures Balanced(c, o, waste + Cost(c, s.tally, s'.tally), s')
  {
    match a
    case Begin(_) | Reset => OpeningKeepsBalance(c, o, waste, s, a, s');
    case Crash(_) | PeerCrash(_) => CrashKeepsBalance(c, o, waste, s, a, s');
    case DropDown(_) | DropUp(_) => DropKeepsBalance(c, o, waste, s, a, s');
    case Finish => FinishKeepsBalance(c, o, waste, s, s');
    case _ => JoinKeepsBalance(c, o, waste, s, s');
  }

  lemma NextKeepsBalance(c: Config, o: nat, waste: nat, s: State, a: Action, s': State)
    requires Inv(c, s) && Counted(c, s) && Streamed(c, s.tally) && Torn(c, s) && Balanced(c, o, waste, s)
             && Next(c, s, a) == Some(s')
    ensures Torn(c, s') && 0 <= Breaks(s.tally, s'.tally) <= 2
    ensures Balanced(c, o, waste + Cost(c, s.tally, s'.tally), s')
  {
    if SenderOwns(c, a) {
      SenderKeepsBalance(c, o, waste, s, a, s');
    } else if ReceiverOwns(c, a) {
      ReceiverKeepsBalance(c, o, waste, s, a, s');
    } else {
      ControlKeepsBalance(c, o, waste, s, a, s');
    }
  }

  lemma {:induction false} RunKeepsBooks(c: Config, o: nat, s: State, run: seq<Action>, s': State)
    requires Books(c, o, s) && Exec(c, s, run) == Some(s')
    ensures Books(c, o, s')
    decreases |run|
  {
    if run != [] {
      var before, last := run[..|run| - 1], run[|run| - 1];
      var mid := Exec(c, s, before).value;
      RunKeepsBooks(c, o, s, before, mid);
      NextKeepsInv(c, mid, last, s');
      NextKeepsCount(c, mid, last, s');
      NextKeepsStream(c, mid, last, s');
      NextKeepsBalance(c, o, Waste(c, mid.tally), mid, last, s');
      WasteGrows(c, mid.tally, s'.tally);
    }
  }

  /** What this session may have sent again to a receiver that has not opened its file afresh yet. */
  function Dangling(c: Config, s: State): nat {
    Min(c.chunk, AtStake(s))
  }

  lemma BooksBound(c: Config, o: nat, waste: nat, s: State)
    requires Stored(c, s) && Counted(c, s) && Torn(c, s) && Streamed(c, s.tally) && Balanced(c, o, waste, s)
    ensures s.tally.sent + o <= |c.source| + s.tally.lost + waste + Dangling(c, s)
  {
  }

  lemma ReachableBooks(c: Config, s: State, run: seq<Action>, s': State)
    requires Startable(c, s) && Exec(c, s, run) == Some(s')
    ensures Books(c, |Content(s.receiver)|, s')
  {
    StartableInv(c, s);
    FreshStream(c, s.tally);
    RunKeepsBooks(c, |Content(s.receiver)|, s, run, s');
  }

  /**
   Conservation of payload bytes, for every run: what is sent on top of the missing part of the
   source is covered by the bytes that crashes and files opened afresh gave up, one chunk for each
   earlier session that left something to send again, one chunk for each acknowledged chunk that was
   not written, and one while a session from byte zero waits for its file to be opened afresh.
   */
  lemma RetransmissionBound(c: Config, s: State, run: seq<Action>, s': State)
    requires Startable(c, s) && Exec(c, s, run) == Some(s')
    ensures s'.tally.sent + |Content(s.receiver)| <= |c.source| + s'.tally.lost + Waste(c, s'.tally) + Dangling(c, s')
    ensures s'.tally.abandoned <= s'.tally.broken + (if s'.tally.torn then 1 else 0)
  {
    ReachableBooks(c, s, run, s');
    BooksBound(c, |Content(s.receiver)|, Waste(c, s'.tally), s');
  }

  /** No process holding the shard file dies, and no download restarts from zero over stored bytes. */
  ghost predicate Gentle(c: Config, s: State, run: seq<Action>) {
    forall i :: 0 <= i < |run| ==>
      && !run[i].PeerCrash?
      && (c.role.NodeReceives? ==> !run[i].Crash?)
      && (c.role.NodeSends? && run[i] == Begin(true) ==> i == 0 && Content(s.receiver) == [])
  }

  /** Nothing was given up so far, and nothing will be when the file is opened. */
  ghost predicate NothingLost(t: Tally, s: State) {
    s.tally.lost == t.lost && AtStake(s) == 0
  }

  lemma EndpointsLoseNothing(c: Config, t: Tally, s: State, a: Action, s': State)
    requires Torn(c, s) && NothingLost(t, s)
    requires Next(c, s, a) == Some(s') && (SenderOwns(c, a) || ReceiverOwns(c, a))
    ensures NothingLost(t, s')
  {
    assert s'.tally == Account(s, a);
    assert a.OpenFile? && s.fromZero ==> s.tally.unopened;
  }

  lemma ControlLosesNothing(c: Config, t: Tally, s: State, a: Action, s': State)
    requires Torn(c, s) && NothingLost(t, s)
    requires ControlStep(c, s, a) == Some(s') && !a.PeerCrash? && (c.role.NodeReceives? ==> !a.Crash?)
    requires c.role.NodeSends? && a == Begin(true) ==> Content(s.receiver) == []
    ensures NothingLost(t, s')
  {
  }

  lemma {:induction false} GentleRunsLoseNothing(c: Config, s: State, run: seq<Action>, s': State)
    requires Startable(c, s) && Gentle(c, s, run) && Exec(c, s, run) == Some(s')
    ensures s'.tally.lost == s.tally.lost && AtStake(s') == 0
    decreases |run|
  {
    if run != [] {
      var before, last := run[..|run| - 1], run[|run| - 1];
      var middle := Exec(c, s, before).value;
      assert Gentle(c, s, before) by {
        assert forall i :: 0 <= i < |before| ==> before[i] == run[i];
      }
      GentleRunsLoseNothing(c, s, before, middle);
      ReachableBooks(c, s, before, middle);
      if SenderOwns(c, last) || ReceiverOwns(c, last) {
        EndpointsLoseNothing(c, s.tally, middle, last, s');
      } else {
        assert last == Begin(true) && c.role.NodeSends? ==> before == [] && middle == s;
        ControlLosesNothing(c, s.tally, middle, last, s');
      }
    }
  }

  lemma AtMostTwice(c: Config, t: Tally, broken: nat)
    requires t.broken + t.abandoned <= 2 * broken
    ensures Waste(c, t) <= 2 * broken * c.chunk
  {
    var k, n, spare := c.chunk, t.broken + t.abandoned, 2 * broken - (t.broken + t.abandoned);
    assert k * (n + spare) == k * n + k * spare;
  }

  /** Without crashes, a broken session costs at most two chunks: one unacknowledged, one unwritten. */
  lemma TwoChunksPerBrokenSession(c: Config, s: State, run: seq<Action>, s': State)
    requires Startable(c, s) && Gentle(c, s, run) && Exec(c, s, run) == Some(s')
    ensures var broken := s'.tally.broken + (if s'.tally.torn then 1 else 0);
            s'.tally.sent <= |c.source| - |Content(s.receiver)| + 2 * broken * c.chunk
  {
    RetransmissionBound(c, s, run, s');
    GentleRunsLoseNothing(c, s, run, s');
    AtMostTwice(c, s'.tally, s'.tally.broken + (if s'.tally.torn then 1 else 0));
  }

  /**
   In every session the data frames concatenate to the source from the resume offset on, whatever
   the cursor was when an earlier session broke; a sending node fills every frame but the last.
   */
  lemma SessionStream(c: Config, s: State, run: seq<Action>, s': State)
    requires Startable(c, s) && Exec(c, s, run) == Some(s')
    ensures Streamed(c, s'.tally)
  {
    ReachableBooks(c, s, run, s');
  }

  /** The end of the file is reached, and END sent, only when everything was sent and acknowledged. */
  lemma EndMeansAll(c: Config, s: State, run: seq<Action>, s': State)
    requires Startable(c, s) && Exec(c, s, run) == Some(s') && (s'.sender.pc.SEnd? || s'.sender.pc.SDone?)
    ensures s'.tally.offset <= |c.source| && Concat(s'.tally.chunks) == c.source[s'.tally.offset..]
    ensures s'.tally.acked == |s'.tally.chunks|
  {
    ReachableBooks(c, s, run, s');
    assert c.source[s'.tally.offset..|c.source|] == c.source[s'.tally.offset..];
  }

  lemma FramesAre(c: Config, t: Tally)
    requires Streamed(c, t) && c.role.NodeSends? && t.front == |c.source|
    ensures |c.source| - t.offset <= |t.chunks| * c.chunk < |c.source| - t.offset + c.chunk
  {
    ReadsIsCeiling(|c.source| - t.offset, c.chunk);
  }

  /** A completed session of a sending node takes exactly ceil((|source| - offset) / chunk) data frames. */
  lemma ExactFrameCount(c: Config, s: State, run: seq<Action>, s': State)
    requires Startable(c, s) && Exec(c, s, run) == Some(s') && s'.sender.pc.SDone? && c.role.NodeSends?
    ensures s'.tally.offset <= |c.source|
    ensures var remaining, frames := |c.source| - s'.tally.offset, |s'.tally.chunks|;
            remaining <= frames * c.chunk < remaining + c.chunk
  {
    ReachableBooks(c, s, run, s');
    FramesAre(c, s'.tally);
  }

  lemma {:induction false} ReadsIsCeiling(length: nat, size: nat)
    requires size >= 1
    ensures length <= Reads(length, size) * size < length + size
    decreases length
  {
    if length > 0 {
      var rest := length - Min(size, length);
      ReadsIsCeiling(rest, size);
      assert Reads(length, size) * size == size + Reads(rest, size) * size;
    }
  }
}
