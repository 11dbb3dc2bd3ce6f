/**
 How far the sender runs ahead of the file, in every session of every run and after it, whichever
 side leaves first.
 */
module TransferPace {
  import opened Wrappers
  import opened TransferProtocol
  import opened TransferSafety
  import opened TransferAccounting

  /** Bytes of this session's stream that were sent and are not in the file. */
  function Ahead(s: State): int {
    if s.tally.chunks == [] then 0 else s.tally.front - |Content(s.receiver)|
  }

  /** While the receiver can still take part, everything between file and front is in flight, or is one lost chunk. */
  ghost predicate Close(c: Config, s: State) {
    Attached(s) && s.tally.chunks != [] ==>
      && Position(s) <= s.tally.front <= Position(s) + c.chunk
      && (Outstanding(s) == 1 ==> s.tally.front == Position(s))
  }

  /** What crashes took from the file in this session. */
  function Cut(t: Tally): int {
    t.lost - t.lostBefore
  }

  /** Unless a write failed, what is missing from the file is unacknowledged, unwritten, or was cut off by a crash. */
  ghost predicate Covered(c: Config, s: State) {
    var t := s.tally;
    && Cut(t) >= 0
    && (!t.torn ==> t.front + Late(s) <= |Content(s.receiver)| + Unwritten(s) + Unacked(s) + Cut(t))
    && (WillTruncate(c, s) ==> t.front <= Unacked(s))
    && (ResumeIn(s.link.up) && !t.torn ==> Behind(s.link.up).value.offset <= |Content(s.receiver)| + Cut(t))
  }

  ghost predicate Paced(c: Config, s: State) {
    Close(c, s) && Covered(c, s)
  }

  ghost predicate Known(c: Config, s: State) {
    Stored(c, s) && Wired(c, s) && Shaken(c, s) && InStep(c, s) && Counted(c, s) && Torn(c, s)
  }

  // ----- every step keeps it

  lemma SendDataKeepsPace(c: Config, s: State, s': State)
    requires Known(c, s) && Paced(c, s) && SenderStep(c, s.fromZero, s.sender, s.link, SendData).Some?
             && Next(c, s, SendData) == Some(s')
    ensures Paced(c, s')
  {
    FramePut(c, s, Data(s.sender.pc.chunk));
  }

  lemma TakeAckKeepsPace(c: Config, s: State, s': State)
    requires Known(c, s) && Paced(c, s) && Next(c, s, TakeAck) == Some(s')
    ensures Paced(c, s')
  {
  }

  lemma SenderFailKeepsPace(c: Config, s: State, s': State)
    requires Known(c, s) && Paced(c, s) && Next(c, s, SenderFail) == Some(s')
    ensures Paced(c, s')
  {
  }

  lemma ReadingKeepsPace(c: Config, s: State, a: Action, s': State)
    requires Known(c, s) && Paced(c, s) && (a.ReadChunk? || a.SendEnd?) && Next(c, s, a) == Some(s')
    ensures Paced(c, s')
  {
    if a.SendEnd? {
      FramePut(c, s, End);
    }
  }

  lemma ShakingKeepsPace(c: Config, s: State, a: Action, s': State)
    requires Known(c, s) && Paced(c, s) && SenderOwns(c, a) && (a.EmitStart? || a.TakeStart? || a.TakeResume?)
             && Next(c, s, a) == Some(s')
    ensures Paced(c, s')
  {
  }

  lemma TakeFrameKeepsPace(c: Config, s: State, s': State)
    requires Known(c, s) && Paced(c, s) && Next(c, s, TakeFrame) == Some(s')
    ensures Paced(c, s')
  {
  }

  lemma AckingKeepsPace(c: Config, s: State, a: Action, s': State)
    requires Known(c, s) && Paced(c, s) && (a.SendAck? || a.LateAck?) && Next(c, s, a) == Some(s')
    ensures Paced(c, s')
  {
  }

  lemma WritingKeepsPace(c: Config, s: State, a: Action, s': State)
    requires Known(c, s) && Paced(c, s) && (a.WriteAll? || a.WriteFirst?) && Next(c, s, a) == Some(s')
    ensures Paced(c, s')
  {
  }

  lemma WriteSomeKeepsPace(c: Config, s: State, k: nat, s': State)
    requires Known(c, s) && Paced(c, s) && Next(c, s, WriteSome(k)) == Some(s')
    ensures Paced(c, s')
  {
  }

  lemma ReceiverFailKeepsPace(c: Config, s: State, s': State)
    requires Known(c, s) && Paced(c, s) && Next(c, s, ReceiverFail) == Some(s')
    ensures Paced(c, s')
  {
  }

  lemma JoiningKeepsPace(c: Config, s: State, a: Action, s': State)
    requires Known(c, s) && Paced(c, s) && ReceiverOwns(c, a) && (a.EmitStart? || a.TakeStart? || a.OpenFile?)
             && Next(c, s, a) == Some(s')
    ensures Paced(c, s')
  {
  }

  lemma OpeningKeepsPace(c: Config, s: State, a: Action, s': State)
    requires (a.Begin? || a.Reset?) && Next(c, s, a) == Some(s')
    ensures Paced(c, s')
  {
  }

  lemma FinishKeepsPace(c: Config, s: State, s': State)
    requires Known(c, s) && Paced(c, s) && ControlStep(c, s, Finish) == Some(s')
    ensures Paced(c, s')
  {
  }

  lemma JoinKeepsPace(c: Config, s: State, s': State)
    requires Known(c, s) && Paced(c, s) && ControlStep(c, s, PeerJoin) == Some(s')
    ensures Paced(c, s')
  {
  }

  lemma CrashKeepsPace(c: Config, s: State, kept: nat, s': State)
    requires Known(c, s) && Paced(c, s) && ControlStep(c, s, Crash(kept)) == Some(s')
    ensures Paced(c, s')
  {
  }

  lemma PeerCrashKeepsPace(c: Config, s: State, kept: nat, s': State)
    requires Known(c, s) && Paced(c, s) && ControlStep(c, s, PeerCrash(kept)) == Some(s')
    ensures Paced(c, s')
  {
  }

  lemma LossKeepsPace(c: Config, s: State, s': State)
    requires Known(c, s) && Paced(c, s)
    requires s'.sender == s.sender && s'.receiver == s.receiver && s'.fromZero == s.fromZero
    requires s'.tally == s.tally.(clean := false)
    requires s'.link.down == s.link.down || Fewer(s.link.down, s'.link.down)
    requires s'.link.up == s.link.up || Fewer(s.link.up, s'.link.up)
    ensures Paced(c, s')
  {
    assert AckIn(s'.link.up) ==> AckIn(s.link.up);
    assert Unacked(s) <= Unacked(s') && Late(s') == Late(s);
    assert Outstanding(s') <= Outstanding(s) <= 1 && Position(s') <= Position(s);
  }

  lemma DropKeepsPace(c: Config, s: State, a: Action, s': State)
    requires Known(c, s) && Paced(c, s) && (a.DropDown? || a.DropUp?) && ControlStep(c, s, a) == Some(s')
    ensures Paced(c, s')
  {
    if a.DropDown? {
      DropShape(s.link.down, a.at);
    } else {
      DropShape(s.link.up, a.at);
    }
    LossKeepsPace(c, s, s');
  }

  lemma SenderKeepsPace(c: Config, s: State, a: Action, s': State)
    requires Known(c, s) && Paced(c, s) && SenderOwns(c, a) && Next(c, s, a) == Some(s')
    ensures Paced(c, s')
  {
    match a
    case SendData => SendDataKeepsPace(c, s, s');
    case ReadChunk(_) | SendEnd => ReadingKeepsPace(c, s, a, s');
    case TakeAck => TakeAckKeepsPace(c, s, s');
    case SenderFail => SenderFailKeepsPace(c, s, s');
    case _ => ShakingKeepsPace(c, s, a, s');
  }

  lemma ReceiverKeepsPace(c: Config, s: State, a: Action, s': State)
    requires Known(c, s) && Paced(c, s) && ReceiverOwns(c, a) && Next(c, s, a) == Some(s')
    ensures Paced(c, s')
  {
    match a
    case TakeFrame => TakeFrameKeepsPace(c, s, s');
    case SendAck | LateAck => AckingKeepsPace(c, s, a, s');
    case WriteAll | WriteFirst => WritingKeepsPace(c, s, a, s');
    case WriteSome(k) => WriteSomeKeepsPace(c, s, k, s');
    case ReceiverFail => ReceiverFailKeepsPace(c, s, s');
    case _ => JoiningKeepsPace(c, s, a, s');
  }

  lemma ControlKeepsPace(c: Config, s: State, a: Action, s': State)
    requires Known(c, s) && Paced(c, s) && !SenderOwns(c, a) && !ReceiverOwns(c, a) && Next(c, s, a) == Some(s')
    ensures Paced(c, s')
  {
    match a
    case Begin(_) | Reset => OpeningKeepsPace(c, s, a, s');
    case Finish => FinishKeepsPace(c, s, s');
    case PeerJoin => JoinKeepsPace(c, s, s');
    case Crash(kept) => CrashKeepsPace(c, s, kept, s');
    case PeerCrash(kept) => PeerCrashKeepsPace(c, s, kept, s');
    case DropDown(_) | DropUp(_) => DropKeepsPace(c, s, a, s');
    case _ =>
  }

  // ----- over whole runs

  lemma {:induction false} ReachablePace(c: Config, s: State, run: seq<Action>, s': State)
    requires Startable(c, s) && Exec(c, s, run) == Some(s')
    ensures Known(c, s') && Paced(c, s')
    decreases |run|
  {
    ReachableBooks(c, s, run, s');
    if run != [] {
      var before, last := run[..|run| - 1], run[|run| - 1];
      var mid := Exec(c, s, before).value;
      ReachablePace(c, s, before, mid);
      if SenderOwns(c, last) {
        SenderKeepsPace(c, mid, last, s');
      } else if ReceiverOwns(c, last) {
        ReceiverKeepsPace(c, mid, last, s');
      } else {
        ControlKeepsPace(c, mid, last, s');
      }
    }
  }

  lemma AheadInSession(c: Config, s: State)
    requires Wired(c, s) && Close(c, s) && Opened(s.receiver.pc)
    ensures 0 <= Ahead(s) <= 2 * c.chunk && (!s.receiver.pc.RWrite? ==> Ahead(s) <= c.chunk)
  {
  }

  /**
   As long as the receiver takes part in a session, and whether or not the sender still does, the
   sender's stream is at most two chunks ahead of the file and at most one data frame is
   unacknowledged.  Unless a chunk is just being written the gap is at most one chunk.
   */
  lemma Lag(c: Config, s: State, run: seq<Action>, s': State)
    requires Startable(c, s) && Exec(c, s, run) == Some(s') && Opened(s'.receiver.pc)
    ensures Outstanding(s') <= 1
    ensures 0 <= Ahead(s') <= 2 * c.chunk && (!s'.receiver.pc.RWrite? ==> Ahead(s') <= c.chunk)
  {
    ReachablePace(c, s, run, s');
    AheadInSession(c, s');
  }

  /**
   At every point of every session, and so wherever and however it ends, the gap is at most one
   chunk and what crashes cut off the file, unless a chunk is just being written or a write failed.
   */
  lemma GapLeftBehind(c: Config, s: State, run: seq<Action>, s': State)
    requires Startable(c, s) && Exec(c, s, run) == Some(s') && !s'.tally.torn && !s'.receiver.pc.RWrite?
    ensures Ahead(s') <= c.chunk + Cut(s'.tally)
  {
    ReachablePace(c, s, run, s');
  }
}
