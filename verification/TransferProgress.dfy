/**
 Progress of the transfer: no fault-free session gets stuck, every fault-free session ends within a
 bound known when it starts, no history of faults makes completion impossible, and every call of
 the node ends within a bound that no network and no conforming client can stretch.
 */
module TransferProgress {
  import opened Wrappers
  import opened TransferProtocol
  import opened TransferSafety

  /** A step that moves the current session forward. */
  predicate Forward(a: Action) {
    !IsFault(a) && !a.Begin? && !a.Reset? && !a.Finish?
  }

  predicate BothDone(s: State) {
    s.sender.pc.SDone? && s.receiver.pc.RDone?
  }

  /** In a session without faults nobody has left, and whoever waits has something to wait for. */
  ghost predicate Healthy(c: Config, s: State) {
    && (c.role.NodeReceives? ==> !s.receiver.pc.ROff?)
    && (c.role.NodeSends? ==> !s.sender.pc.SOff?)
    && (s.receiver.pc.ROff? || (c.role.NodeSends? && s.receiver.pc.RStart?) ==>
          s.sender.pc.SStart? || HasStart(s.link.down))
    && (s.sender.pc.SOff? || (c.role.NodeReceives? && s.sender.pc.SStart?) ==>
          s.receiver.pc.RStart? || HasStart(s.link.up))
    && (HasStart(s.link.up) && !s.fromZero ==> s.receiver.pc.ROpen? || ResumeIn(s.link.up))
    && (s.sender.pc.SResume? ==> s.receiver.pc.ROpen? || ResumeIn(s.link.up) || HasStart(s.link.down))
    && (s.sender.pc.SAck? ==> Outstanding(s) == 1)
    && (s.sender.pc.SDone? ==> EndIn(s.link.down) || s.receiver.pc.RDone?)
    && (s.receiver.pc.RDone? ==> s.sender.pc.SDone?)
  }

  /** A call is under way and its current session has seen no fault. */
  predicate FaultFree(s: State) {
    s.call.Active? && s.tally.clean
  }

  ghost predicate Live(c: Config, s: State) {
    Inv(c, s) && FaultFree(s) && Healthy(c, s)
  }

  lemma SenderKeepsHealth(c: Config, s: State, a: Action, s': State)
    requires Live(c, s) && SenderOwns(c, a) && Next(c, s, a) == Some(s') && FaultFree(s')
    ensures Healthy(c, s')
  {
  }

  lemma ReceiverKeepsHealth(c: Config, s: State, a: Action, s': State)
    requires Live(c, s) && ReceiverOwns(c, a) && Next(c, s, a) == Some(s') && FaultFree(s')
    ensures Healthy(c, s')
  {
  }

  lemma JoinKeepsHealth(c: Config, s: State, s': State)
    requires Live(c, s) && Next(c, s, PeerJoin) == Some(s') && FaultFree(s')
    ensures Healthy(c, s')
  {
  }

  lemma OpeningIsHealthy(c: Config, s: State, a: Action, s': State)
    requires (a.Begin? || a.Reset?) && Next(c, s, a) == Some(s')
    ensures FaultFree(s') && Healthy(c, s')
  {
  }

  lemma FaultsRemain(c: Config, s: State, a: Action, s': State)
    requires !a.Begin? && !a.Reset? && Next(c, s, a) == Some(s') && FaultFree(s')
    ensures FaultFree(s) && (a.PeerJoin? || SenderOwns(c, a) || ReceiverOwns(c, a))
  {
    if SenderOwns(c, a) || ReceiverOwns(c, a) {
      assert s'.tally == Account(s, a);
    } else {
      assert ControlStep(c, s, a) == Some(s');
    }
  }

  /** Faults only ever clear the fault-free flag, so health holds in every reachable fault-free state. */
  lemma NextKeepsHealth(c: Config, s: State, a: Action, s': State)
    requires Inv(c, s) && (FaultFree(s) ==> Healthy(c, s)) && Next(c, s, a) == Some(s')
    ensures FaultFree(s') ==> Healthy(c, s')
  {
    if FaultFree(s') {
      if a.Begin? || a.Reset? {
        OpeningIsHealthy(c, s, a, s');
      } else {
        FaultsRemain(c, s, a, s');
        if a.PeerJoin? {
          JoinKeepsHealth(c, s, s');
        } else if SenderOwns(c, a) {
          SenderKeepsHealth(c, s, a, s');
        } else {
          ReceiverKeepsHealth(c, s, a, s');
        }
      }
    }
  }

  lemma {:induction false} RunKeepsHealth(c: Config, s: State, run: seq<Action>, s': State)
    requires Inv(c, s) && (FaultFree(s) ==> Healthy(c, s)) && Exec(c, s, run) == Some(s')
    ensures Inv(c, s') && (FaultFree(s') ==> Healthy(c, s'))
    decreases |run|
  {
    if run != [] {
      var before, last := run[..|run| - 1], run[|run| - 1];
      var mid := Exec(c, s, before).value;
      RunKeepsHealth(c, s, before, mid);
      NextKeepsInv(c, mid, last, s');
      NextKeepsHealth(c, mid, last, s');
    }
  }

  // ----- somebody can always move

  /** A forward step of the sender, when it is not waiting. */
  function SenderMove(c: Config, s: State): Action {
    match s.sender.pc
    case SOff => PeerJoin
    case SStart => if c.role.NodeSends? then EmitStart else TakeStart
    case SResume => TakeResume
    case SRead => ReadChunk(if s.sender.cursor >= |c.source| then 0 else Min(c.chunk, |c.source| - s.sender.cursor))
    case SSend(_) => SendData
    case SAck => TakeAck
    case _ => SendEnd
  }

  /** A forward step of the receiver, when it is not waiting. */
  function ReceiverMove(c: Config, s: State): Action {
    match s.receiver.pc
    case ROff => PeerJoin
    case RStart => if c.role.NodeReceives? then EmitStart else TakeStart
    case ROpen => OpenFile
    case RRecv => TakeFrame
    case RAck(_) => SendAck
    case RWrite(_) => WriteAll
    case _ => LateAck
  }

  predicate SenderWaits(c: Config, s: State) {
    s.sender.pc.SDone? || (s.link.up == [] && (s.sender.pc.SResume? || s.sender.pc.SAck?
        || (s.sender.pc.SStart? && c.role.NodeReceives?)))
  }

  predicate ReceiverWaits(c: Config, s: State) {
    s.receiver.pc.RDone? || (s.link.down == []
        && (s.receiver.pc.RRecv? || (s.receiver.pc.RStart? && c.role.NodeSends?)))
  }

  lemma OneCanMove(c: Config, s: State)
    requires Live(c, s) && !BothDone(s)
    ensures !(SenderWaits(c, s) && ReceiverWaits(c, s))
  {
  }

  lemma SenderMoves(c: Config, s: State)
    requires Live(c, s) && !SenderWaits(c, s)
    ensures Forward(SenderMove(c, s)) && Next(c, s, SenderMove(c, s)).Some?
            && FaultFree(Next(c, s, SenderMove(c, s)).value)
  {
  }

  lemma ReceiverMoves(c: Config, s: State)
    requires Live(c, s) && !ReceiverWaits(c, s)
    ensures Forward(ReceiverMove(c, s)) && Next(c, s, ReceiverMove(c, s)).Some?
            && FaultFree(Next(c, s, ReceiverMove(c, s)).value)
  {
  }

  /** The client has not joined the session yet. */
  predicate Unjoined(c: Config, s: State) {
    if c.role.NodeReceives? then s.sender.pc.SOff? else s.receiver.pc.ROff?
  }

  lemma ClientJoins(c: Config, s: State)
    requires Live(c, s) && Unjoined(c, s)
    ensures Next(c, s, PeerJoin).Some? && FaultFree(Next(c, s, PeerJoin).value)
  {
    assert Next(c, s, PeerJoin) == ControlStep(c, s, PeerJoin);
  }

  /** The forward step taken next when nothing goes wrong; first of all, the client joins. */
  function Advance(c: Config, s: State): Action {
    if Unjoined(c, s) then PeerJoin else if SenderWaits(c, s) then ReceiverMove(c, s) else SenderMove(c, s)
  }

  /**
   Deadlock freedom: in every reachable state of a session that has seen no fault, until both sides
   are done, some step forward is possible.  As long as the client has not joined it is that it
   joins, so that no side depends on a frame being sent to nobody.
   */
  lemma DeadlockFreedom(c: Config, s: State, run: seq<Action>, s': State)
    requires Startable(c, s) && Exec(c, s, run) == Some(s') && FaultFree(s') && !BothDone(s')
    ensures Forward(Advance(c, s')) && Next(c, s', Advance(c, s')).Some?
    ensures !(SenderWaits(c, s') && ReceiverWaits(c, s'))
  {
    StartableInv(c, s);
    RunKeepsHealth(c, s, run, s');
    LiveAdvances(c, s');
  }

  lemma LiveAdvances(c: Config, s: State)
    requires Live(c, s) && !BothDone(s)
    ensures Forward(Advance(c, s)) && Next(c, s, Advance(c, s)).Some? && Live(c, Next(c, s, Advance(c, s)).value)
    ensures !(SenderWaits(c, s) && ReceiverWaits(c, s))
  {
    OneCanMove(c, s);
    if Unjoined(c, s) {
      ClientJoins(c, s);
    } else if SenderWaits(c, s) {
      ReceiverMoves(c, s);
    } else {
      SenderMoves(c, s);
    }
    var s' := Next(c, s, Advance(c, s)).value;
    NextKeepsInv(c, s, Advance(c, s), s');
    NextKeepsHealth(c, s, Advance(c, s), s');
  }

  // ----- and not for ever

  function FrameRank(q: seq<Frame>): nat {
    (if HasStart(q) then 1 else 0) + (if Behind(q).None? then 0 else if Behind(q).value.Data? then 6 else 1)
  }

  function SenderRank(c: Config, s: Sender): nat {
    var rest := if s.cursor <= |c.source| then |c.source| - s.cursor else 0;
    match s.pc
    case SOff => 10 * |c.source| + 7
    case SStart => 10 * |c.source| + 6
    case SResume => 10 * |c.source| + 4
    case SRead => 10 * rest + 3
    case SSend(_) => 10 * rest + 12
    case SAck => 10 * rest + 4
    case SEnd => 2
    case SDone => 0
  }

  function ReceiverRank(r: Receiver): nat {
    match r.pc
    case ROff => 6
    case RStart => 5
    case ROpen => 3
    case RRecv => 1
    case RAck(_) => 6
    case RWrite(_) => 4
    case RLate => 3
    case RDone => 0
  }

  /** A bound on the forward steps still possible in the session. */
  function Rank(c: Config, s: State): nat {
    SenderRank(c, s.sender) + ReceiverRank(s.receiver) + FrameRank(s.link.down) + FrameRank(s.link.up)
  }

  lemma PuttingLowersRank(c: Config, s: State, a: Action, s': State)
    requires Live(c, s) && (a.SendData? || a.SendEnd?) && Next(c, s, a) == Some(s')
    ensures Rank(c, s') < Rank(c, s)
  {
    FramePut(c, s, if a.SendData? then Data(s.sender.pc.chunk) else End);
    assert s'.link.up == s.link.up && s'.receiver == s.receiver;
  }

  lemma ReadingLowersRank(c: Config, s: State, n: nat, s': State)
    requires Live(c, s) && Next(c, s, ReadChunk(n)) == Some(s')
    ensures Rank(c, s') < Rank(c, s)
  {
    assert s'.link == s.link && s'.receiver == s.receiver;
  }

  lemma TakingLowersRank(c: Config, s: State, a: Action, s': State)
    requires Live(c, s) && (a.TakeResume? || a.TakeAck?) && Next(c, s, a) == Some(s')
    ensures Rank(c, s') < Rank(c, s)
  {
    assert s'.link.down == s.link.down && s'.receiver == s.receiver;
  }

  lemma StartingLowersRank(c: Config, s: State, a: Action, s': State)
    requires Live(c, s) && SenderOwns(c, a) && (a.EmitStart? || a.TakeStart?) && Next(c, s, a) == Some(s')
    ensures Rank(c, s') < Rank(c, s)
  {
    assert s'.receiver == s.receiver;
  }

  lemma SenderLowersRank(c: Config, s: State, a: Action, s': State)
    requires Live(c, s) && SenderOwns(c, a) && Forward(a) && Next(c, s, a) == Some(s')
    ensures Rank(c, s') < Rank(c, s)
  {
    match a
    case SendData | SendEnd => PuttingLowersRank(c, s, a, s');
    case ReadChunk(n) => ReadingLowersRank(c, s, n, s');
    case TakeResume | TakeAck => TakingLowersRank(c, s, a, s');
    case _ => StartingLowersRank(c, s, a, s');
  }

  lemma FrameTakenLowersRank(c: Config, s: State, a: Action, s': State)
    requires Live(c, s) && ReceiverOwns(c, a) && (a.TakeStart? || a.TakeFrame?) && Next(c, s, a) == Some(s')
    ensures Rank(c, s') < Rank(c, s)
  {
    assert s'.sender == s.sender && s'.link.up == s.link.up;
  }

  lemma AnswerLowersRank(c: Config, s: State, a: Action, s': State)
    requires Live(c, s) && ReceiverOwns(c, a) && (a.SendAck? || a.LateAck? || a.EmitStart? || a.OpenFile?)
             && Next(c, s, a) == Some(s')
    ensures Rank(c, s') < Rank(c, s)
  {
    assert s'.sender == s.sender && s'.link.down == s.link.down;
  }

  lemma WritingLowersRank(c: Config, s: State, a: Action, s': State)
    requires Live(c, s) && ReceiverOwns(c, a) && (a.WriteAll? || a.WriteFirst?) && Next(c, s, a) == Some(s')
    ensures Rank(c, s') < Rank(c, s)
  {
    assert s'.sender == s.sender && s'.link == s.link;
  }

  lemma ReceiverLowersRank(c: Config, s: State, a: Action, s': State)
    requires Live(c, s) && ReceiverOwns(c, a) && Forward(a) && Next(c, s, a) == Some(s')
    ensures Rank(c, s') < Rank(c, s)
  {
    match a
    case TakeStart | TakeFrame => FrameTakenLowersRank(c, s, a, s');
    case WriteAll | WriteFirst => WritingLowersRank(c, s, a, s');
    case _ => AnswerLowersRank(c, s, a, s');
  }

  lemma ForwardLowersRank(c: Config, s: State, a: Action, s': State)
    requires Live(c, s) && Forward(a) && Next(c, s, a) == Some(s') && FaultFree(s')
    ensures Rank(c, s') < Rank(c, s)
  {
    if SenderOwns(c, a) {
      SenderLowersRank(c, s, a, s');
    } else if ReceiverOwns(c, a) {
      ReceiverLowersRank(c, s, a, s');
    }
  }

  ghost predicate AllForward(run: seq<Action>) {
    forall i :: 0 <= i < |run| ==> Forward(run[i])
  }

  lemma ForwardKeepsFaults(c: Config, s: State, a: Action, s': State)
    requires Forward(a) && Next(c, s, a) == Some(s') && FaultFree(s')
    ensures FaultFree(s)
  {
  }

  /** A fault-free session takes at most `Rank` steps, however its steps are interleaved. */
  lemma {:induction false} FaultFreeTermination(c: Config, s: State, run: seq<Action>, s': State)
    requires Live(c, s) && AllForward(run) && Exec(c, s, run) == Some(s') && FaultFree(s')
    ensures Live(c, s') && |run| + Rank(c, s') <= Rank(c, s)
    decreases |run|
  {
    if run != [] {
      var before, last := run[..|run| - 1], run[|run| - 1];
      var mid := Exec(c, s, before).value;
      ForwardKeepsFaults(c, mid, last, s');
      FaultFreeTermination(c, s, before, mid);
      ForwardLowersRank(c, mid, last, s');
      NextKeepsInv(c, mid, last, s');
      NextKeepsHealth(c, mid, last, s');
    }
  }

  /** From every fault-free state the session can be completed by stepping forward, within `Rank` steps. */
  lemma {:induction false} Completes(c: Config, s: State) returns (run: seq<Action>, s': State)
    requires Live(c, s)
    ensures AllForward(run) && Exec(c, s, run) == Some(s') && |run| <= Rank(c, s)
    ensures Live(c, s') && BothDone(s') && s'.receiver.file == Some(c.source)
    decreases Rank(c, s)
  {
    if BothDone(s) {
      run, s' := [], s;
    } else {
      var a := Advance(c, s);
      LiveAdvances(c, s);
      var mid := Next(c, s, a).value;
      ForwardLowersRank(c, s, a, mid);
      var rest;
      rest, s' := Completes(c, mid);
      run := [a] + rest;
      assert Exec(c, s, [a]) == Some(mid) by {
        ExecSnoc(c, s, [], a);
      }
      ExecAppend(c, s, [a], rest);
    }
  }

  /** How the node gives its session up. */
  function Quit(c: Config, s: State): Action {
    if c.role.NodeSends? then SenderFail else if s.receiver.pc.RWrite? then WriteSome(0) else ReceiverFail
  }

  lemma QuitWorks(c: Config, s: State)
    requires !NodeOff(c, s)
    ensures Next(c, s, Quit(c, s)).Some?
    ensures NodeOff(c, Next(c, s, Quit(c, s)).value) && Next(c, s, Quit(c, s)).value.call == s.call
  {
  }

  /** The node can always give its session up. */
  lemma NodeCanQuit(c: Config, s: State) returns (run: seq<Action>, s': State)
    requires Inv(c, s)
    ensures Exec(c, s, run) == Some(s') && Inv(c, s') && s'.call == s.call && (NodeOff(c, s') || NodeFinished(c, s'))
  {
    if NodeOff(c, s) || NodeFinished(c, s) {
      run, s' := [], s;
    } else {
      QuitWorks(c, s);
      s' := Next(c, s, Quit(c, s)).value;
      ExecSnoc(c, s, [], Quit(c, s));
      NextKeepsInv(c, s, Quit(c, s), s');
      run := [] + [Quit(c, s)];
    }
  }

  /** The node can always end its call. */
  lemma NodeCanStop(c: Config, s: State) returns (run: seq<Action>, s': State)
    requires Inv(c, s)
    ensures Exec(c, s, run) == Some(s') && Inv(c, s') && s'.call.Idle?
  {
    run, s' := NodeCanQuit(c, s);
    if s'.call.Active? {
      var ended := ControlStep(c, s', Finish).value;
      ExecSnoc(c, s, run, Finish);
      NextKeepsInv(c, s', Finish, ended);
      run, s' := run + [Finish], ended;
    }
  }

  /** A new call can be started and, without further faults, completes the transfer. */
  lemma NewCallCompletes(c: Config, s: State) returns (run: seq<Action>, s': State)
    requires Inv(c, s) && s.call.Idle?
    ensures Exec(c, s, run) == Some(s') && Live(c, s') && BothDone(s') && s'.receiver.file == Some(c.source)
  {
    var begin := Begin(false);
    var started := Next(c, s, begin).value;
    ExecSnoc(c, s, [], begin);
    NextKeepsInv(c, s, begin, started);
    OpeningIsHealthy(c, s, begin, started);
    run, s' := Completes(c, started);
    ExecAppend(c, s, [begin], run);
    run := [begin] + run;
  }

  /**
   Whatever has gone wrong before, every reachable state has a continuation in which the receiver
   ends up with the whole source, and in which a receiving node reports completion.  It may need a
   new call; when a restart alone makes one is the subject of `RequestDispatch.RestartTakesUp`.
   */
  lemma AlwaysRecoverable(c: Config, s: State, run: seq<Action>, s': State) returns (more: seq<Action>, s'': State)
    requires Startable(c, s) && Exec(c, s, run) == Some(s')
    ensures Exec(c, s, run + more) == Some(s'')
    ensures s''.receiver.file == Some(c.source)
    ensures if c.role.NodeReceives? then s''.tally.reported else BothDone(s'')
  {
    StartableInv(c, s);
    RunKeepsInv(c, s, run, s');
    var idle;
    more, idle := NodeCanStop(c, s');
    var rest;
    rest, s'' := NewCallCompletes(c, idle);
    ExecAppend(c, s', more, rest);
    more := more + rest;
    if c.role.NodeReceives? {
      ExecSnoc(c, s', more, Finish);
      more, s'' := more + [Finish], Next(c, s'', Finish).value;
    }
    ExecAppend(c, s, run, more);
  }

  // ----- a call of the node ends, whatever a conforming client does

  /** Steps of the node itself. */
  predicate NodeOwns(c: Config, a: Action) {
    a.Reset? || a.Finish? || (if c.role.NodeReceives? then ReceiverOwns(c, a) else SenderOwns(c, a))
  }

  function NodeSteps(c: Config, run: seq<Action>): nat {
    if run == [] then 0
    else NodeSteps(c, run[..|run| - 1]) + (if NodeOwns(c, run[|run| - 1]) then 1 else 0)
  }

  function ReceiverCallRank(c: Config, r: Receiver): nat {
    var kept := |Content(r)| + |Pending(r.pc)|;
    var rest := if kept <= |c.source| then |c.source| - kept else 0;
    match r.pc
    case ROff => 0
    case RStart => 4 * |c.source| + 6
    case ROpen => 4 * |c.source| + 5
    case RRecv => 4 * rest + 2
    case RAck(_) => 4 * rest + 4
    case RWrite(_) => 4 * rest + 3
    case RLate => 4 * rest + 3
    case RDone => 1
  }

  function SenderCallRank(c: Config, s: Sender): nat {
    var rest := if s.cursor <= |c.source| then |c.source| - s.cursor else 0;
    match s.pc
    case SOff => 0
    case SStart => 4 * |c.source| + 6
    case SResume => 4 * |c.source| + 5
    case SRead => 4 * rest + 3
    case SSend(_) => 4 * rest + 5
    case SAck => 4 * rest + 4
    case SEnd => 2
    case SDone => 1
  }

  /** A bound on the node's own steps in the rest of the call: reconnects first, then bytes, then phase. */
  function CallRank(c: Config, s: State): nat {
    match s.call
    case Idle => 0
    case Active(reconnects) =>
      1 + reconnects * (4 * |c.source| + 7)
      + (if c.role.NodeReceives? then ReceiverCallRank(c, s.receiver) else SenderCallRank(c, s.sender))
  }

  lemma ReceiverLowersCallRank(c: Config, s: State, a: Action, s': State)
    requires Inv(c, s) && c.role.NodeReceives? && ReceiverOwns(c, a) && Next(c, s, a) == Some(s')
    ensures s'.call == s.call && ReceiverCallRank(c, s'.receiver) < ReceiverCallRank(c, s.receiver)
  {
  }

  lemma SenderLowersCallRank(c: Config, s: State, a: Action, s': State)
    requires Inv(c, s) && c.role.NodeSends? && SenderOwns(c, a) && Next(c, s, a) == Some(s')
    ensures s'.call == s.call && SenderCallRank(c, s'.sender) < SenderCallRank(c, s.sender)
  {
  }

  lemma ResetLowersCallRank(c: Config, s: State, s': State)
    requires Stored(c, s) && Next(c, s, Reset) == Some(s')
    ensures CallRank(c, s') < CallRank(c, s)
  {
    var k, left := 4 * |c.source| + 7, s.call.reconnects;
    assert left * k == (left - 1) * k + k;
  }

  lemma NodeLowersCallRank(c: Config, s: State, a: Action, s': State)
    requires Inv(c, s) && s.call.Active? && NodeOwns(c, a) && Next(c, s, a) == Some(s')
    ensures CallRank(c, s') < CallRank(c, s)
  {
    if a.Reset? {
      ResetLowersCallRank(c, s, s');
    } else if a.Finish? {
    } else if c.role.NodeReceives? {
      ReceiverLowersCallRank(c, s, a, s');
    } else {
      SenderLowersCallRank(c, s, a, s');
    }
  }

  lemma CrashEndsCall(c: Config, s: State, kept: nat, s': State)
    requires ControlStep(c, s, Crash(kept)) == Some(s')
    ensures CallRank(c, s') == 0
  {
  }

  lemma PeerKeepsCallRank(c: Config, s: State, a: Action, s': State)
    requires !NodeOwns(c, a) && (SenderOwns(c, a) || ReceiverOwns(c, a)) && Next(c, s, a) == Some(s')
    ensures CallRank(c, s') == CallRank(c, s)
  {
    assert if c.role.NodeReceives? then s'.receiver == s.receiver else s'.sender == s.sender;
  }

  lemma WorldKeepsCallRank(c: Config, s: State, a: Action, s': State)
    requires (a.PeerJoin? || a.PeerCrash? || a.DropDown? || a.DropUp?) && ControlStep(c, s, a) == Some(s')
    ensures CallRank(c, s') == CallRank(c, s)
  {
    assert if c.role.NodeReceives? then s'.receiver == s.receiver else s'.sender == s.sender;
  }

  lemma OthersKeepCallRank(c: Config, s: State, a: Action, s': State)
    requires !NodeOwns(c, a) && !a.Begin? && Next(c, s, a) == Some(s')
    ensures CallRank(c, s') <= CallRank(c, s)
  {
    if SenderOwns(c, a) || ReceiverOwns(c, a) {
      PeerKeepsCallRank(c, s, a, s');
    } else if a.Crash? {
      CrashEndsCall(c, s, a.kept, s');
    } else {
      WorldKeepsCallRank(c, s, a, s');
    }
  }

  /** From any point of a call the node takes at most `CallRank` steps before the call is over. */
  lemma {:induction false} CallsEnd(c: Config, s: State, run: seq<Action>, s': State)
    requires Inv(c, s) && Exec(c, s, run) == Some(s')
    requires forall i :: 0 <= i < |run| ==> !run[i].Begin?
    ensures Inv(c, s') && NodeSteps(c, run) + CallRank(c, s') <= CallRank(c, s)
    decreases |run|
  {
    if run != [] {
      var before, last := run[..|run| - 1], run[|run| - 1];
      var mid := Exec(c, s, before).value;
      CallsEnd(c, s, before, mid);
      NextKeepsInv(c, mid, last, s');
      if NodeOwns(c, last) {
        IdleNodesRest(c, mid, last);
        NodeLowersCallRank(c, mid, last, s');
      } else {
        OthersKeepCallRank(c, mid, last, s');
      }
    }
  }

  lemma IdleNodesRest(c: Config, s: State, a: Action)
    requires Inv(c, s) && NodeOwns(c, a) && Next(c, s, a).Some?
    ensures s.call.Active?
  {
  }

  /** A call takes at most 8 * |source| + 14 steps of the node, counted from its first. */
  lemma CallBound(c: Config, s: State, begin: Action, run: seq<Action>, s': State)
    requires Inv(c, s) && begin.Begin? && Exec(c, s, [begin] + run) == Some(s')
    requires forall i :: 0 <= i < |run| ==> !run[i].Begin?
    ensures NodeSteps(c, run) <= 8 * |c.source| + 14
  {
    ExecAppend(c, s, [begin], run);
    ExecSnoc(c, s, [], begin);
    var first := Next(c, s, begin).value;
    NextKeepsInv(c, s, begin, first);
    CallsEnd(c, first, run, s');
  }
}
