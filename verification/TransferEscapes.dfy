/**
 When an exception escapes from a transfer, so that its request stays in the ledger: conditions that
 can be read off the oracle before the call, and calls in which it happens.
 */
module TransferEscapes {
  import opened Wrappers
  import opened TransferProtocol
  import opened TransferOracle

  // ----- a receiving node: no other exceptions, and patience for two sessions

  /** The next `n` operations do not raise. */
  predicate Clear(schedule: seq<Move>, n: nat) {
    n == 0 ||
    (schedule != [] &&
     if schedule[0].Env? then Clear(schedule[1..], n) else !schedule[0].Break? && Clear(schedule[1..], n - 1))
  }

  /** Only socket errors are raised, and before the oracle runs out, `n` of them in a row. */
  predicate Lasting(schedule: seq<Move>, n: nat) {
    && n <= |schedule|
    && (forall i :: 0 <= i < |schedule| && schedule[i].Break? ==> schedule[i].fault == SocketError)
    && (forall i :: |schedule| - n <= i < |schedule| ==> schedule[i].Break?)
  }

  lemma LastingTail(schedule: seq<Move>, n: nat)
    requires Lasting(schedule, n) && schedule != []
    ensures if n == 0 || !schedule[0].Break? then Lasting(schedule[1..], n) else Lasting(schedule[1..], n - 1)
  {
    var tail := schedule[1..];
    assert forall i :: 0 <= i < |tail| ==> tail[i] == schedule[i + 1];
  }

  lemma FewerLast(schedule: seq<Move>, n: nat)
    requires Lasting(schedule, n) && n > 0
    ensures Lasting(schedule, n - 1)
  {
  }

  lemma {:induction false} SettledLasts(c: Config, p: Port, n: nat, k: nat)
    requires n >= 1 && Lasting(p.schedule, n) && Clear(p.schedule, k)
    ensures var q := Settled(c, p);
            Lasting(q.schedule, n) && Clear(q.schedule, k) && q.schedule != [] && !q.schedule[0].Env?
    decreases |p.schedule|
  {
    if p.schedule[0].Env? {
      LastingTail(p.schedule, n);
      match EnvStep(c, p.fromZero, p.client, p.link, p.schedule[0].action)
      case None => SettledLasts(c, p.(schedule := p.schedule[1..]), n, k);
      case Some((client, link)) => SettledLasts(c, Port(client, link, p.fromZero, p.schedule[1..]), n, k);
    }
  }

  /** What is left of the oracle after an operation with this fault. */
  ghost predicate Spent(fault: Option<Fault>, n: nat, k: nat, rest: seq<Move>)
    requires n >= 1
  {
    && (k > 0 ==> fault.None? && Clear(rest, k - 1))
    && if fault.None? then Lasting(rest, n) else fault == Some(SocketError) && Lasting(rest, n - 1)
  }

  lemma DrawLasts(c: Config, p: Port, n: nat, k: nat)
    requires n >= 1 && Lasting(p.schedule, n) && Clear(p.schedule, k)
    ensures var q := Settled(c, p); Spent(Verdict(q.schedule), n, k, Rest(q.schedule))
  {
    SettledLasts(c, p, n, k);
    LastingTail(Settled(c, p).schedule, n);
  }

  lemma BoundLasts(c: Config, p: Port, zero: bool, n: nat, k: nat)
    requires n >= 1 && Lasting(p.schedule, n) && Clear(p.schedule, k)
    ensures var t := Bound(c, p, zero); Spent(t.fault, n, k, t.port.schedule)
  {
    DrawLasts(c, p, n, k);
  }

  lemma SentLasts(c: Config, p: Port, frame: Frame, n: nat, k: nat)
    requires n >= 1 && Lasting(p.schedule, n) && Clear(p.schedule, k)
    ensures var t := Sent(c, p, frame); Spent(t.fault, n, k, t.port.schedule)
  {
    DrawLasts(c, p, n, k);
  }

  lemma GotLasts(c: Config, p: Port, n: nat)
    requires n >= 1 && Lasting(p.schedule, n)
    ensures var g := Got(c, p); if g.raw.Ok? then Lasting(g.port.schedule, n) else Lasting(g.port.schedule, n - 1)
  {
    DrawLasts(c, p, n, 0);
    if Verdict(Settled(c, p).schedule).None? {
      FewerLast(Rest(Settled(c, p).schedule), n);
    }
  }

  lemma StoresLasts(c: Config, p: Port, file: Bytes, data: Bytes, n: nat)
    requires n >= 1 && Lasting(p.schedule, n)
    ensures var r := StoresChunk(c, p, file, data);
            if r.fault.None? then Lasting(r.port.schedule, n) else Lasting(r.port.schedule, n - 1)
  {
    SentLasts(c, p, Ack, n, 0);
    var acked := Sent(c, p, Ack);
    if acked.fault.None? {
      LastingTail(acked.port.schedule, n);
      FewerLast(Wrote(acked.port, |data|).port.schedule, n);
    }
  }

  lemma {:induction false} ReceivesLasts(c: Config, p: Port, file: Bytes, n: nat)
    requires n >= 1 && Lasting(p.schedule, n)
    ensures var r := Receives(c, p, file); r.fault.Some? ==> Lasting(r.port.schedule, n - 1)
    decreases |p.schedule|
  {
    GotLasts(c, p, n);
    var got := Got(c, p);
    match got.raw
    case Err(_) =>
    case Ok(Data(data)) =>
      StoresLasts(c, got.port, file, data, n);
      var kept := StoresChunk(c, got.port, file, data);
      if kept.fault.None? {
        ReceivesLasts(c, kept.port, kept.file.value, n);
      }
    case Ok(End) =>
    case Ok(_) => ReceivesLasts(c, got.port, file, n);
  }

  lemma TouchedLasts(c: Config, p: Port, n: nat, k: nat)
    requires n >= 1 && Lasting(p.schedule, n) && Clear(p.schedule, k)
    ensures var t := Touched(c, p); Spent(t.fault, n, k, t.port.schedule)
  {
    DrawLasts(c, p, n, k);
  }

  /** One of the `k` operations that do not raise is done. */
  function Less(k: nat): nat {
    if k == 0 then 0 else k - 1
  }

  lemma ShardLasts(c: Config, p: Port, file: Option<Bytes>, n: nat, k: nat)
    requires n >= 1 && Lasting(p.schedule, n) && Clear(p.schedule, k) && (k == 0 || k == 3)
    ensures var r := ShardOpens(c, p, file);
            && (r.fault.Some? ==> k == 0 && r.fault == Some(SocketError))
            && (r.fault.None? ==> Lasting(r.port.schedule, n))
  {
    TouchedLasts(c, p, n, k);
    var measured := Touched(c, p);
    if file.Some? && measured.fault.None? {
      SentLasts(c, measured.port, Resume(|file.value|), n, Less(k));
      var resumed := Sent(c, measured.port, Resume(|file.value|));
      if resumed.fault.None? {
        TouchedLasts(c, resumed.port, n, Less(Less(k)));
      }
    }
  }

  lemma OpeningLasts(c: Config, p: Port, file: Option<Bytes>, n: nat, k: nat)
    requires n >= 1 && Lasting(p.schedule, n) && Clear(p.schedule, k) && (k == 0 || k == 5)
    ensures var r := ReceiverOpens(c, p, file);
            && (r.fault.Some? ==> k == 0 && r.fault == Some(SocketError))
            && (r.fault.None? ==> Lasting(r.port.schedule, n))
  {
    BoundLasts(c, p, file.None?, n, k);
    var bound := Bound(c, p, file.None?);
    if bound.fault.None? {
      SentLasts(c, bound.port, Start, n, Less(k));
      var started := Sent(c, bound.port, Start);
      if started.fault.None? {
        ShardLasts(c, started.port, file, n, Less(Less(k)));
      }
    }
  }

  /**
   No exception escapes from a receiving node, whatever its client does, if only socket errors are
   raised, none by the first five operations, and the oracle does not run out before two in a row.
   */
  lemma NoReceiverEscapes(c: Config, p: Port, file: Option<Bytes>)
    requires Clear(p.schedule, 5) && Lasting(p.schedule, 2)
    ensures !ReceiverEscapes(c, p, file) && !ReceiverOutcome(c, p, file).Escaped?
  {
    ReceiverEscapesIff(c, p, file);
    OpeningLasts(c, p, file, 2, 5);
    var first := ReceiverOpens(c, p, file);
    ReceivesLasts(c, first.port, first.file.value, 2);
    var broken := Receives(c, first.port, first.file.value);
    if broken.fault.Some? {
      OpeningLasts(c, broken.port, broken.file, 1, 0);
    }
  }

  // ----- nothing raised, and time for every chunk

  /** How many operations the oracle has an answer for. */
  function Turns(schedule: seq<Move>): nat {
    if schedule == [] then 0 else (if schedule[0].Env? then 0 else 1) + Turns(schedule[1..])
  }

  predicate Smooth(schedule: seq<Move>) {
    forall i :: 0 <= i < |schedule| ==> !schedule[i].Break?
  }

  lemma {:induction false} SettledTurns(c: Config, p: Port)
    requires Smooth(p.schedule)
    ensures var q := Settled(c, p); Smooth(q.schedule) && Turns(q.schedule) == Turns(p.schedule)
    ensures var q := Settled(c, p); Turns(p.schedule) > 0 ==>
              Verdict(q.schedule).None? && Smooth(Rest(q.schedule)) && Turns(Rest(q.schedule)) == Turns(p.schedule) - 1
    decreases |p.schedule|
  {
    if p.schedule != [] && p.schedule[0].Env? {
      match EnvStep(c, p.fromZero, p.client, p.link, p.schedule[0].action)
      case None => SettledTurns(c, p.(schedule := p.schedule[1..]));
      case Some((client, link)) => SettledTurns(c, Port(client, link, p.fromZero, p.schedule[1..]));
    }
  }

  /** `used` operations later, nothing was raised and nothing will be. */
  ghost predicate Used(p: Port, used: nat, q: Port) {
    Smooth(q.schedule) && Turns(q.schedule) + used >= Turns(p.schedule)
  }

  lemma SentTurns(c: Config, p: Port, frame: Frame)
    requires Smooth(p.schedule) && Turns(p.schedule) >= 1
    ensures Sent(c, p, frame).fault.None? && Used(p, 1, Sent(c, p, frame).port)
  {
    SettledTurns(c, p);
  }

  lemma BoundTurns(c: Config, p: Port, zero: bool)
    requires Smooth(p.schedule) && Turns(p.schedule) >= 1
    ensures Bound(c, p, zero).fault.None? && Used(p, 1, Bound(c, p, zero).port)
  {
    SettledTurns(c, p);
  }

  lemma GotTurns(c: Config, p: Port)
    requires Smooth(p.schedule) && Turns(p.schedule) >= 1
    ensures Used(p, 1, Got(c, p).port)
  {
    SettledTurns(c, p);
  }

  lemma TouchedTurns(c: Config, p: Port)
    requires Smooth(p.schedule) && Turns(p.schedule) >= 1
    ensures Touched(c, p).fault.None? && Used(p, 1, Touched(c, p).port)
  {
    SettledTurns(c, p);
  }

  lemma ReceiverOpensTurns(c: Config, p: Port, file: Option<Bytes>)
    requires Smooth(p.schedule) && Turns(p.schedule) >= 5
    ensures ReceiverOpens(c, p, file).fault.None? && Used(p, 5, ReceiverOpens(c, p, file).port)
  {
    BoundTurns(c, p, file.None?);
    var bound := Bound(c, p, file.None?).port;
    SentTurns(c, bound, Start);
    var started := Sent(c, bound, Start).port;
    TouchedTurns(c, started);
    if file.Some? {
      var measured := Touched(c, started).port;
      SentTurns(c, measured, Resume(|file.value|));
      TouchedTurns(c, Sent(c, measured, Resume(|file.value|)).port);
    }
  }

  /** Getting from `p` to `q` took at most `used` operations, if the oracle has as many answers and raises nothing. */
  ghost predicate Spends(p: Port, used: nat, q: Port) {
    Smooth(p.schedule) && Turns(p.schedule) >= used ==> Used(p, used, q)
  }

  /** The oracle raises nothing and has an answer for `turns` operations. */
  predicate Patient(p: Port, turns: nat) {
    Smooth(p.schedule) && Turns(p.schedule) >= turns
  }

  /** With time left for it, a reconnect does not raise. */
  lemma NoRetryEscapes(c: Config, p: Port, used: nat, q: Port, file: Option<Bytes>)
    requires Spends(p, used, q)
    ensures Patient(p, used + 5) ==> !ReceiverRetries(c, q, file).Escaped?
  {
    if Patient(p, used + 5) {
      ReceiverOpensTurns(c, q, file);
    }
  }

  lemma SpendsMore(p: Port, some: nat, q: Port, more: nat, r: Port, all: nat)
    requires Spends(p, some, q) && Spends(q, more, r) && all >= some + more
    ensures Spends(p, all, r)
  {
  }

  lemma GotSpends(c: Config, p: Port)
    ensures Spends(p, 1, Got(c, p).port)
  {
    if Smooth(p.schedule) && Turns(p.schedule) >= 1 {
      GotTurns(c, p);
    }
  }

  lemma StoreSpends(c: Config, p: Port, file: Bytes, data: Bytes)
    ensures Spends(p, 2, StoresChunk(c, p, file, data).port)
  {
    if Smooth(p.schedule) && Turns(p.schedule) >= 2 {
      SentTurns(c, p, Ack);
      var acked := Sent(c, p, Ack).port;
      assert acked.schedule != [] ==> Smooth(acked.schedule[1..]);
    }
  }

  lemma DeliversTurns(c: Config, p: Port, chunk: Bytes)
    requires Smooth(p.schedule) && Turns(p.schedule) >= 2
    ensures Used(p, 2, Delivers(c, p, chunk).port)
  {
    SentTurns(c, p, Data(chunk));
    GotTurns(c, Sent(c, p, Data(chunk)).port);
  }

  function Left(c: Config, cursor: nat): nat {
    if cursor >= |c.source| then 0 else |c.source| - cursor
  }

  lemma ReadLeft(c: Config, cursor: nat)
    requires ValidConfig(c)
    ensures var next := ReadAt(c, cursor);
            |next| + Left(c, cursor + |next|) == Left(c, cursor) && (next == [] ==> Left(c, cursor) == 0)
  {
  }

  lemma UsedMore(p: Port, some: nat, q: Port, more: nat, r: Port)
    requires Used(p, some, q) && Used(q, more, r)
    ensures Used(p, some + more, r)
  {
  }

  lemma {:induction false} LoopTakes(c: Config, p: Port, chunk: Bytes, cursor: nat, end: Transmission, turns: nat)
    requires ValidConfig(c) && Smooth(p.schedule) && turns == 2 * (|chunk| + Left(c, cursor)) <= Turns(p.schedule)
    requires LoopEnds(c, p, chunk, cursor, end)
    ensures Used(p, turns, end.port)
    decreases |p.schedule|
  {
    LoopTurns(c, p, chunk, cursor, end);
    if chunk != [] {
      DeliversTurns(c, p, chunk);
      var d, next, rest := Delivers(c, p, chunk), ReadAt(c, cursor), 2 * Left(c, cursor);
      ReadLeft(c, cursor);
      if d.fault.None? {
        LoopTakes(c, d.port, next, cursor + |next|, end, rest);
        UsedMore(p, 2, d.port, rest, end.port);
      }
    }
  }

  lemma TransmitsFromTurns(c: Config, p: Port, cursor: nat)
    requires ValidConfig(c) && Smooth(p.schedule) && Turns(p.schedule) >= 2 * |c.source|
    ensures Used(p, 2 * |c.source|, TransmitsFrom(c, p, cursor).port)
  {
    var first, end := ReadAt(c, cursor), TransmitsFrom(c, p, cursor);
    ReadLeft(c, cursor);
    LoopStarts(c, p, cursor);
    LoopTakes(c, p, first, cursor + |first|, end, 2 * Left(c, cursor));
  }

  lemma ReopeningTurns(c: Config, p: Port)
    requires Smooth(p.schedule) && Turns(p.schedule) >= 3
    ensures Used(p, 3, SenderOpens(c, p, false).port)
  {
    BoundTurns(c, p, false);
    var bound := Bound(c, p, false).port;
    SentTurns(c, bound, Start);
    GotTurns(c, Sent(c, bound, Start).port);
  }

  lemma SessionsTurns(c: Config, p: Port, cursor: nat)
    requires ValidConfig(c) && Smooth(p.schedule) && Turns(p.schedule) >= 4 * |c.source| + 3
    ensures Used(p, 4 * |c.source| + 3, SenderSessions(c, p, cursor).port)
  {
    TransmitsFromTurns(c, p, cursor);
    var broken := TransmitsFrom(c, p, cursor);
    if broken.fault.Some? {
      ReopeningTurns(c, broken.port);
      var again := SenderOpens(c, broken.port, false);
      if again.fault.None? {
        TransmitsFromTurns(c, again.port, again.cursor);
      }
    }
  }

  /**
   No exception escapes from a fresh download, whatever its client does or fails to do, if no
   operation is made to raise and the oracle has an answer for 4 * length + 6 of them.
   */
  lemma NoSenderEscapes(c: Config, p: Port)
    requires ValidConfig(c) && Smooth(p.schedule) && Turns(p.schedule) >= 4 * |c.source| + 6
    ensures !SenderEscapes(c, p, true) && !SenderOutcome(c, p, true).Escaped?
  {
    SenderEscapesIff(c, p, true);
    BoundTurns(c, p, true);
    var bound := Bound(c, p, true).port;
    SentTurns(c, bound, Start);
    var first := SenderOpens(c, p, true);
    SessionsTurns(c, first.port, first.cursor);
    SentTurns(c, SenderSessions(c, first.port, first.cursor).port, End);
  }

  // ----- and calls from which one does escape

  /** A new upload of one byte. */
  const ONE_BYTE: Config := Config(NodeReceives, [7], 1)

  function Beginning(schedule: seq<Move>): Port {
    Port(Sending(Sender(SOff, 0)), Link([], []), true, schedule)
  }

  /** The client has joined and taken the start frame, and is not heard of again. */
  function Vanished(schedule: seq<Move>): Port {
    Port(Sending(Sender(SRead, 0)), Link([], []), true, schedule)
  }

  const VANISHES: seq<Move> := [Go, Env(PeerJoin), Go, Env(TakeStart), Go, Go]

  lemma Settles(c: Config, p: Port, a: Action, rest: seq<Move>)
    requires p.schedule == [Env(a)] + rest && rest != [] && !rest[0].Env?
    ensures Settled(c, p) == match EnvStep(c, p.fromZero, p.client, p.link, a)
                             case None => p.(schedule := rest)
                             case Some((client, link)) => Port(client, link, p.fromZero, rest)
  {
    assert p.schedule[1..] == rest;
  }

  lemma OpensThenVanishes(later: seq<Move>)
    ensures ReceiverOpens(ONE_BYTE, Beginning(VANISHES + later), None)
            == Reception(None, Vanished([Go] + later), Some([]))
  {
    var s0 := VANISHES + later;
    var s1 := [Env(PeerJoin), Go, Env(TakeStart), Go, Go] + later;
    var s2 := [Go, Env(TakeStart), Go, Go] + later;
    var s3 := [Env(TakeStart), Go, Go] + later;
    var s4 := [Go, Go] + later;
    assert s0[1..] == s1 && s1 == [Env(PeerJoin)] + s2 && s2[1..] == s3 && s3 == [Env(TakeStart)] + s4;
    assert s4[1..] == [Go] + later;
    var bound := Bound(ONE_BYTE, Beginning(s0), true).port;
    assert bound == Beginning(s1);
    Settles(ONE_BYTE, bound, PeerJoin, s2);
    var started := Sent(ONE_BYTE, bound, Start).port;
    assert started == Port(Sending(Sender(SStart, 0)), Link([], [Start]), true, s3);
    Settles(ONE_BYTE, started, TakeStart, s4);
  }

  lemma ThenTimesOut(later: seq<Move>)
    ensures Receives(ONE_BYTE, Vanished([Go] + later), []) == Reception(Some(OtherError), Vanished(later), Some([]))
  {
    assert ([Go] + later)[1..] == later;
  }

  /** The receive times out, the port is bound again, and the new start frame times out: the exception escapes. */
  lemma TimeoutEscapes()
    ensures var p := Beginning(VANISHES + [Go, Break(OtherError)]);
            var first := ReceiverOpens(ONE_BYTE, p, None);
            var broken := Receives(ONE_BYTE, first.port, []);
            && first.fault.None? && broken.fault == Some(OtherError) && Bound(ONE_BYTE, broken.port, false).fault.None?
            && ReceiverOutcome(ONE_BYTE, p, None) == Escaped
  {
    var later := [Go, Break(OtherError)];
    OpensThenVanishes(later);
    ThenTimesOut(later);
    var bound := Bound(ONE_BYTE, Vanished(later), false);
    assert bound.fault.None? && bound.port.schedule == [Break(OtherError)];
    assert ReceiverOpens(ONE_BYTE, Vanished(later), Some([])).fault == Some(OtherError);
  }

  /** The same session, but the client is back in time, and it is the length of the file that cannot be read. */
  lemma FileErrorGivesUp()
    ensures ReceiverOutcome(ONE_BYTE, Beginning(VANISHES + [Go, Env(PeerJoin), Go, Break(SocketError)]), None) == GaveUp
  {
    var later := [Go, Env(PeerJoin), Go, Break(SocketError)];
    OpensThenVanishes(later);
    ThenTimesOut(later);
    var bound := Bound(ONE_BYTE, Vanished(later), false);
    assert later[1..] == [Env(PeerJoin)] + [Go, Break(SocketError)];
    assert bound == Turn(None, Port(Sending(Sender(SOff, 0)), Link([], []), false, later[1..]));
    Settles(ONE_BYTE, bound.port, PeerJoin, [Go, Break(SocketError)]);
    var started := Sent(ONE_BYTE, bound.port, Start);
    assert [Go, Break(SocketError)][1..] == [Break(SocketError)];
    assert started.fault.None? && started.port.schedule == [Break(SocketError)];
    assert Touched(ONE_BYTE, started.port).fault == Some(SocketError);
  }

  /** A new download of an empty shard. */
  const NO_BYTES: Config := Config(NodeSends, [], 1)

  /** A client that joins, takes the start frame and is gone when END is to be sent. */
  const GONE_AT_END: seq<Move> := [Go, Env(PeerJoin), Go, Env(TakeStart), Break(OtherError)]

  function Awaiting(file: Option<Bytes>): Port {
    Port(Receiving(Receiver(ROff, file, 0)), Link([], []), true, GONE_AT_END)
  }

  /** Everything was transmitted, sending END times out, and the exception escapes. */
  lemma EndEscapes()
    ensures SenderOutcome(NO_BYTES, Awaiting(None), true) == Escaped
  {
    var s1 := GONE_AT_END[1..];
    var s2 := [Go, Env(TakeStart), Break(OtherError)];
    var s3 := [Env(TakeStart), Break(OtherError)];
    assert s1 == [Env(PeerJoin)] + s2 && s2[1..] == s3 && s3 == [Env(TakeStart)] + [Break(OtherError)];
    var bound := Bound(NO_BYTES, Awaiting(None), true);
    assert bound == Turn(None, Port(Receiving(Receiver(ROff, None, 0)), Link([], []), true, s1));
    Settles(NO_BYTES, bound.port, PeerJoin, s2);
    var started := Sent(NO_BYTES, bound.port, Start);
    assert started.fault.None? && started.port.schedule == s3;
    Settles(NO_BYTES, started.port, TakeStart, [Break(OtherError)]);
    assert Sent(NO_BYTES, started.port, End).fault == Some(OtherError);
    assert SenderOpens(NO_BYTES, Awaiting(None), true) == Transmission(None, started.port, 0);
    assert TransmitsFrom(NO_BYTES, started.port, 0) == Transmission(None, started.port, 0);
  }
}
