/**
 Many threads on one ledger: transfers that register, run and unregister, readers that list, and
 restarts that replay whatever the file still holds.

 Every access to the ledger is five separate steps of its thread (acquire the semaphore, read the
 file, edit the list, write the file, release), interleaved with the steps of all other threads in
 any order.
 */
module LedgerThreads {
  import opened Wrappers
  import opened ConnectionLedgers
  import opened NodeParts

  datatype Op = Register | Unregister | List

  /** Started: the thread has not yet looked at its request's port. */
  datatype Pc =
    | Started
    | Acquire(op: Op)
    | Read(op: Op)
    | Edit(op: Op, entries: seq<Request>)
    | Write(op: Op, entries: seq<Request>)
    | Release(op: Op)
    | Transferring
    | Ended

  /**
   A thread working for a request.  `registered` says whether its entry has been written and not
   yet removed again; `recovered` that it was started for an entry of the ledger.
   */
  datatype Worker = Worker(request: Request, pc: Pc, registered: bool, recovered: bool)

  /** A ledger access, at the moment it took effect, with its result. */
  datatype Event = Changed(op: Op, request: Request, fault: WriteFault, ok: bool) | Listed(entries: seq<Request>)

  datatype System = System(file: LedgerFile<Request>, holder: Option<nat>, workers: seq<Worker>, log: seq<Event>)

  datatype Step =
    | Dispatch(request: Request)           // a request with port zero arrives
    | Query(request: Request)              // some thread lists the ledger
    | Allocate(i: nat, found: nat)         // a thread looks at its port and finds one if it is zero
    | Move(i: nat, fault: WriteFault)      // the next ledger step of a thread
    | Return(i: nat)                       // a transfer ends and goes on to unregister
    | Escape(i: nat)                       // a transfer ends by an exception, before unregister
    | Restart                              // the process dies and a new one recovers

  /** The range transfer ports are drawn from. */
  const LOWEST_PORT: nat := 50100
  const HIGHEST_PORT: nat := 60000

  /** Recovery: one worker per entry, in the order of the file, each handled like any other request. */
  function Recovered(entries: seq<Request>): seq<Worker> {
    seq(|entries|, i requires 0 <= i < |entries| => Worker(entries[i], Started, true, true))
  }

  function Boot(file: LedgerFile<Request>): System {
    System(file, None, Recovered(Entries(file)), [])
  }

  function With(s: System, i: nat, w: Worker): System
    requires i < |s.workers|
  {
    s.(workers := s.workers[i := w])
  }

  function MoveWorker(s: System, i: nat, fault: WriteFault): Option<System>
    requires i < |s.workers|
  {
    var w := s.workers[i];
    match w.pc
    case Acquire(op) =>
      if s.holder.None? then Some(With(s, i, w.(pc := Read(op))).(holder := Some(i))) else None
    case Read(op) =>
      var read := With(s, i, w.(pc := if op.List? then Release(op) else Edit(op, Entries(s.file))));
      Some(if op.List? then read.(log := s.log + [Listed(Entries(s.file))]) else read)
    case Edit(op, entries) =>
      if op.Register? then Some(With(s, i, w.(pc := Write(op, entries + [w.request]))))
      else (match RemoveFirst(entries, w.request)
            case Some(rest) => Some(With(s, i, w.(pc := Write(op, rest))))
            case None =>
              Some(With(s, i, w.(pc := Release(op))).(log := s.log + [Changed(op, w.request, NoFault, false)])))
    case Write(op, entries) =>
      var ok := fault.NoFault?;
      Some(With(s, i, w.(pc := Release(op), registered := if ok then op.Register? else w.registered)).(
             file := Written(s.file, entries, fault), log := s.log + [Changed(op, w.request, fault, ok)]))
    case Release(op) =>
      Some(With(s, i, w.(pc := if op.Register? then Transferring else Ended)).(holder := None))
    case _ => None
  }

  /** The beginning of `dispatch`: only a request whose port is zero gets a port, and registers. */
  function AllocatePort(s: System, i: nat, found: nat): Option<System>
    requires i < |s.workers|
  {
    var w := s.workers[i];
    if !w.pc.Started? then None
    else if w.request.port != 0 then Some(With(s, i, w.(pc := Transferring)))
    else if LOWEST_PORT <= found <= HIGHEST_PORT then
      Some(With(s, i, w.(request := w.request.(port := found), pc := Acquire(Register), registered := false)))
    else None
  }

  function Next(s: System, step: Step): Option<System> {
    match step
    case Dispatch(request) =>
      if request.port == 0 then Some(s.(workers := s.workers + [Worker(request, Started, false, false)])) else None
    case Query(request) => Some(s.(workers := s.workers + [Worker(request, Acquire(List), false, false)]))
    case Allocate(i, found) => if i < |s.workers| then AllocatePort(s, i, found) else None
    case Move(i, fault) => if i < |s.workers| then MoveWorker(s, i, fault) else None
    case Return(i) =>
      if i < |s.workers| && s.workers[i].pc.Transferring?
          then Some(With(s, i, s.workers[i].(pc := Acquire(Unregister)))) else None
    case Escape(i) =>
      if i < |s.workers| && s.workers[i].pc.Transferring? then Some(With(s, i, s.workers[i].(pc := Ended))) else None
    case Restart => Some(s.(holder := None, workers := Recovered(Entries(s.file))))
  }

  function Exec(s: System, run: seq<Step>): Option<System> {
    if run == [] then Some(s)
    else match Exec(s, run[..|run| - 1])
         case None => None
         case Some(mid) => Next(mid, run[|run| - 1])
  }

  // ----- the ledger as one sequential object

  /** The file after the logged accesses, performed one after another. */
  function Replay(file: LedgerFile<Request>, log: seq<Event>): LedgerFile<Request> {
    if log == [] then file
    else
      var before := Replay(file, log[..|log| - 1]);
      match log[|log| - 1]
      case Listed(_) => before
      case Changed(op, request, fault, _) =>
        if op.Register? then Registered(before, request, fault) else Unregistered(before, request, fault)
  }

  /** Every logged access returned what the sequential ledger returns at that point. */
  ghost predicate Legal(file: LedgerFile<Request>, log: seq<Event>) {
    log == [] ||
    (var before := Replay(file, log[..|log| - 1]);
     && Legal(file, log[..|log| - 1])
     && match log[|log| - 1]
        case Listed(entries) => entries == Entries(before)
        case Changed(op, request, fault, ok) =>
          !op.List? && (ok <==> fault.NoFault? && (op.Register? || request in Entries(before))))
  }

  // ----- mutual exclusion and linearizability

  predicate Critical(pc: Pc) {
    pc.Read? || pc.Edit? || pc.Write? || pc.Release?
  }

  /** What the thread inside the critical section has in memory agrees with the file. */
  ghost predicate UpToDate(file: LedgerFile<Request>, w: Worker) {
    match w.pc
    case Edit(op, entries) => !op.List? && entries == Entries(file)
    case Write(op, entries) => !op.List? &&
      (if op.Register? then entries == Entries(file) + [w.request]
          else RemoveFirst(Entries(file), w.request) == Some(entries))
    case _ => true
  }

  ghost predicate Exclusive(s: System) {
    && (forall i :: 0 <= i < |s.workers| && Critical(s.workers[i].pc) ==> s.holder == Some(i))
    && (forall i :: 0 <= i < |s.workers| ==> UpToDate(s.file, s.workers[i]))
  }

  ghost predicate Linear(file: LedgerFile<Request>, s: System) {
    Exclusive(s) && s.file == Replay(file, s.log) && Legal(file, s.log)
  }

  lemma MoveKeepsExclusive(s: System, i: nat, fault: WriteFault, s': System)
    requires Exclusive(s) && i < |s.workers| && MoveWorker(s, i, fault) == Some(s')
    ensures Exclusive(s')
  {
    var w := s.workers[i];
    assert UpToDate(s.file, w);
    forall j | 0 <= j < |s'.workers|
      ensures UpToDate(s'.file, s'.workers[j]) && (Critical(s'.workers[j].pc) ==> s'.holder == Some(j))
    {
      assert UpToDate(s.file, s.workers[j]);
      if j != i {
        assert s'.workers[j] == s.workers[j];
      }
    }
  }

  lemma MoveKeepsReplay(file: LedgerFile<Request>, s: System, i: nat, fault: WriteFault, s': System)
    requires Linear(file, s) && i < |s.workers| && MoveWorker(s, i, fault) == Some(s')
    ensures s'.file == Replay(file, s'.log) && Legal(file, s'.log)
  {
    assert UpToDate(s.file, s.workers[i]);
    if s'.log != s.log {
      assert s'.log[..|s'.log| - 1] == s.log;
    }
  }

  lemma NextKeepsLinear(file: LedgerFile<Request>, s: System, step: Step, s': System)
    requires Linear(file, s) && Next(s, step) == Some(s')
    ensures Linear(file, s')
  {
    if step.Move? {
      MoveKeepsExclusive(s, step.i, step.fault, s');
      MoveKeepsReplay(file, s, step.i, step.fault, s');
    }
  }

  /**
   Linearizability: in every interleaving of any number of threads, with any faults and restarts,
   the file is the result of the logged accesses performed one after another, and every access
   returned what it returns in that order.  No two threads are ever inside the ledger at once.
   */
  lemma {:induction false} Linearizable(file: LedgerFile<Request>, run: seq<Step>, s: System)
    requires Exec(Boot(file), run) == Some(s)
    ensures Linear(file, s)
    ensures forall i, j :: 0 <= i < j < |s.workers| ==> !(Critical(s.workers[i].pc) && Critical(s.workers[j].pc))
    decreases |run|
  {
    if run != [] {
      var mid := Exec(Boot(file), run[..|run| - 1]).value;
      Linearizable(file, run[..|run| - 1], mid);
      NextKeepsLinear(file, mid, run[|run| - 1], s);
    }
  }

  // ----- no lost update

  function Added(log: seq<Event>): multiset<Request> {
    if log == [] then multiset{} else
      Added(log[..|log| - 1]) + AddedBy(log[|log| - 1])
  }

  function Removed(log: seq<Event>): multiset<Request> {
    if log == [] then multiset{} else
      Removed(log[..|log| - 1]) + RemovedBy(log[|log| - 1])
  }

  /** No write of the ledger file broke off half-way. */
  ghost predicate Unspoiled(log: seq<Event>) {
    forall i :: 0 <= i < |log| ==> log[i].Changed? ==> !log[i].fault.BreaksOff?
  }

  lemma MultisetCancel(a: multiset<Request>, b: multiset<Request>, c: multiset<Request>)
    requires a + c == b + c
    ensures a == b
  {
    assert a == (a + c) - c;
    assert b == (b + c) - c;
  }

  lemma MultisetSwap(a: multiset<Request>, b: multiset<Request>, c: multiset<Request>)
    ensures (a + b) + c == (a + c) + b
  {
  }

  lemma MultisetShift(a: multiset<Request>, b: multiset<Request>, c: multiset<Request>, d: multiset<Request>,
      r: multiset<Request>)
    requires a + c == b + d
    ensures (a + r) + c == (b + r) + d
  {
    assert (a + r) + c == (a + c) + r;
    assert (b + r) + d == (b + d) + r;
  }

  /** One access adds or removes what the log says it did. */
  lemma AccessConserves(before: LedgerFile<Request>, e: Event, after: LedgerFile<Request>)
    requires e.Changed? && !e.op.List? && !e.fault.BreaksOff?
    requires e.ok <==> e.fault.NoFault? && (e.op.Register? || e.request in Entries(before))
    requires after == if e.op.Register? then Registered(before, e.request, e.fault)
             else Unregistered(before, e.request, e.fault)
    ensures !e.ok ==> after == before
    ensures e.ok && e.op.Register? ==> multiset(Entries(after)) == multiset(Entries(before)) + multiset{e.request}
    ensures e.ok && e.op.Unregister? ==> multiset(Entries(after)) + multiset{e.request} == multiset(Entries(before))
  {
  }

  function AddedBy(e: Event): multiset<Request> {
    if e.Changed? && e.op.Register? && e.ok then multiset{e.request} else multiset{}
  }

  function RemovedBy(e: Event): multiset<Request> {
    if e.Changed? && e.op.Unregister? && e.ok then multiset{e.request} else multiset{}
  }

  lemma EventConserves(file: LedgerFile<Request>, log: seq<Event>)
    requires log != [] && Legal(file, log) && Unspoiled(log)
    ensures var e := log[|log| - 1];
            multiset(Entries(Replay(file, log))) + RemovedBy(e)
                == multiset(Entries(Replay(file, log[..|log| - 1]))) + AddedBy(e)
  {
    var init, e := log[..|log| - 1], log[|log| - 1];
    if e.Changed? {
      AccessConserves(Replay(file, init), e, Replay(file, log));
    }
  }

  lemma Conserved(start: multiset<Request>, added: multiset<Request>, removed: multiset<Request>,
      before: multiset<Request>,
                  come: multiset<Request>, gone: multiset<Request>, after: multiset<Request>)
    requires before + removed == start + added && after + gone == before + come
    ensures after + (removed + gone) == start + (added + come)
  {
    assert after + (removed + gone) == (after + gone) + removed;
    assert (before + come) + removed == (before + removed) + come;
    assert (start + added) + come == start + (added + come);
  }

  lemma {:induction false} ReplayConserves(file: LedgerFile<Request>, log: seq<Event>)
    requires Legal(file, log) && Unspoiled(log)
    ensures multiset(Entries(Replay(file, log))) + Removed(log) == multiset(Entries(file)) + Added(log)
  {
    if log != [] {
      var init, e := log[..|log| - 1], log[|log| - 1];
      ReplayConserves(file, init);
      EventConserves(file, log);
      Conserved(multiset(Entries(file)), Added(init), Removed(init), multiset(Entries(Replay(file, init))),
                AddedBy(e), RemovedBy(e), multiset(Entries(Replay(file, log))));
    }
  }

  /** The pending requests are the initial ones plus the successful registers minus the successful unregisters. */
  lemma NoLostUpdate(file: LedgerFile<Request>, run: seq<Step>, s: System)
    requires Exec(Boot(file), run) == Some(s) && Unspoiled(s.log)
    ensures multiset(Entries(s.file)) + Removed(s.log) == multiset(Entries(file)) + Added(s.log)
  {
    Linearizable(file, run, s);
    ReplayConserves(file, s.log);
  }

  // ----- no entry without a port

  predicate PortsGiven(entries: seq<Request>) {
    forall i :: 0 <= i < |entries| ==> entries[i].port != 0
  }

  predicate Registering(pc: Pc) {
    match pc
    case Acquire(op) => op.Register?
    case Read(op) => op.Register?
    case Edit(op, _) => op.Register?
    case Write(op, _) => op.Register?
    case Release(op) => op.Register?
    case _ => false
  }

  /** A thread that was started for an entry is nowhere in a register, and nobody is about to write port zero. */
  predicate Ported(w: Worker) {
    && (w.pc.Started? && w.recovered ==> w.request.port != 0)
    && (Registering(w.pc) ==> !w.recovered && w.request.port != 0)
    && (w.pc.Edit? ==> PortsGiven(w.pc.entries))
    && (w.pc.Write? ==> PortsGiven(w.pc.entries))
  }

  ghost predicate AllPorted(s: System) {
    PortsGiven(Entries(s.file)) && forall i :: 0 <= i < |s.workers| ==> Ported(s.workers[i])
  }

  lemma RemovedKeepsPorts(entries: seq<Request>, request: Request)
    requires PortsGiven(entries) && RemoveFirst(entries, request).Some?
    ensures PortsGiven(RemoveFirst(entries, request).value)
  {
    var rest := RemoveFirst(entries, request).value;
    forall i | 0 <= i < |rest| ensures rest[i].port != 0 {
      assert rest[i] in multiset(rest) + multiset{request};
      assert rest[i] in entries;
    }
  }

  lemma EditKeepsPorts(s: System, i: nat, fault: WriteFault, s': System)
    requires AllPorted(s) && i < |s.workers| && s.workers[i].pc.Edit? && MoveWorker(s, i, fault) == Some(s')
    ensures s'.file == s.file && Ported(s'.workers[i])
  {
    var w := s.workers[i];
    assert Ported(w);
    if !w.pc.op.Register? && RemoveFirst(w.pc.entries, w.request).Some? {
      RemovedKeepsPorts(w.pc.entries, w.request);
    }
  }

  lemma MoveKeepsPorts(s: System, i: nat, fault: WriteFault, s': System)
    requires AllPorted(s) && i < |s.workers| && MoveWorker(s, i, fault) == Some(s')
    ensures PortsGiven(Entries(s'.file)) && Ported(s'.workers[i])
  {
    assert Ported(s.workers[i]);
    if s.workers[i].pc.Edit? {
      EditKeepsPorts(s, i, fault, s');
    }
  }

  lemma NextKeepsPorts(s: System, step: Step, s': System)
    requires AllPorted(s) && Next(s, step) == Some(s')
    ensures AllPorted(s')
  {
    match step
    case Move(i, fault) =>
      MoveKeepsPorts(s, i, fault, s');
      assert forall j :: 0 <= j < |s'.workers| && j != i ==> s'.workers[j] == s.workers[j];
    case Allocate(i, _) =>
      assert Ported(s.workers[i]);
      assert forall j :: 0 <= j < |s'.workers| && j != i ==> s'.workers[j] == s.workers[j];
    case _ =>
  }

  /**
   In every run, under any faults and restarts, every entry of the ledger has a port, so that no
   thread that recovery started for an entry ever registers again.
   */
  lemma {:induction false} RecoveryNeverReregisters(file: LedgerFile<Request>, run: seq<Step>, s: System)
    requires PortsGiven(Entries(file)) && Exec(Boot(file), run) == Some(s)
    ensures AllPorted(s)
    ensures forall i :: 0 <= i < |s.workers| && s.workers[i].recovered ==> !Registering(s.workers[i].pc)
    decreases |run|
  {
    if run != [] {
      var mid := Exec(Boot(file), run[..|run| - 1]).value;
      RecoveryNeverReregisters(file, run[..|run| - 1], mid);
      NextKeepsPorts(mid, run[|run| - 1], s);
    }
    assert forall i :: 0 <= i < |s.workers| ==> Ported(s.workers[i]);
  }

  /**
   For an entry without a port it would: its thread registers once more, and from its first step on
   the ledger has an entry that no transfer answers for.  With a port it is taken up as it stands.
   */
  lemma TakenUpIffPort(file: LedgerFile<Request>, i: nat, found: nat, s: System)
    requires i < |Entries(file)| && Next(Boot(file), Allocate(i, found)) == Some(s)
    ensures Registering(s.workers[i].pc) <==> Entries(file)[i].port == 0
    ensures multiset(Entries(s.file)) == Open(s.workers) <==> Entries(file)[i].port != 0
  {
    TakenUp(file, i, found, s);
    var entries := Entries(file);
    OpenRecovered(entries);
    OpenUpdated(Recovered(entries), i, s.workers[i]);
    if entries[i].port == 0 {
      OneFewer(Open(s.workers), entries[i], multiset(entries));
    } else {
      MultisetCancel(Open(s.workers), multiset(entries), multiset{entries[i]});
    }
  }

  lemma TakenUp(file: LedgerFile<Request>, i: nat, found: nat, s: System)
    requires i < |Entries(file)| && Next(Boot(file), Allocate(i, found)) == Some(s)
    ensures var e, workers := Entries(file)[i], Recovered(Entries(file));
            && s.file == file && s.workers == workers[i := s.workers[i]] && Own(workers[i]) == multiset{e}
            && Own(s.workers[i]) == (if e.port == 0 then multiset{} else multiset{e})
            && (Registering(s.workers[i].pc) <==> e.port == 0)
  {
  }

  lemma OneFewer(a: multiset<Request>, x: Request, b: multiset<Request>)
    requires a + multiset{x} == b
    ensures a != b
  {
    assert (a + multiset{x})[x] == a[x] + 1;
  }

  // ----- the ledger and the transfers

  function Own(w: Worker): multiset<Request> {
    if w.registered then multiset{w.request} else multiset{}
  }

  /** The requests that are registered and whose transfer has not got its entry removed. */
  function Open(workers: seq<Worker>): multiset<Request> {
    if workers == [] then multiset{} else Open(workers[..|workers| - 1]) + Own(workers[|workers| - 1])
  }

  lemma OpenAppended(workers: seq<Worker>, w: Worker)
    ensures Open(workers + [w]) == Open(workers) + Own(w)
  {
    assert (workers + [w])[..|workers|] == workers;
  }

  lemma {:induction false} OpenUpdated(workers: seq<Worker>, i: nat, w: Worker)
    requires i < |workers|
    ensures Open(workers[i := w]) + Own(workers[i]) == Open(workers) + Own(w)
  {
    var last := |workers| - 1;
    var shorter := workers[..last];
    OpenAppended(shorter, workers[last]);
    assert workers == shorter + [workers[last]];
    if i == last {
      assert workers[i := w] == shorter + [w];
      OpenAppended(shorter, w);
      MultisetSwap(Open(shorter), Own(w), Own(workers[i]));
    } else {
      assert workers[i := w] == shorter[i := w] + [workers[last]];
      OpenAppended(shorter[i := w], workers[last]);
      OpenUpdated(shorter, i, w);
      MultisetShift(Open(shorter[i := w]), Open(shorter), Own(workers[i]), Own(w), Own(workers[last]));
    }
  }

  lemma {:induction false} OpenHas(workers: seq<Worker>, i: nat)
    requires i < |workers| && workers[i].registered
    ensures workers[i].request in Open(workers)
  {
    if i < |workers| - 1 {
      OpenHas(workers[..|workers| - 1], i);
    }
  }

  lemma RecoveredSnoc(init: seq<Request>, last: Request)
    ensures Recovered(init + [last]) == Recovered(init) + [Worker(last, Started, true, true)]
  {
  }

  lemma MultisetSnoc(init: seq<Request>, last: Request)
    ensures multiset(init + [last]) == multiset(init) + multiset{last}
  {
  }

  lemma {:induction false} OpenRecovered(entries: seq<Request>)
    ensures Open(Recovered(entries)) == multiset(entries)
  {
    if entries != [] {
      var init, last := entries[..|entries| - 1], entries[|entries| - 1];
      OpenRecovered(init);
      RecoveredSnoc(init, last);
      OpenAppended(Recovered(init), Worker(last, Started, true, true));
      MultisetSnoc(init, last);
      assert entries == init + [last];
    }
  }

  /** Where a thread is in its life says whether its entry is in the file. */
  predicate InPhase(w: Worker) {
    match w.pc
    case Started => w.registered == w.recovered && (w.registered <==> w.request.port != 0)
    case Acquire(op) => w.registered == op.Unregister?
    case Read(op) => w.registered == op.Unregister?
    case Edit(op, _) => w.registered == op.Unregister?
    case Write(op, _) => w.registered == op.Unregister?
    case Release(op) => op.Register? ==> w.registered
    case Transferring => w.registered
    case Ended => true
  }

  /** Every register succeeded and no write broke off; unregisters may still have failed to open the file. */
  ghost predicate Accepted(log: seq<Event>) {
    Unspoiled(log) && forall i :: 0 <= i < |log| ==> log[i].Changed? && log[i].op.Register? ==> log[i].ok
  }

  ghost predicate Agrees(s: System) {
    && multiset(Entries(s.file)) == Open(s.workers)
    && forall i :: 0 <= i < |s.workers| ==> InPhase(s.workers[i])
  }

  lemma AcceptedBefore(log: seq<Event>, e: Event)
    requires Accepted(log + [e])
    ensures Accepted(log) && (e.Changed? ==> !e.fault.BreaksOff? && (e.op.Register? ==> e.ok))
  {
    assert (log + [e])[|log|] == e;
    assert forall i :: 0 <= i < |log| ==> (log + [e])[i] == log[i];
  }

  /** One worker moves on; the file gains and loses what that worker's registration does. */
  lemma WorkerMovesOn(s: System, i: nat, w: Worker, s': System)
    requires Agrees(s) && i < |s.workers| && s'.workers == s.workers[i := w] && InPhase(w)
    requires multiset(Entries(s'.file)) + Own(s.workers[i]) == multiset(Entries(s.file)) + Own(w)
    ensures Agrees(s')
  {
    OpenUpdated(s.workers, i, w);
    assert multiset(Entries(s'.file)) + Own(s.workers[i]) == Open(s'.workers) + Own(s.workers[i]);
    MultisetCancel(multiset(Entries(s'.file)), Open(s'.workers), Own(s.workers[i]));
  }

  lemma WriteKeepsAgreement(s: System, i: nat, fault: WriteFault, s': System)
    requires Exclusive(s) && Agrees(s) && i < |s.workers| && s.workers[i].pc.Write?
    requires MoveWorker(s, i, fault) == Some(s') && Accepted(s'.log)
    ensures Agrees(s')
  {
    var w := s.workers[i];
    assert InPhase(w) && UpToDate(s.file, w);
    AcceptedBefore(s.log, Changed(w.pc.op, w.request, fault, fault.NoFault?));
    WorkerMovesOn(s, i, s'.workers[i], s');
  }

  lemma MoveKeepsAgreement(s: System, i: nat, fault: WriteFault, s': System)
    requires Exclusive(s) && Agrees(s) && i < |s.workers| && MoveWorker(s, i, fault) == Some(s') && Accepted(s'.log)
    ensures Agrees(s')
  {
    var w := s.workers[i];
    assert InPhase(w) && UpToDate(s.file, w);
    if w.pc.Write? {
      WriteKeepsAgreement(s, i, fault, s');
    } else {
      if w.pc.Edit? && w.pc.op.Unregister? {
        EntryIsThere(s);
      }
      WorkerMovesOn(s, i, s'.workers[i], s');
    }
  }

  lemma WorkerArrives(s: System, w: Worker, s': System)
    requires Agrees(s) && s' == s.(workers := s.workers + [w]) && InPhase(w) && !w.registered
    ensures Agrees(s')
  {
    OpenAppended(s.workers, w);
  }

  lemma AllocateKeepsAgreement(s: System, i: nat, found: nat, s': System)
    requires Agrees(s) && i < |s.workers| && AllocatePort(s, i, found) == Some(s')
    ensures Agrees(s')
  {
    assert InPhase(s.workers[i]);
    WorkerMovesOn(s, i, s'.workers[i], s');
  }

  lemma EndKeepsAgreement(s: System, i: nat, pc: Pc, s': System)
    requires Agrees(s) && i < |s.workers| && s.workers[i].pc.Transferring? && (pc.Ended? || pc == Acquire(Unregister))
    requires s' == With(s, i, s.workers[i].(pc := pc))
    ensures Agrees(s')
  {
    assert InPhase(s.workers[i]);
    WorkerMovesOn(s, i, s'.workers[i], s');
  }

  lemma RestartKeepsAgreement(s: System, s': System)
    requires PortsGiven(Entries(s.file)) && s'.file == s.file && s'.workers == Recovered(Entries(s.file))
    ensures Agrees(s')
  {
    OpenRecovered(Entries(s.file));
  }

  lemma NextKeepsAgreement(s: System, step: Step, s': System)
    requires Exclusive(s) && Agrees(s) && PortsGiven(Entries(s.file)) && Next(s, step) == Some(s') && Accepted(s'.log)
    ensures Agrees(s')
  {
    match step
    case Dispatch(request) => WorkerArrives(s, Worker(request, Started, false, false), s');
    case Query(request) => WorkerArrives(s, Worker(request, Acquire(List), false, false), s');
    case Allocate(i, found) => AllocateKeepsAgreement(s, i, found, s');
    case Move(i, fault) => MoveKeepsAgreement(s, i, fault, s');
    case Return(i) => EndKeepsAgreement(s, i, Acquire(Unregister), s');
    case Escape(i) => EndKeepsAgreement(s, i, Ended, s');
    case Restart => RestartKeepsAgreement(s, s');
  }

  lemma {:induction false} LogGrows(s: System, run: seq<Step>, s': System)
    requires Exec(s, run) == Some(s')
    ensures s.log <= s'.log
    decreases |run|
  {
    if run != [] {
      var mid := Exec(s, run[..|run| - 1]).value;
      LogGrows(s, run[..|run| - 1], mid);
      assert mid.log <= s'.log;
    }
  }

  /**
   In every run with restarts in which registers succeed and no write breaks off, the ledger holds
   exactly the registered requests whose transfer has not had its entry removed, and a transfer
   that comes to unregister finds its entry.
   */
  lemma {:induction false} LedgerMatchesTransfers(file: LedgerFile<Request>, run: seq<Step>, s: System)
    requires PortsGiven(Entries(file)) && Exec(Boot(file), run) == Some(s) && Accepted(s.log)
    ensures Agrees(s)
    ensures forall i :: 0 <= i < |s.workers| && s.workers[i].pc.Edit? && s.workers[i].pc.op.Unregister? ==>
              s.workers[i].request in s.workers[i].pc.entries
    decreases |run|
  {
    if run == [] {
      RestartKeepsAgreement(s, s);
    } else {
      var before := run[..|run| - 1];
      var mid := Exec(Boot(file), before).value;
      Linearizable(file, before, mid);
      RecoveryNeverReregisters(file, before, mid);
      LogGrows(mid, [run[|run| - 1]], s);
      assert Accepted(mid.log) by {
        assert forall i :: 0 <= i < |mid.log| ==> mid.log[i] == s.log[i];
      }
      LedgerMatchesTransfers(file, before, mid);
      NextKeepsAgreement(mid, run[|run| - 1], s);
    }
    Linearizable(file, run, s);
    EntryIsThere(s);
  }

  lemma EntryIsThere(s: System)
    requires Exclusive(s) && Agrees(s)
    ensures forall i :: 0 <= i < |s.workers| && s.workers[i].pc.Edit? && s.workers[i].pc.op.Unregister? ==>
              s.workers[i].request in s.workers[i].pc.entries
  {
    forall i | 0 <= i < |s.workers| && s.workers[i].pc.Edit? && s.workers[i].pc.op.Unregister?
      ensures s.workers[i].request in s.workers[i].pc.entries
    {
      var w := s.workers[i];
      assert InPhase(w) && UpToDate(s.file, w);
      OpenHas(s.workers, i);
      assert w.request in multiset(Entries(s.file));
    }
  }

  /**
   A write that breaks off half-way loses every pending request: the ledger still matches the
   transfers if and only if nothing was registered before and a register was under way.
   */
  lemma SpoiledLedger(s: System, i: nat, s': System)
    requires Exclusive(s) && Agrees(s) && i < |s.workers| && s.workers[i].pc.Write?
    requires MoveWorker(s, i, BreaksOff) == Some(s')
    ensures multiset(Entries(s'.file)) == Open(s'.workers) <==> s.workers[i].pc.op.Register? && Entries(s.file) == []
  {
    var w := s.workers[i];
    assert InPhase(w);
    OpenUpdated(s.workers, i, s'.workers[i]);
    assert Own(s'.workers[i]) == Own(w);
    MultisetCancel(Open(s'.workers), Open(s.workers), Own(w));
    if Entries(s.file) != [] {
      assert Entries(s.file)[0] in multiset(Entries(s.file));
    }
    if w.registered {
      OpenHas(s'.workers, i);
    }
  }

  // ----- one access, undisturbed, is one call

  function Five(i: nat, fault: WriteFault): seq<Step> {
    [Move(i, fault), Move(i, fault), Move(i, fault), Move(i, fault), Move(i, fault)]
  }

  lemma ExecSnoc(s: System, run: seq<Step>, step: Step, mid: System)
    requires Exec(s, run) == Some(mid)
    ensures Exec(s, run + [step]) == Next(mid, step)
  {
    assert (run + [step])[..|run|] == run;
  }

  /** The five steps of a register, taken without interruption, are the call of `ConnectionLedger.Register`. */
  lemma RegisterIsFiveSteps(s: System, i: nat, fault: WriteFault)
    requires s.holder.None? && i < |s.workers| && s.workers[i].pc == Acquire(Register)
    ensures Exec(s, Five(i, fault)).Some?
    ensures var after := Exec(s, Five(i, fault)).value;
            && after.file == Registered(s.file, s.workers[i].request, fault) && after.holder.None?
            && after.workers[i].pc.Transferring? && (after.workers[i].registered
                 <==> s.workers[i].registered || fault.NoFault?)
  {
    RegisterSteps(s, i, fault);
  }

  /** And those of an unregister that of `ConnectionLedger.Unregister`; without its entry it skips the write. */
  lemma UnregisterIsFiveSteps(s: System, i: nat, fault: WriteFault)
    requires s.holder.None? && i < |s.workers| && s.workers[i].pc == Acquire(Unregister)
    requires s.workers[i].request in Entries(s.file)
    ensures Exec(s, Five(i, fault)).Some?
    ensures var after := Exec(s, Five(i, fault)).value;
            && after.file == Unregistered(s.file, s.workers[i].request, fault) && after.holder.None?
            && after.workers[i].pc.Ended? && (after.workers[i].registered
                 <==> s.workers[i].registered && !fault.NoFault?)
  {
    UnregisterSteps(s, i, fault);
  }

  lemma FiveMoves(s: System, s1: System, s2: System, s3: System, s4: System, s5: System, i: nat, fault: WriteFault)
    requires var m := Move(i, fault);
             Next(s, m) == Some(s1) && Next(s1, m) == Some(s2) && Next(s2, m) == Some(s3) && Next(s3, m) == Some(s4)
                 && Next(s4, m) == Some(s5)
    ensures Exec(s, Five(i, fault)) == Some(s5)
  {
    var m := Move(i, fault);
    var r1, r2, r3, r4 := [m], [m, m], [m, m, m], [m, m, m, m];
    assert [] + [m] == r1 && r1 + [m] == r2 && r2 + [m] == r3 && r3 + [m] == r4 && r4 + [m] == Five(i, fault);
    ExecSnoc(s, [], m, s);
    ExecSnoc(s, r1, m, s1);
    ExecSnoc(s, r2, m, s2);
    ExecSnoc(s, r3, m, s3);
    ExecSnoc(s, r4, m, s4);
  }

  /** The thread after its access, and what the access left in the log. */
  function Accessed(w: Worker, fault: WriteFault): Worker {
    w.(pc := if w.pc == Acquire(Register) then Transferring else Ended,
       registered := if fault.NoFault? then w.pc == Acquire(Register) else w.registered)
  }

  lemma WriteAndRelease(s: System, i: nat, fault: WriteFault) returns (written: System, after: System)
    requires i < |s.workers| && s.workers[i].pc.Write?
    ensures Next(s, Move(i, fault)) == Some(written) && Next(written, Move(i, fault)) == Some(after)
    ensures var w := s.workers[i];
            && after.holder.None? && after.file == Written(s.file, w.pc.entries, fault)
            && after.workers == s.workers[i := w.(pc := if w.pc.op.Register? then Transferring else Ended,
                                                  registered := if fault.NoFault? then w.pc.op.Register?
                                                      else w.registered)]
  {
    written := Next(s, Move(i, fault)).value;
    after := Next(written, Move(i, fault)).value;
  }

  lemma RegisterSteps(s: System, i: nat, fault: WriteFault)
    requires s.holder.None? && i < |s.workers| && s.workers[i].pc == Acquire(Register)
    ensures Exec(s, Five(i, fault)).Some?
    ensures var w, after := s.workers[i], Exec(s, Five(i, fault)).value;
            && after.holder.None? && after.workers == s.workers[i := Accessed(w, fault)]
            && after.file == Registered(s.file, w.request, fault)
  {
    var w, m := s.workers[i], Move(i, fault);
    var entries := Entries(s.file) + [w.request];
    var s1 := With(s, i, w.(pc := Read(Register))).(holder := Some(i));
    var s2 := With(s1, i, w.(pc := Edit(Register, Entries(s.file))));
    var s3 := With(s2, i, w.(pc := Write(Register, entries)));
    assert Next(s, m) == Some(s1) && Next(s1, m) == Some(s2) && Next(s2, m) == Some(s3);
    var s4, s5 := WriteAndRelease(s3, i, fault);
    FiveMoves(s, s1, s2, s3, s4, s5, i, fault);
  }

  lemma UnregisterSteps(s: System, i: nat, fault: WriteFault)
    requires s.holder.None? && i < |s.workers| && s.workers[i].pc == Acquire(Unregister)
    requires s.workers[i].request in Entries(s.file)
    ensures Exec(s, Five(i, fault)).Some?
    ensures var w, after := s.workers[i], Exec(s, Five(i, fault)).value;
            && after.holder.None? && after.workers == s.workers[i := Accessed(w, fault)]
            && after.file == Unregistered(s.file, w.request, fault)
  {
    var w, m := s.workers[i], Move(i, fault);
    var entries := RemoveFirst(Entries(s.file), w.request).value;
    var s1 := With(s, i, w.(pc := Read(Unregister))).(holder := Some(i));
    var s2 := With(s1, i, w.(pc := Edit(Unregister, Entries(s.file))));
    var s3 := With(s2, i, w.(pc := Write(Unregister, entries)));
    assert Next(s, m) == Some(s1) && Next(s1, m) == Some(s2) && Next(s2, m) == Some(s3);
    var s4, s5 := WriteAndRelease(s3, i, fault);
    FiveMoves(s, s1, s2, s3, s4, s5, i, fault);
  }

  // ----- a run in which they come apart

  lemma {:induction false} ExecAppend(s: System, run: seq<Step>, mid: System, more: seq<Step>)
    requires Exec(s, run) == Some(mid)
    ensures Exec(s, run + more) == Exec(mid, more)
    decreases |more|
  {
    if more == [] {
      assert run + more == run;
    } else {
      var init := more[..|more| - 1];
      ExecAppend(s, run, mid, init);
      assert (run + more)[..|run + more| - 1] == run + init;
    }
  }

  /** The steps of a new request up to the end of its register. */
  function Arrival(i: nat, request: Request, found: nat, fault: WriteFault): seq<Step> {
    [Dispatch(request), Allocate(i, found)] + Five(i, fault)
  }

  lemma Arrives(s: System, request: Request, found: nat, fault: WriteFault) returns (after: System)
    requires s.holder.None? && request.port == 0 && LOWEST_PORT <= found <= HIGHEST_PORT
    ensures Exec(s, Arrival(|s.workers|, request, found, fault)) == Some(after)
    ensures after.holder.None? && after.file == Registered(s.file, request.(port := found), fault)
    ensures fault.NoFault? && s.file.Readable? ==> after.file == Readable(s.file.entries + [request.(port := found)])
    ensures after.workers == s.workers + [Worker(request.(port := found), Transferring, fault.NoFault?, false)]
  {
    var i := |s.workers|;
    var s1 := Next(s, Dispatch(request)).value;
    var s2 := Next(s1, Allocate(i, found)).value;
    ExecSnoc(s, [], Dispatch(request), s);
    ExecSnoc(s, [] + [Dispatch(request)], Allocate(i, found), s1);
    var two := [Dispatch(request), Allocate(i, found)];
    assert [] + [Dispatch(request)] + [Allocate(i, found)] == two;
    ExecAppend(s, two, s2, Five(i, fault));
    RegisterSteps(s2, i, fault);
    after := Exec(s2, Five(i, fault)).value;
  }

  /** A transfer that comes to its end removes its entry, undisturbed: the first one, and nothing else. */
  lemma Departs(s: System, i: nat, fault: WriteFault) returns (after: System)
    requires s.holder.None? && i < |s.workers| && s.workers[i].pc.Transferring?
    requires s.file.Readable? && s.workers[i].request in s.file.entries
    ensures Exec(s, [Return(i)] + Five(i, fault)) == Some(after) && after.holder.None?
    ensures fault.NoFault? ==>
              after.file.Readable? && FirstGone(s.file.entries, s.workers[i].request, after.file.entries)
    ensures fault.OpenFails? ==> after.file == s.file
    ensures after.workers == s.workers[i := after.workers[i]] && after.workers[i].pc.Ended?
    ensures after.workers[i].registered <==> s.workers[i].registered && !fault.NoFault?
  {
    var s1 := Next(s, Return(i)).value;
    ExecSnoc(s, [], Return(i), s);
    ExecAppend(s, [] + [Return(i)], s1, Five(i, fault));
    assert [] + [Return(i)] == [Return(i)];
    UnregisterSteps(s1, i, fault);
    UnregisteredIs(s1.file, s1.workers[i].request, fault);
    after := Exec(s1, Five(i, fault)).value;
  }

  /**
   And they do come apart: a first upload registers, the write for a second one breaks off, and the
   ledger has forgotten a transfer that is still running.
   */
  lemma PendingTransferForgotten() returns (run: seq<Step>, s: System, pending: Request)
    ensures Exec(Boot(Unreadable), run) == Some(s)
    ensures Entries(s.file) == [] && Open(s.workers) == multiset{pending}
    ensures |s.workers| == 2 && s.workers[0] == Worker(pending, Transferring, true, false)
  {
    var first, second := Request(Upload, "a", 0), Request(Upload, "b", 0);
    pending := first.(port := LOWEST_PORT);
    var boot := Boot(Unreadable);
    var mid := Arrives(boot, first, LOWEST_PORT, NoFault);
    s := Arrives(mid, second, HIGHEST_PORT, BreaksOff);
    run := Arrival(0, first, LOWEST_PORT, NoFault);
    ExecAppend(boot, run, mid, Arrival(1, second, HIGHEST_PORT, BreaksOff));
    run := run + Arrival(1, second, HIGHEST_PORT, BreaksOff);
    OpenAppended([], mid.workers[0]);
    OpenAppended(mid.workers, s.workers[1]);
    assert [] + [mid.workers[0]] == mid.workers;
    assert s.workers[0] == mid.workers[0];
  }
}
