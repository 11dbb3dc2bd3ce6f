/**
 The ledger of pending transfers, `connection_ledger.py`: a list of requests kept in one file and
 rewritten as a whole under a semaphore.
 */
module ConnectionLedgers {
  import opened Wrappers

  /** A missing or malformed file is unreadable, and reads as no entries at all. */
  datatype LedgerFile<E> = Readable(entries: seq<E>) | Unreadable

  /** Opening the file for writing may raise and leave it alone; writing may raise half-way and spoil it. */
  datatype WriteFault = NoFault | OpenFails | BreaksOff

  function Entries<E>(file: LedgerFile<E>): seq<E> {
    match file
    case Readable(entries) => entries
    case Unreadable => []
  }

  /** The list without its first occurrence of `e`; none if there is no occurrence to remove. */
  function RemoveFirst<E(==)>(entries: seq<E>, e: E): (rest: Option<seq<E>>)
    ensures rest.Some? <==> e in entries
    ensures rest.Some? ==> multiset(rest.value) + multiset{e} == multiset(entries)
  {
    if entries == [] then None
    else if entries[0] == e then
      assert entries == [e] + entries[1..];
      Some(entries[1..])
    else
      assert entries == [entries[0]] + entries[1..];
      match RemoveFirst(entries[1..], e)
      case None => None
      case Some(rest) => Some([entries[0]] + rest)
  }

  /** `after` is `before` without the first `e`, and in the same order. */
  ghost predicate FirstGone<E(!new)>(before: seq<E>, e: E, after: seq<E>) {
    exists i :: 0 <= i < |before| && before[i] == e && e !in before[..i] && after == before[..i] + before[i + 1..]
  }

  lemma FirstGoneBehind<E(!new)>(x: E, tail: seq<E>, e: E, rest: seq<E>)
    requires x != e && FirstGone(tail, e, rest)
    ensures FirstGone([x] + tail, e, [x] + rest)
  {
    var i :| 0 <= i < |tail| && tail[i] == e && e !in tail[..i] && rest == tail[..i] + tail[i + 1..];
    var whole := [x] + tail;
    assert whole[..i + 1] == [x] + tail[..i] && whole[i + 2..] == tail[i + 1..];
    assert whole[i + 1] == e && [x] + rest == whole[..i + 1] + whole[i + 2..];
  }

  lemma FirstGoneAtOnce<E(!new)>(e: E, tail: seq<E>)
    ensures FirstGone([e] + tail, e, tail)
  {
    var whole := [e] + tail;
    assert whole[0] == e && whole[..0] == [] && tail == whole[..0] + whole[1..];
  }

  lemma {:induction false} RemoveFirstKeepsOrder<E(!new)>(entries: seq<E>, e: E)
    requires e in entries
    ensures FirstGone(entries, e, RemoveFirst(entries, e).value)
  {
    var x, tail := entries[0], entries[1..];
    assert entries == [x] + tail;
    if x == e {
      FirstGoneAtOnce(e, tail);
    } else {
      RemoveFirstKeepsOrder(tail, e);
      FirstGoneBehind(x, tail, e, RemoveFirst(tail, e).value);
    }
  }

  function Written<E>(file: LedgerFile<E>, entries: seq<E>, fault: WriteFault): LedgerFile<E> {
    match fault
    case NoFault => Readable(entries)
    case OpenFails => file
    case BreaksOff => Unreadable
  }

  /** The ledger file after registering `e`. */
  function Registered<E>(file: LedgerFile<E>, e: E, fault: WriteFault): LedgerFile<E> {
    Written(file, Entries(file) + [e], fault)
  }

  /** The ledger file after unregistering `e`. */
  function Unregistered<E(==)>(file: LedgerFile<E>, e: E, fault: WriteFault): LedgerFile<E> {
    match RemoveFirst(Entries(file), e)
    case None => file
    case Some(rest) => Written(file, rest, fault)
  }

  lemma RemoveFirstOfAppended<E>(entries: seq<E>, e: E)
    ensures RemoveFirst(entries + [e], e).Some?
    ensures multiset(RemoveFirst(entries + [e], e).value) == multiset(entries)
    ensures e !in entries ==> RemoveFirst(entries + [e], e).value == entries
  {
    if entries == [] {
    } else if entries[0] == e {
      assert (entries + [e])[1..] == entries[1..] + [e];
      assert entries == [e] + entries[1..];
    } else {
      assert (entries + [e])[1..] == entries[1..] + [e];
      RemoveFirstOfAppended(entries[1..], e);
      assert entries == [entries[0]] + entries[1..];
    }
  }

  /**
   What one call undoes: unregistering a request right after registering it leaves the same pending
   requests, and exactly the same list if the request was not pending before.
   */
  lemma UnregisterUndoesRegister<E>(file: LedgerFile<E>, e: E)
    ensures var after := Unregistered(Registered(file, e, NoFault), e, NoFault);
            && multiset(Entries(after)) == multiset(Entries(file))
            && (e !in Entries(file) ==> Entries(after) == Entries(file))
  {
    RemoveFirstOfAppended(Entries(file), e);
  }

  /** The specification functions, read off the file: appending, or removing the first, and nothing on a fault. */
  lemma RegisteredIs<E>(file: LedgerFile<E>, e: E, fault: WriteFault)
    ensures Registered(file, e, fault) ==
            match fault
            case NoFault => Readable(if file.Readable? then file.entries + [e] else [e])
            case OpenFails => file
            case BreaksOff => Unreadable
  {
  }

  lemma UnregisteredIs<E(!new)>(file: LedgerFile<E>, e: E, fault: WriteFault)
    ensures var after := Unregistered(file, e, fault);
            if file.Readable? && e in file.entries then
              match fault
              case NoFault => after.Readable? && FirstGone(file.entries, e, after.entries)
              case OpenFails => after == file
              case BreaksOff => after == Unreadable
            else after == file
  {
    if file.Readable? && e in file.entries {
      RemoveFirstKeepsOrder(file.entries, e);
    }
  }

  class ConnectionLedger<E(==,!new)> {
    var file: LedgerFile<E>
    var held: bool          // the semaphore of the configuration

    constructor (file: LedgerFile<E>)
      ensures this.file == file && !held
    {
      this.file := file;
      held := false;
    }

    method ReadEntries() returns (entries: seq<E>)
      ensures file.Readable? ==> entries == file.entries
      ensures file.Unreadable? ==> entries == []
    {
      match file {
        case Readable(es) => entries := es;
        case Unreadable => entries := [];
      }
    }

    method WriteEntries(entries: seq<E>, fault: WriteFault) returns (raised: bool)
      modifies this`file
      ensures raised <==> !fault.NoFault?
      ensures fault.NoFault? ==> file == Readable(entries)
      ensures fault.OpenFails? ==> file == old(file)
      ensures fault.BreaksOff? ==> file == Unreadable
    {
      match fault {
        case NoFault => file, raised := Readable(entries), false;
        case OpenFails => raised := true;
        case BreaksOff => file, raised := Unreadable, true;
      }
    }

    method Register(entry: E, fault: WriteFault) returns (ok: bool)
      requires !held
      modifies this
      ensures !held && file == Registered(old(file), entry, fault)
      ensures ok <==> fault.NoFault?
      ensures ok && old(file).Readable? ==> file == Readable(old(file).entries + [entry])
      ensures ok && old(file).Unreadable? ==> file == Readable([entry])
      ensures fault.OpenFails? ==> file == old(file)
      ensures fault.BreaksOff? ==> file == Unreadable
    {
      held := true;
      var entries := ReadEntries();
      entries := entries + [entry];
      var raised := WriteEntries(entries, fault);
      held := false;
      ok := !raised;
    }

    method Unregister(entry: E, fault: WriteFault) returns (ok: bool)
      requires !held
      modifies this
      ensures !held && file == Unregistered(old(file), entry, fault)
      ensures ok <==> old(file).Readable? && entry in old(file).entries && fault.NoFault?
      ensures ok ==> file.Readable? && FirstGone(old(file).entries, entry, file.entries)
      ensures old(file).Unreadable? || entry !in old(file).entries || fault.OpenFails? ==> file == old(file)
      ensures old(file).Readable? && entry in old(file).entries && fault.BreaksOff? ==> file == Unreadable
    {
      if entry in Entries(file) {
        RemoveFirstKeepsOrder(Entries(file), entry);
      }
      held := true;
      var entries := ReadEntries();
      match RemoveFirst(entries, entry) {
        case None => ok := false;
        case Some(rest) =>
          var raised := WriteEntries(rest, fault);
          ok := !raised;
      }
      held := false;
    }

    method ListAll() returns (entries: seq<E>)
      requires !held
      modifies this`held
      ensures !held && (file.Readable? ==> entries == file.entries) && (file.Unreadable? ==> entries == [])
    {
      held := true;
      entries := ReadEntries();
      held := false;
    }
  }
}
