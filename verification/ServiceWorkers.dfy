/**
 The background workers of `service_workers.py`, with the handler of `request_dispatcher.py` that
 reacts to a change of address.
 */
module ServiceWorkers {
  import opened Wrappers
  import opened ConnectionLedgers
  import opened NodeParts
  import opened ConfigFiles

  // ----- network changes

  /** What a change of address can touch. */
  datatype View = View(publicIp: string, localIp: string, forwards: map<int, string>, routerCalls: nat,
                       connections: seq<(string, int)>, text: Option<string>)

  function Ports(entries: seq<Request>): (ports: seq<int>)
    ensures |ports| == |entries| && forall i :: 0 <= i < |entries| ==> ports[i] == entries[i].port
  {
    seq(|entries|, i requires 0 <= i < |entries| => entries[i].port)
  }

  /** All these ports forwarded to one address, in order. */
  function Remap(forwards: map<int, string>, ports: seq<int>, ip: string): map<int, string> {
    if ports == [] then forwards else Remap(forwards, ports[..|ports| - 1], ip)[ports[|ports| - 1] := ip]
  }

  lemma {:induction false} RemapReaches(forwards: map<int, string>, ports: seq<int>, ip: string, p: int)
    ensures p in ports ==> p in Remap(forwards, ports, ip) && Remap(forwards, ports, ip)[p] == ip
    ensures p !in ports ==> (p in Remap(forwards, ports, ip) <==> p in forwards)
                            && (p in forwards ==> Remap(forwards, ports, ip)[p] == forwards[p])
  {
    if ports != [] {
      RemapReaches(forwards, ports[..|ports| - 1], ip, p);
      assert ports == ports[..|ports| - 1] + [ports[|ports| - 1]];
    }
  }

  /** `p` is the primary port or has a pending transfer. */
  predicate InService(p: int, primaryPort: int, entries: seq<Request>) {
    p == primaryPort || exists i :: 0 <= i < |entries| && entries[i].port == p
  }

  /** Every port in service leads to `ip`, and all other forwards are as before. */
  ghost predicate Served(before: map<int, string>, primaryPort: int, entries: seq<Request>, ip: string,
                         after: map<int, string>) {
    forall p ::
      if InService(p, primaryPort, entries) then p in after && after[p] == ip
      else (p in after <==> p in before) && (p in before ==> after[p] == before[p])
  }

  lemma RemapServes(forwards: map<int, string>, primaryPort: int, entries: seq<Request>, ip: string)
    ensures Served(forwards, primaryPort, entries, ip, Remap(forwards, [primaryPort] + Ports(entries), ip))
  {
    var ports := [primaryPort] + Ports(entries);
    assert forall i :: 0 < i < |ports| ==> ports[i] == entries[i - 1].port;
    forall p | true
      ensures var after := Remap(forwards, ports, ip);
              if InService(p, primaryPort, entries) then p in after && after[p] == ip
              else (p in after <==> p in forwards) && (p in forwards ==> after[p] == forwards[p])
    {
      RemapReaches(forwards, ports, ip, p);
      if p == primaryPort {
        assert ports[0] == p;
      } else if i :| 0 <= i < |entries| && entries[i].port == p {
        assert ports[1 + i] == p;
      }
    }
  }

  class NetworkChangeHandler {
    const config: NodeConfig
    const backend: Backend
    const ledger: ConnectionLedger<Request>
    const router: Router
    const hasRouter: bool

    constructor (config: NodeConfig, backend: Backend, ledger: ConnectionLedger<Request>, router: Router,
        hasRouter: bool)
      ensures this.config == config && this.backend == backend && this.ledger == ledger
      ensures this.router == router && this.hasRouter == hasRouter
    {
      this.config, this.backend, this.ledger, this.router, this.hasRouter := config, backend, ledger, router, hasRouter;
    }

    method OnPublicIpChanged()
      modifies backend`connections
      ensures backend.connections == old(backend.connections) + [(config.publicIp, config.primaryPort)]
    {
      backend.UpdateConnection(config.publicIp, config.primaryPort);
    }

    /** `on_local_ip_changed`: the primary port first, then every port in the ledger. */
    method OnLocalIpChanged(newIp: string)
      requires !ledger.held
      modifies config`localIp, router, ledger`held
      ensures config.localIp == newIp && !ledger.held
      ensures router.forwards == if !config.local && hasRouter
                                 then Remap(old(router.forwards), [config.primaryPort] + Ports(Entries(ledger.file)),
                                     newIp)
                                 else old(router.forwards)
      ensures router.calls == old(router.calls) + (if !config.local && hasRouter then 1 + |Entries(ledger.file)| else 0)
      ensures !config.local && hasRouter ==>
                Served(old(router.forwards), config.primaryPort, Entries(ledger.file), newIp, router.forwards)
    {
      if !config.local && hasRouter {
        router.ForwardPort(config.primaryPort, Some(newIp), false);
        var active := ledger.ListAll();
        ghost var ports := [config.primaryPort] + Ports(active);
        assert ports[..0] == [] && ports[..1] == [config.primaryPort];
        for i := 0 to |active|
          invariant router.forwards == Remap(old(router.forwards), ports[..1 + i], newIp)
          invariant router.calls == old(router.calls) + 1 + i
          invariant !ledger.held
        {
          router.ForwardPort(active[i].port, Some(newIp), false);
          assert ports[..2 + i][..1 + i] == ports[..1 + i] && ports[1 + i] == active[i].port;
        }
        assert ports[..1 + |active|] == ports;
        RemapServes(old(router.forwards), config.primaryPort, active, newIp);
      }
      config.localIp := newIp;
    }
  }

  /** One `check_once`, given what the public lookup and the LAN address say. */
  function Checked(v: View, local: bool, primaryPort: int, entries: seq<Request>, hasRouter: bool,
                   lookup: Option<string>, lanIp: Option<string>): View {
    var v1 := if !local && lookup.Some? && lookup.value != v.publicIp
              then v.(publicIp := lookup.value, connections := v.connections + [(lookup.value, primaryPort)]) else v;
    var current := if hasRouter then (if lanIp.Some? then lanIp.value else "") else v.localIp;
    var v2 := if current == "" || current == v.localIp then v1 else
                v1.(localIp := current, text := Some(ConfigText(current, primaryPort)),
                    forwards := if !local then Remap(v1.forwards, [primaryPort] + Ports(entries), current)
                        else v1.forwards,
                    routerCalls := v1.routerCalls + (if !local then 1 + |entries| else 0));
    if local then v2.(publicIp := v2.localIp) else v2
  }

  class NetworkWatcher {
    const config: NodeConfig
    const handler: NetworkChangeHandler
    const files: ConfigFileManager

    constructor (handler: NetworkChangeHandler, files: ConfigFileManager)
      requires files.config == handler.config
      ensures this.handler == handler && this.files == files && config == handler.config && SharesConfig()
    {
      this.handler, this.files, this.config := handler, files, handler.config;
    }

    ghost predicate SharesConfig() {
      handler.config == config && files.config == config
    }

    function Seen(): View
      reads config, handler.router, handler.backend, files
    {
      View(config.publicIp, config.localIp, handler.router.forwards, handler.router.calls,
          handler.backend.connections, files.text)
    }

    /** `check_once`; a failing lookup raises and is caught. */
    method CheckOnce(lookup: Option<string>, lanIp: Option<string>)
      requires SharesConfig() && !handler.ledger.held
      modifies config, handler.router, handler.backend`connections, handler.ledger`held, files`text
      ensures if config.local then config.publicIp == config.localIp
              else config.publicIp == if lookup.Some? then lookup.value else old(config.publicIp)
      ensures handler.backend.connections == old(handler.backend.connections)
              + (if !config.local && lookup.Some? && lookup.value != old(config.publicIp)
                 then [(lookup.value, config.primaryPort)] else [])
      ensures config.localIp == if handler.hasRouter && lanIp.Some? && lanIp.value != "" then lanIp.value
                                else old(config.localIp)
      ensures var moved := !config.local && config.localIp != old(config.localIp);
              && handler.router.calls == old(handler.router.calls)
                   + (if moved then 1 + |Entries(handler.ledger.file)| else 0)
              && (moved ==> Served(old(handler.router.forwards), config.primaryPort, Entries(handler.ledger.file),
                                   config.localIp, handler.router.forwards))
              && (!moved ==> handler.router.forwards == old(handler.router.forwards))
      ensures files.text == if config.localIp != old(config.localIp)
                            then Some(ConfigText(config.localIp, config.primaryPort)) else old(files.text)
      ensures Seen() == Checked(old(Seen()), config.local, config.primaryPort, Entries(handler.ledger.file),
              handler.hasRouter, lookup, lanIp)
      ensures config.local == old(config.local) && config.primaryPort == old(config.primaryPort) && !handler.ledger.held
    {
      if !config.local {
        match lookup {
          case None =>
          case Some(currentPublic) =>
            if currentPublic != config.publicIp {
              config.publicIp := currentPublic;
              handler.OnPublicIpChanged();
            }
        }
      }
      var currentLocal := config.localIp;
      if handler.hasRouter {
        currentLocal := if lanIp.Some? then lanIp.value else "";
      }
      if currentLocal != "" && currentLocal != config.localIp {
        handler.OnLocalIpChanged(currentLocal);
        files.WriteConfig();
      }
      if config.local {
        config.publicIp := config.localIp;
      }
    }
  }

  /** With an unchanged environment a second check changes nothing, and calls neither router nor backend. */
  lemma ChecksConverge(v: View, local: bool, primaryPort: int, entries: seq<Request>, hasRouter: bool,
                       lookup: Option<string>, lanIp: Option<string>)
    ensures var once := Checked(v, local, primaryPort, entries, hasRouter, lookup, lanIp);
            Checked(once, local, primaryPort, entries, hasRouter, lookup, lanIp) == once
  {
  }

  /**
   After a change of the local address, a node with a router that is not local has its primary port
   and every port in the ledger forwarded to the new address, and no other forward changed.
   */
  lemma AllPortsFollow(v: View, primaryPort: int, entries: seq<Request>, lookup: Option<string>, newIp: string, p: int)
    requires newIp != "" && newIp != v.localIp
    ensures var after := Checked(v, false, primaryPort, entries, true, lookup, Some(newIp));
            && after.localIp == newIp
            && (p == primaryPort || (exists i :: 0 <= i < |entries| && entries[i].port == p) ==>
                  p in after.forwards && after.forwards[p] == newIp)
            && (p != primaryPort && (forall i :: 0 <= i < |entries| ==> entries[i].port != p) ==>
                  (p in after.forwards <==> p in v.forwards)
                      && (p in v.forwards ==> after.forwards[p] == v.forwards[p]))
  {
    RemapServes(v.forwards, primaryPort, entries, newIp);
    assert Served(v.forwards, primaryPort, entries, newIp,
                  Checked(v, false, primaryPort, entries, true, lookup, Some(newIp)).forwards);
  }

  /** The address in the configuration file is the one in memory. */
  ghost predicate FileAgrees(v: View) {
    v.text.Some? && ReadText(v.text.value).ip == Some(v.localIp)
  }

  /** If file and memory agreed before a check they agree after it, exactly when the new address is plain. */
  lemma FileKeepsAgreeing(v: View, local: bool, primaryPort: int, entries: seq<Request>, hasRouter: bool,
                          lookup: Option<string>, lanIp: Option<string>)
    requires FileAgrees(v)
    ensures var after := Checked(v, local, primaryPort, entries, hasRouter, lookup, lanIp);
            FileAgrees(after) <==> PlainAddress(after.localIp)
  {
    var after := Checked(v, local, primaryPort, entries, hasRouter, lookup, lanIp);
    OnlyPlainAddressesAreRead(v.text.value);
    OnlyPlainAddressesAreRead(after.text.value);
    if PlainAddress(after.localIp) {
      PlainAddressComesBack(after.localIp, primaryPort);
    }
  }

  // ----- contracts

  /** The answer of the coordination server. */
  datatype ContractQuery = ContractQuery(shardIds: seq<string>, success: bool)

  /** The fragments that stay, in listing order. */
  function Kept(stored: seq<string>, query: ContractQuery): seq<string> {
    if stored == [] then []
    else
      var last := stored[|stored| - 1];
      Kept(stored[..|stored| - 1], query) + (if query.success && last !in query.shardIds then [] else [last])
  }

  ghost predicate Distinct(names: seq<string>) {
    forall i, j :: 0 <= i < j < |names| ==> names[i] != names[j]
  }

  lemma {:induction false} KeptAre(stored: seq<string>, query: ContractQuery, x: string)
    ensures x in Kept(stored, query) <==> x in stored && (!query.success || x in query.shardIds)
  {
    if stored != [] {
      KeptAre(stored[..|stored| - 1], query, x);
      assert stored == stored[..|stored| - 1] + [stored[|stored| - 1]];
    }
  }

  /** What stays keeps its order. */
  lemma {:induction false} KeptInOrder(a: seq<string>, b: seq<string>, query: ContractQuery)
    ensures Kept(a + b, query) == Kept(a, query) + Kept(b, query)
    decreases |b|
  {
    if b == [] {
      assert a + b == a;
    } else {
      var init, last := b[..|b| - 1], b[|b| - 1];
      assert (a + b)[..|a + b| - 1] == a + init && (a + b)[|a + b| - 1] == last;
      KeptInOrder(a, init, query);
    }
  }

  lemma {:induction false} KeptAreDistinct(stored: seq<string>, query: ContractQuery)
    requires Distinct(stored)
    ensures Distinct(Kept(stored, query))
  {
    if stored != [] {
      var init, last := stored[..|stored| - 1], stored[|stored| - 1];
      KeptAreDistinct(init, query);
      KeptAre(init, query, last);
    }
  }

  lemma {:induction false} KeptAll(stored: seq<string>, query: ContractQuery)
    requires forall x :: x in stored ==> !query.success || x in query.shardIds
    ensures Kept(stored, query) == stored
  {
    if stored != [] {
      KeptAll(stored[..|stored| - 1], query);
      assert stored == stored[..|stored| - 1] + [stored[|stored| - 1]];
    }
  }

  function Without(names: seq<string>, x: string): seq<string> {
    if names == [] then [] else if names[0] == x then names[1..] else [names[0]] + Without(names[1..], x)
  }

  lemma {:induction false} WithoutMiddle(a: seq<string>, x: string, b: seq<string>)
    requires x !in a
    ensures Without(a + [x] + b, x) == a + b
  {
    var s := a + [x] + b;
    if a == [] {
      assert s[1..] == b;
    } else {
      assert a[0] in a && s[1..] == a[1..] + [x] + b;
      WithoutMiddle(a[1..], x, b);
    }
  }

  /** What the directory holds after `i` turns of the purge loop. */
  function Left(stored: seq<string>, i: nat, query: ContractQuery): seq<string>
    requires i <= |stored|
  {
    Kept(stored[..i], query) + stored[i..]
  }

  /** What has been submitted after `i` turns. */
  function Submitted(before: seq<string>, stored: seq<string>, i: nat, query: ContractQuery): seq<string>
    requires i <= |stored|
  {
    before + Kept(stored[..i], query)
  }

  lemma PurgeStarts(before: seq<string>, stored: seq<string>, query: ContractQuery)
    ensures Left(stored, 0, query) == stored && Submitted(before, stored, 0, query) == before
  {
  }

  lemma PurgeStep(before: seq<string>, stored: seq<string>, i: nat, query: ContractQuery)
    requires Distinct(stored) && i < |stored|
    ensures if query.success && stored[i] !in query.shardIds
            then Without(Left(stored, i, query), stored[i]) == Left(stored, i + 1, query)
                 && Submitted(before, stored, i + 1, query) == Submitted(before, stored, i, query)
            else Left(stored, i + 1, query) == Left(stored, i, query)
                 && Submitted(before, stored, i + 1, query) == Submitted(before, stored, i, query) + [stored[i]]
  {
    var fragment, done := stored[i], Kept(stored[..i], query);
    assert stored[..i + 1][..i] == stored[..i] && stored[i..] == [fragment] + stored[i + 1..];
    KeptAre(stored[..i], query, fragment);
    assert done + stored[i..] == done + [fragment] + stored[i + 1..];
    if query.success && fragment !in query.shardIds {
      WithoutMiddle(done, fragment, stored[i + 1..]);
    }
  }

  lemma PurgeEnds(before: seq<string>, stored: seq<string>, query: ContractQuery)
    requires Distinct(stored)
    ensures Left(stored, |stored|, query) == Kept(stored, query) && Distinct(Kept(stored, query))
    ensures Submitted(before, stored, |stored|, query) == before + Kept(stored, query)
  {
    assert stored[..|stored|] == stored;
    KeptAreDistinct(stored, query);
  }

  class ContractEnforcer {
    const backend: Backend
    var present: bool              // the data directory exists
    var names: seq<string>         // its fragments, in listing order

    constructor (backend: Backend, present: bool, names: seq<string>)
      ensures this.backend == backend && this.present == present && this.names == names
    {
      this.backend, this.present, this.names := backend, present, names;
    }

    ghost predicate Valid()
      reads this
    {
      Distinct(names) && (!present ==> names == [])
    }

    /** A missing directory lists as empty. */
    method CollectStoredFragments() returns (stored: seq<string>)
      requires Valid()
      ensures stored == names
    {
      stored := if present then names else [];
    }

    method Unlink(fragment: string)
      modifies this`names
      ensures names == Without(old(names), fragment)
    {
      names := Without(names, fragment);
    }

    /** `_purge_and_claim`: what stays on disk is exactly what is submitted for withdrawal. */
    method PurgeAndClaim(query: ContractQuery)
      requires Valid()
      modifies this`names, backend`withdrawals
      ensures Valid() && names == Kept(old(names), query)
      ensures forall x :: x in names <==> x in old(names) && (!query.success || x in query.shardIds)
      ensures backend.withdrawals == old(backend.withdrawals) + names
    {
      ghost var before := backend.withdrawals;
      var stored := CollectStoredFragments();
      PurgeStarts(before, stored, query);
      for i := 0 to |stored|
        invariant names == Left(stored, i, query)
        invariant backend.withdrawals == Submitted(before, stored, i, query)
      {
        PurgeStep(before, stored, i, query);
        var fragment := stored[i];
        if query.success && fragment !in query.shardIds {
          Unlink(fragment);
        } else {
          backend.WithdrawRequest(fragment);
        }
      }
      PurgeEnds(before, stored, query);
      forall x | true ensures x in names <==> x in stored && (!query.success || x in query.shardIds) {
        KeptAre(stored, query, x);
      }
    }
  }

  /**
   Each stored fragment is deleted or submitted for withdrawal, exactly once and never both: it is
   deleted if and only if the query succeeded and does not list it.
   */
  lemma EachFragmentOnce(stored: seq<string>, query: ContractQuery, x: string)
    requires Distinct(stored) && x in stored
    ensures multiset(Kept(stored, query))[x] == if query.success && x !in query.shardIds then 0 else 1
  {
    KeptAre(stored, query, x);
    KeptAreDistinct(stored, query);
    DistinctCount(Kept(stored, query), x);
  }

  lemma {:induction false} DistinctCount(names: seq<string>, x: string)
    requires Distinct(names)
    ensures multiset(names)[x] == if x in names then 1 else 0
  {
    if names != [] {
      DistinctCount(names[..|names| - 1], x);
      assert names == names[..|names| - 1] + [names[|names| - 1]];
    }
  }

  /** A failed query deletes nothing, and a second cycle with the same answer deletes nothing more. */
  lemma CyclesSettle(stored: seq<string>, query: ContractQuery)
    ensures !query.success ==> Kept(stored, query) == stored
    ensures Kept(Kept(stored, query), query) == Kept(stored, query)
  {
    if !query.success {
      KeptAll(stored, query);
    }
    forall x | x in Kept(stored, query)
      ensures !query.success || x in query.shardIds
    {
      KeptAre(stored, query, x);
    }
    KeptAll(Kept(stored, query), query);
  }
}
