/** The settings and neighbours every part of the node shares. */
module NodeParts {
  import opened Wrappers

  /** The `type` of a request; the dispatcher starts no transfer for one it does not know. */
  datatype RequestKind = Upload | Download | Audit | Unknown

  datatype Request = Request(kind: RequestKind, shardId: string, port: nat)

  /** `NodeConfig`, as far as the modelled parts read or write it. */
  class NodeConfig {
    var local: bool
    var hosted: bool
    var publicIp: string
    var localIp: string
    var primaryPort: int
    const startingPort: int

    constructor (local: bool, hosted: bool, localIp: string, startingPort: int)
      ensures this.local == local && this.hosted == hosted && this.localIp == localIp
      ensures publicIp == "" && primaryPort == 0 && this.startingPort == startingPort
    {
      this.local, this.hosted, this.localIp, this.startingPort := local, hosted, localIp, startingPort;
      publicIp, primaryPort := "", 0;
    }
  }

  /** The router as a table of forwarded ports.  Without an explicit address it forwards to `ownAddress`. */
  class Router {
    var forwards: map<int, string>
    var ownAddress: string
    var calls: nat

    constructor (ownAddress: string)
      ensures forwards == map[] && this.ownAddress == ownAddress && calls == 0
    {
      forwards, calls := map[], 0;
      this.ownAddress := ownAddress;
    }

    method ForwardPort(port: int, address: Option<string>, disable: bool)
      modifies this`forwards, this`calls
      ensures calls == old(calls) + 1
      ensures forwards == if disable then old(forwards) - {port}
                          else old(forwards)[port := if address.Some? then address.value else ownAddress]
    {
      calls := calls + 1;
      if disable {
        forwards := forwards - {port};
      } else {
        forwards := forwards[port := if address.Some? then address.value else ownAddress];
      }
    }
  }

  /** What the coordination server has been told. */
  class Backend {
    var completed: seq<string>                 // shards reported by `done_uploading`
    var connections: seq<(string, int)>        // addresses sent by `update_connection`
    var withdrawals: seq<string>               // fragments sent by `withdraw_request`

    constructor ()
      ensures completed == [] && connections == [] && withdrawals == []
    {
      completed, connections, withdrawals := [], [], [];
    }

    method DoneUploading(shardId: string)
      modifies this`completed
      ensures completed == old(completed) + [shardId]
    {
      completed := completed + [shardId];
    }

    method UpdateConnection(ip: string, port: int)
      modifies this`connections
      ensures connections == old(connections) + [(ip, port)]
    {
      connections := connections + [(ip, port)];
    }

    method WithdrawRequest(fragment: string)
      modifies this`withdrawals
      ensures withdrawals == old(withdrawals) + [fragment]
    {
      withdrawals := withdrawals + [fragment];
    }
  }
}
