/** The persisted tunnels: what is stored, what clients see of it, and the store's in-memory operations. */
module Config {
  import opened Basics
  import opened Text
  import Kernel

  /** Why a request was refused. The message text is not modelled. */
  datatype Error =
    | BadPrivateKey
    | BadPublicKey
    | BadPresharedKey
    | BadAllowedIp
    | BadAddress
    | NoAddress
    | BadDns
    | Unresolved
    | OpFailed
    | BadConf
    | EmptyName
    | UnknownServer
    | ActiveTunnel
    | NotPersisted

  datatype ServerConfig = ServerConfig(
    name: string,
    privateKey: string,
    publicKey: string,
    endpoint: string,
    resolvedEndpoint: Option<string>,
    addresses: seq<string>,
    allowedIps: seq<string>,
    listenPort: u16,
    mtu: Option<u32>,
    keepalive: Option<u16>,
    presharedKey: Option<string>,
    dns: seq<string>)

  datatype Config = Config(servers: seq<ServerConfig>)

  function FindIn(servers: seq<ServerConfig>, name: string): (r: Option<ServerConfig>)
    ensures r.Some? ==> r.value in servers && r.value.name == name
    ensures r.None? ==> forall s :: s in servers ==> s.name != name
  {
    if servers == [] then None
    else if servers[0].name == name then Some(servers[0])
    else FindIn(servers[1..], name)
  }

  /** Replace the first entry of that name, or append. */
  function UpsertIn(servers: seq<ServerConfig>, server: ServerConfig): (r: seq<ServerConfig>)
    ensures forall s :: s in r ==> s == server || s in servers
    ensures server in r
  {
    if servers == [] then [server]
    else if servers[0].name == server.name then [server] + servers[1..]
    else [servers[0]] + UpsertIn(servers[1..], server)
  }

  function NameIsNot(name: string): ServerConfig -> bool {
    (s: ServerConfig) => s.name != name
  }

  function RemoveIn(servers: seq<ServerConfig>, name: string): seq<ServerConfig> {
    Keep(servers, NameIsNot(name))
  }

  /** `Config` as the daemon holds it: a vector changed in place. */
  class Servers {
    var servers: seq<ServerConfig>

    constructor (cfg: Config)
      ensures servers == cfg.servers
    {
      servers := cfg.servers;
    }

    method FindServer(name: string) returns (r: Option<ServerConfig>)
      ensures r == FindIn(servers, name)
    {
      for i := 0 to |servers|
        invariant FindIn(servers, name) == FindIn(servers[i..], name)
      {
        if servers[i].name == name {
          return Some(servers[i]);
        }
      }
      r := None;
    }

    method UpsertServer(server: ServerConfig) returns (replaced: bool)
      modifies this
      ensures servers == UpsertIn(old(servers), server)
      ensures replaced <==> FindIn(old(servers), server.name).Some?
    {
      for i := 0 to |servers|
        invariant servers == old(servers)
        invariant forall j :: 0 <= j < i ==> servers[j].name != server.name
      {
        if servers[i].name == server.name {
          UpsertAt(servers, server, i);
          servers := servers[i := server];
          return true;
        }
      }
      UpsertMissing(servers, server);
      servers := servers + [server];
      replaced := false;
    }

    method RemoveServer(name: string) returns (removed: bool)
      modifies this
      ensures servers == RemoveIn(old(servers), name)
      ensures removed <==> FindIn(old(servers), name).Some?
    {
      var before := |servers|;
      RemoveShrinks(servers, name);
      servers := RemoveIn(servers, name);
      removed := |servers| != before;
    }
  }

  lemma {:induction false} UpsertAt(servers: seq<ServerConfig>, server: ServerConfig, i: nat)
    requires i < |servers| && servers[i].name == server.name
    requires forall j :: 0 <= j < i ==> servers[j].name != server.name
    ensures UpsertIn(servers, server) == servers[i := server]
    ensures FindIn(servers, server.name) == Some(servers[i])
    decreases i
  {
    if i > 0 {
      assert servers[0].name != server.name;
      UpsertAt(servers[1..], server, i - 1);
    }
  }

  lemma {:induction false} UpsertMissing(servers: seq<ServerConfig>, server: ServerConfig)
    requires forall s :: s in servers ==> s.name != server.name
    ensures UpsertIn(servers, server) == servers + [server]
    ensures FindIn(servers, server.name).None?
    decreases servers
  {
    if servers != [] {
      assert servers[0] in servers;
      UpsertMissing(servers[1..], server);
    }
  }

  lemma RemoveKeepsElements(servers: seq<ServerConfig>, name: string)
    ensures forall s :: s in RemoveIn(servers, name) <==> s in servers && s.name != name
  {
    KeepElements(servers, NameIsNot(name));
  }

  /** `retain` shortens the vector exactly when the name was there. */
  lemma {:induction false} RemoveShrinks(servers: seq<ServerConfig>, name: string)
    ensures |RemoveIn(servers, name)| < |servers| <==> FindIn(servers, name).Some?
    ensures |RemoveIn(servers, name)| <= |servers|
    decreases servers
  {
    if servers != [] {
      RemoveShrinks(servers[1..], name);
    }
  }

  predicate UniqueNames(servers: seq<ServerConfig>) {
    forall i, j :: 0 <= i < j < |servers| ==> servers[i].name != servers[j].name
  }

  lemma {:induction false} UpsertLookup(servers: seq<ServerConfig>, server: ServerConfig, name: string)
    ensures FindIn(UpsertIn(servers, server), name) ==
            if name == server.name then Some(server) else FindIn(servers, name)
    decreases servers
  {
    if servers != [] && servers[0].name != server.name {
      assert UpsertIn(servers, server)[1..] == UpsertIn(servers[1..], server);
      UpsertLookup(servers[1..], server, name);
    } else if servers != [] {
      assert UpsertIn(servers, server)[1..] == servers[1..];
    }
  }

  lemma {:induction false} RemoveLookup(servers: seq<ServerConfig>, removed: string, name: string)
    ensures FindIn(RemoveIn(servers, removed), name) == if name == removed then None else FindIn(servers, name)
    decreases servers
  {
    if servers != [] {
      var rest := RemoveIn(servers[1..], removed);
      assert RemoveIn(servers, removed) == (if servers[0].name != removed then [servers[0]] else []) + rest;
      RemoveLookup(servers[1..], removed, name);
      if servers[0].name != removed {
        assert RemoveIn(servers, removed)[1..] == rest;
      } else {
        assert RemoveIn(servers, removed) == rest;
      }
    }
  }

  lemma {:induction false} UpsertUnique(servers: seq<ServerConfig>, server: ServerConfig)
    requires UniqueNames(servers)
    ensures UniqueNames(UpsertIn(servers, server))
    decreases servers
  {
    if servers != [] {
      var r := UpsertIn(servers, server);
      if servers[0].name != server.name {
        UpsertUnique(servers[1..], server);
        var tail := UpsertIn(servers[1..], server);
        forall i, j | 0 <= i < j < |r| ensures r[i].name != r[j].name {
          assert r[j] == tail[j - 1] && tail[j - 1] in tail;
          if i == 0 && r[j] != server {
            var k :| 0 <= k < |servers[1..]| && servers[1..][k] == r[j];
            assert servers[0].name != servers[k + 1].name;
          }
        }
      } else {
        forall i, j | 0 <= i < j < |r| ensures r[i].name != r[j].name {
          assert servers[i].name != servers[j].name;
        }
      }
    }
  }

  lemma {:induction false} RemoveUnique(servers: seq<ServerConfig>, name: string)
    requires UniqueNames(servers)
    ensures UniqueNames(RemoveIn(servers, name))
    decreases servers
  {
    if servers != [] {
      RemoveUnique(servers[1..], name);
      var rest := RemoveIn(servers[1..], name);
      var r := RemoveIn(servers, name);
      forall i, j | 0 <= i < j < |r| ensures r[i].name != r[j].name {
        if r == rest {
        } else {
          assert r == [servers[0]] + rest;
          if i == 0 {
            RemoveKeepsElements(servers[1..], name);
            assert rest[j - 1] in rest;
            var k :| 0 <= k < |servers[1..]| && servers[1..][k] == rest[j - 1];
            assert servers[0].name != servers[k + 1].name;
          }
        }
      }
    }
  }
}
