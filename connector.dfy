/** The connector: its lifecycle state, the registration and deregistration
    URIs it derives from each router URI, the sliding window of tunnel
    sockets it opens at start, the replacement action each socket carries,
    and shutdown. Threads are outside the model: a socket whose event loop is
    submitted to its thread pool is recorded in `launched`. */
module Connectors {
  import opened Base
  import opened Strings
  import opened Protocol
  import opened ConnPool
  import opened Bridge
  import opened Sockets

  datatype State = NotStarted | Running | ShuttingDown | Shutdown

  /** A socket whose event loop was submitted: where it connects, its slot
      index and the headers of its upgrade request. */
  datatype Launch = Launch(uri: Url, connIdx: int, upgradeHeaders: map<string, string>)

  /** The start configuration. */
  datatype Config = Config(routerUris: seq<Url>, targetServiceName: string, slidingWindowSize: int,
                           instanceId: string, componentName: string)

  // URIs.

  /** The base path through its last slash; empty when it has none. */
  function Directory(path: string): (dir: string)
    ensures StartsWith(path, dir)
    ensures dir == [] || dir[|dir| - 1] == '/'
    ensures '/' !in path[|dir|..]
  {
    if path == [] then []
    else if path[|path| - 1] == '/' then path
    else
      var dir := Directory(path[..|path| - 1]);
      assert path[..|path| - 1][|dir|..] + [path[|path| - 1]] == path[|dir|..];
      dir
  }

  /** Merging a relative path with the base path, as in section 5.2.3 of
      RFC 3986: a base with an authority and an empty path merges under "/". */
  function MergePath(base: Url, ref: string): string
  {
    if base.authority != "" && base.path == "" then "/" + ref else Directory(base.path) + ref
  }

  /** The query both URIs carry. */
  function ConnectorQuery(instanceId: string, componentName: string): string
  {
    "connectorInstanceID=" + instanceId + "&componentName=" + componentName
  }

  /** `uri.join(URL.build(path="register/", query=...))`. */
  function RegisterUri(router: Url, instanceId: string, componentName: string): (r: Url)
    ensures r.scheme == router.scheme && r.authority == router.authority
    ensures r.query == ConnectorQuery(instanceId, componentName)
  {
    Url(router.scheme, router.authority, MergePath(router, "register/"), ConnectorQuery(instanceId, componentName))
  }

  /** `uri.join(URL.build(path="/deregister/", query=...))`: an absolute path. */
  function DeregisterUri(router: Url, instanceId: string, componentName: string): (r: Url)
    ensures r.scheme == router.scheme && r.authority == router.authority
    ensures r.query == ConnectorQuery(instanceId, componentName)
  {
    Url(router.scheme, router.authority, "/deregister/", ConnectorQuery(instanceId, componentName))
  }

  /** The registration path keeps the router's directory and ends in "register/". */
  lemma RegisterPath(router: Url, instanceId: string, componentName: string)
    ensures var p := RegisterUri(router, instanceId, componentName).path;
      |p| >= 9 && p[|p| - 9..] == "register/"
    ensures router.authority == "" || router.path != "" ==>
      StartsWith(router.path, RegisterUri(router, instanceId, componentName).path[..|RegisterUri(router, instanceId, componentName).path| - 9])
  {
  }

  /** A registration URI is a deregistration path only when the router's own
      path is one; deregistration URIs always are. */
  lemma RegisterNotDeregistration(router: Url, instanceId: string, componentName: string)
    requires !StartsWith(router.path, "/deregister")
    ensures !StartsWith(RegisterUri(router, instanceId, componentName).path, "/deregister")
  {
    var p := RegisterUri(router, instanceId, componentName).path;
    var dir := if router.authority != "" && router.path == "" then "/" else Directory(router.path);
    assert p == dir + "register/";
    if |dir| >= 11 {
      assert StartsWith(router.path, dir);
      assert p[..11] == dir[..11] == router.path[..11];
    } else if |dir| >= 2 {
      assert dir[|dir| - 1] == '/';
      assert p[|dir| - 1] == '/';
      assert "/deregister"[|dir| - 1] != '/';
    } else {
      assert |p| <= 10;
    }
  }

  lemma DeregisterGated(socks: map<string, int>, maxSockets: int, router: Url, instanceId: string, componentName: string)
    ensures !SafeToAdd(socks, maxSockets, DeregisterUri(router, instanceId, componentName))
  {
    DeregistrationNeverSafe(socks, maxSockets, DeregisterUri(router, instanceId, componentName));
  }

  // What start does, as values.

  /** `range(n)` is empty for a non-positive size. */
  function Window(slidingWindowSize: int): nat
  {
    if slidingWindowSize > 0 then slidingWindowSize else 0
  }

  function RegisterKeys(uris: seq<Url>, instanceId: string, componentName: string): (keys: seq<string>)
    ensures |keys| == |uris|
    ensures forall j :: 0 <= j < |uris| ==> keys[j] == RegisterUri(uris[j], instanceId, componentName).ToString()
  {
    seq(|uris|, j requires 0 <= j < |uris| => RegisterUri(uris[j], instanceId, componentName).ToString())
  }

  /** `n` additions of one key. */
  function WindowOps(key: string, n: nat): (ops: seq<FarmOp>)
    ensures |ops| == n && forall i :: 0 <= i < n ==> ops[i] == AddWs(key)
  {
    seq(n, _ => AddWs(key))
  }

  /** Slots 0 to n - 1 of one URI. */
  function WindowLaunches(uri: Url, n: nat, headers: map<string, string>): (r: seq<Launch>)
    ensures |r| == n && forall i :: 0 <= i < n ==> r[i] == Launch(uri, i, headers)
  {
    seq(n, i => Launch(uri, i, headers))
  }

  lemma WindowSnoc(uri: Url, i: nat, headers: map<string, string>)
    ensures WindowOps(uri.ToString(), i + 1) == WindowOps(uri.ToString(), i) + [AddWs(uri.ToString())]
    ensures WindowLaunches(uri, i + 1, headers) == WindowLaunches(uri, i, headers) + [Launch(uri, i, headers)]
  {
  }

  /** The `add_ws` calls of start, router by router, `n` per router. */
  function StartOps(uris: seq<Url>, n: nat, instanceId: string, componentName: string): seq<FarmOp>
  {
    if uris == [] then []
    else
      StartOps(uris[..|uris| - 1], n, instanceId, componentName)
      + WindowOps(RegisterUri(uris[|uris| - 1], instanceId, componentName).ToString(), n)
  }

  /** The sockets start launches, router by router, slots 0 to n - 1. */
  function StartLaunches(uris: seq<Url>, n: nat, instanceId: string, componentName: string,
                         headers: map<string, string>): seq<Launch>
  {
    if uris == [] then []
    else
      StartLaunches(uris[..|uris| - 1], n, instanceId, componentName, headers)
      + WindowLaunches(RegisterUri(uris[|uris| - 1], instanceId, componentName), n, headers)
  }

  /** The sockets shutdown launches, one per router, in slot 0. */
  function ShutdownLaunches(uris: seq<Url>, instanceId: string, componentName: string,
                            headers: map<string, string>): (r: seq<Launch>)
    ensures |r| == |uris|
    ensures forall j :: 0 <= j < |uris| ==> r[j] == Launch(DeregisterUri(uris[j], instanceId, componentName), 0, headers)
  {
    seq(|uris|, j requires 0 <= j < |uris| => Launch(DeregisterUri(uris[j], instanceId, componentName), 0, headers))
  }

  lemma StartOpsAdd(uris: seq<Url>, n: nat, instanceId: string, componentName: string)
    ensures forall i :: 0 <= i < |StartOps(uris, n, instanceId, componentName)| ==> StartOps(uris, n, instanceId, componentName)[i].AddWs?
  {
    if uris != [] {
      StartOpsAdd(uris[..|uris| - 1], n, instanceId, componentName);
    }
  }

  lemma NetRepeat(n: nat, k: string, key: string)
    ensures Net(WindowOps(k, n), key) == if k == key then n else 0
  {
    if n > 0 {
      assert WindowOps(k, n)[1..] == WindowOps(k, n - 1);
      NetRepeat(n - 1, k, key);
    }
  }

  lemma RegisterKeysSnoc(uris: seq<Url>, instanceId: string, componentName: string)
    requires uris != []
    ensures RegisterKeys(uris, instanceId, componentName)
         == RegisterKeys(uris[..|uris| - 1], instanceId, componentName)
            + [RegisterUri(uris[|uris| - 1], instanceId, componentName).ToString()]
  {
  }

  /** Start adds `n` for each router whose registration URI is the key. */
  lemma {:induction false} StartOpsNet(uris: seq<Url>, n: nat, instanceId: string, componentName: string, key: string)
    ensures Net(StartOps(uris, n, instanceId, componentName), key) == n * multiset(RegisterKeys(uris, instanceId, componentName))[key]
  {
    if uris == [] {
      assert RegisterKeys(uris, instanceId, componentName) == [];
    } else {
      var init := uris[..|uris| - 1];
      var k := RegisterUri(uris[|uris| - 1], instanceId, componentName).ToString();
      StartOpsNet(init, n, instanceId, componentName, key);
      NetAppend(StartOps(init, n, instanceId, componentName), WindowOps(k, n), key);
      NetRepeat(n, k, key);
      RegisterKeysCount(uris, instanceId, componentName, key);
      MulStep(Net(StartOps(init, n, instanceId, componentName), key), Net(WindowOps(k, n), key), n,
              multiset(RegisterKeys(init, instanceId, componentName))[key], if k == key then 1 else 0);
    }
  }

  lemma RegisterKeysCount(uris: seq<Url>, instanceId: string, componentName: string, key: string)
    requires uris != []
    ensures multiset(RegisterKeys(uris, instanceId, componentName))[key]
         == multiset(RegisterKeys(uris[..|uris| - 1], instanceId, componentName))[key]
            + if RegisterUri(uris[|uris| - 1], instanceId, componentName).ToString() == key then 1 else 0
  {
    RegisterKeysSnoc(uris, instanceId, componentName);
  }

  lemma MulStep(prev: int, add: int, n: nat, m: nat, b: nat)
    requires prev == n * m && b <= 1 && add == (if b == 1 then n else 0)
    ensures prev + add == n * (m + b)
  {
  }

  /** After start, each registration URI's count has grown by the window
      size times the number of routers that register there. */
  lemma StartCount(socks: map<string, int>, uris: seq<Url>, n: nat, instanceId: string, componentName: string, key: string)
    ensures Count(Run(socks, StartOps(uris, n, instanceId, componentName)), key)
         == Count(socks, key) + n * multiset(RegisterKeys(uris, instanceId, componentName))[key]
  {
    StartOpsAdd(uris, n, instanceId, componentName);
    AdditionsCount(socks, StartOps(uris, n, instanceId, componentName), key);
    StartOpsNet(uris, n, instanceId, componentName, key);
  }

  /** From an empty farm, distinct routers each get exactly one window of
      sockets, which leaves the gate open for as many replacements again. */
  lemma StartLeavesRoom(uris: seq<Url>, slidingWindowSize: int, instanceId: string, componentName: string, j: nat)
    requires j < |uris| && slidingWindowSize >= 1
    requires forall a, b :: 0 <= a < b < |uris| ==>
      RegisterKeys(uris, instanceId, componentName)[a] != RegisterKeys(uris, instanceId, componentName)[b]
    requires !StartsWith(uris[j].path, "/deregister")
    ensures var socks := Run(map[], StartOps(uris, Window(slidingWindowSize), instanceId, componentName));
      var reg := RegisterUri(uris[j], instanceId, componentName);
      Count(socks, reg.ToString()) == slidingWindowSize
      && SafeToAdd(socks, 2 * slidingWindowSize, reg)
  {
    var keys := RegisterKeys(uris, instanceId, componentName);
    var reg := RegisterUri(uris[j], instanceId, componentName);
    assert keys[j] == reg.ToString();
    OccursOnce(keys, j);
    StartCount(map[], uris, Window(slidingWindowSize), instanceId, componentName, keys[j]);
    assert Count(map[], keys[j]) == 0;
    assert Window(slidingWindowSize) * 1 == slidingWindowSize;
    RegisterNotDeregistration(uris[j], instanceId, componentName);
  }

  /** An element of a sequence without repetitions occurs in it once. */
  lemma {:induction false} OccursOnce<T>(xs: seq<T>, j: nat)
    requires j < |xs|
    requires forall a, b :: 0 <= a < b < |xs| ==> xs[a] != xs[b]
    ensures multiset(xs)[xs[j]] == 1
  {
    var init := xs[..|xs| - 1];
    assert xs == init + [xs[|xs| - 1]];
    if j == |xs| - 1 {
      assert xs[j] !in init by {
        assert forall a :: 0 <= a < |init| ==> init[a] == xs[a] != xs[j];
      }
    } else {
      OccursOnce(init, j);
      assert init[j] == xs[j];
    }
  }

  /** One more router in `start`: its window extends the farm's run ... */
  lemma StartStepFarm(socks0: map<string, int>, uris: seq<Url>, j: nat, n: nat, instanceId: string, componentName: string,
                      socksBefore: map<string, int>, socksAfter: map<string, int>)
    requires j < |uris|
    requires socksBefore == Run(socks0, StartOps(uris[..j], n, instanceId, componentName))
    requires socksAfter == Run(socksBefore, WindowOps(RegisterUri(uris[j], instanceId, componentName).ToString(), n))
    ensures socksAfter == Run(socks0, StartOps(uris[..j + 1], n, instanceId, componentName))
  {
    assert uris[..j + 1][..j] == uris[..j];
    var reg := RegisterUri(uris[j], instanceId, componentName);
    RunAppend(socks0, StartOps(uris[..j], n, instanceId, componentName), WindowOps(reg.ToString(), n));
  }

  /** ... and the launches. */
  lemma StartStepLaunches(launched0: seq<Launch>, on: bool, uris: seq<Url>, j: nat, n: nat,
                          instanceId: string, componentName: string, headers: map<string, string>,
                          launchedBefore: seq<Launch>, launchedAfter: seq<Launch>)
    requires j < |uris|
    requires launchedBefore == launched0 + (if on then StartLaunches(uris[..j], n, instanceId, componentName, headers) else [])
    requires launchedAfter == launchedBefore + (if on then WindowLaunches(RegisterUri(uris[j], instanceId, componentName), n, headers) else [])
    ensures launchedAfter == launched0 + (if on then StartLaunches(uris[..j + 1], n, instanceId, componentName, headers) else [])
  {
    assert uris[..j + 1][..j] == uris[..j];
    if on {
      var prev := StartLaunches(uris[..j], n, instanceId, componentName, headers);
      var w := WindowLaunches(RegisterUri(uris[j], instanceId, componentName), n, headers);
      assert launched0 + prev + w == launched0 + (prev + w);
    } else {
      assert launched0 + [] + [] == launched0;
    }
  }

  class Connector {
    const routerUris: seq<Url>
    const targetServiceName: string
    const slidingWindowSize: int
    const instanceId: string
    const componentName: string
    /** `target_uri.join(URL(dest))` for the sockets. */
    const resolve: string -> string
    /** The HTTP client the sockets share. */
    const client: Call -> Reply
    const farm: WebsocketClientFarm
    var state: State
    ghost var launched: seq<Launch>

    constructor (routerUris: seq<Url>, resolve: string -> string, client: Call -> Reply, targetServiceName: string,
                 slidingWindowSize: int, instanceId: string, componentName: string)
      ensures this.routerUris == routerUris && this.resolve == resolve && this.client == client
      ensures this.targetServiceName == targetServiceName && this.slidingWindowSize == slidingWindowSize
      ensures this.instanceId == instanceId && this.componentName == componentName
      ensures fresh(farm) && farm.maxSlidingWindowSize == 2 * slidingWindowSize && farm.connectorSocks == map[]
      ensures state == NotStarted && launched == []
    {
      this.routerUris := routerUris;
      this.resolve := resolve;
      this.client := client;
      this.targetServiceName := targetServiceName;
      this.slidingWindowSize := slidingWindowSize;
      this.instanceId := instanceId;
      this.componentName := componentName;
      farm := new WebsocketClientFarm(slidingWindowSize);
      state := NotStarted;
      launched := [];
    }

    /** The headers of every upgrade request. */
    function UpgradeHeaders(): (h: map<string, string>)
      ensures "CrankerProtocol" in h && h["CrankerProtocol"] == CrankerProtocolVersion10
      ensures "Route" in h && h["Route"] == targetServiceName
      ensures |h| == 2
    {
      map["CrankerProtocol" := CrankerProtocolVersion10, "Route" := targetServiceName]
    }

    /** `_connect_to_router`: creates the socket; unless the connector is
        shut down, counts a connection attempt and launches it. */
    method ConnectToRouter(registerUri: Url, info: ConnInfo) returns (sock: ConnectorSocket)
      modifies this, info
      ensures fresh(sock) && sock.registerUri == registerUri && sock.connInfo == info && sock.farm == farm
      ensures sock.resolve == resolve && sock.client == client && sock.reqToTarget == null && sock.log == []
      ensures state == old(state)
      ensures old(state) != State.Shutdown ==>
        launched == old(launched) + [Launch(registerUri, info.connIdx, UpgradeHeaders())]
        && info.curConnAttempts == old(info.curConnAttempts) + 1
      ensures old(state) == State.Shutdown ==> launched == old(launched) && info.curConnAttempts == old(info.curConnAttempts)
    {
      sock := new ConnectorSocket(registerUri, resolve, client, info, farm);
      if state != State.Shutdown {
        info.OnConnStarting();
        launched := launched + [Launch(registerUri, info.connIdx, UpgradeHeaders())];
      }
    }

    /** The replacement action each socket is given: nothing while shutting
        down or shut down; otherwise, if the gate admits the URI, a new
        socket on the same slot, counted in the farm. */
    method Runnable(registerUri: Url, info: ConnInfo)
      modifies this, info, farm
      ensures state == old(state)
      ensures old(state) in {ShuttingDown, State.Shutdown} || !old(SafeToAdd(farm.connectorSocks, farm.maxSlidingWindowSize, registerUri)) ==>
        launched == old(launched) && farm.connectorSocks == old(farm.connectorSocks)
        && info.curConnAttempts == old(info.curConnAttempts)
      ensures old(state) !in {ShuttingDown, State.Shutdown} && old(SafeToAdd(farm.connectorSocks, farm.maxSlidingWindowSize, registerUri)) ==>
        launched == old(launched) + [Launch(registerUri, info.connIdx, UpgradeHeaders())]
        && farm.connectorSocks == AddedTo(old(farm.connectorSocks), registerUri.ToString())
        && info.curConnAttempts == old(info.curConnAttempts) + 1
      ensures Count(old(farm.connectorSocks), registerUri.ToString()) <= farm.maxSlidingWindowSize ==>
        Count(farm.connectorSocks, registerUri.ToString()) <= farm.maxSlidingWindowSize
    {
      if state == State.Shutdown || state == ShuttingDown {
      } else if farm.IsSafeToAddWs(registerUri) {
        var socks := farm.connectorSocks;
        AdmittedStaysWithinMax(socks, farm.maxSlidingWindowSize, registerUri);
        var sock := ConnectToRouter(registerUri, info);
        farm.AddWs(registerUri.ToString());
      }
    }

    /** `start`: a window of sockets per router, each counted in the farm. */
    method Start()
      modifies this, farm
      ensures state == Running
      ensures farm.connectorSocks == Run(old(farm.connectorSocks), StartOps(routerUris, Window(slidingWindowSize), instanceId, componentName))
      ensures launched == old(launched) + (if old(state) == State.Shutdown then []
                                           else StartLaunches(routerUris, Window(slidingWindowSize), instanceId, componentName, UpgradeHeaders()))
    {
      var n := Window(slidingWindowSize);
      ghost var socks0 := farm.connectorSocks;
      ghost var launched0 := launched;
      ghost var on := state != State.Shutdown;
      for j := 0 to |routerUris|
        invariant state == old(state)
        invariant farm.connectorSocks == Run(socks0, StartOps(routerUris[..j], n, instanceId, componentName))
        invariant launched == launched0 + (if on then StartLaunches(routerUris[..j], n, instanceId, componentName, UpgradeHeaders()) else [])
      {
        var registerUri := RegisterUri(routerUris[j], instanceId, componentName);
        ghost var socksBefore := farm.connectorSocks;
        ghost var launchedBefore := launched;
        ConnectWindow(registerUri, n);
        StartStepFarm(socks0, routerUris, j, n, instanceId, componentName, socksBefore, farm.connectorSocks);
        StartStepLaunches(launched0, on, routerUris, j, n, instanceId, componentName, UpgradeHeaders(), launchedBefore, launched);
      }
      assert routerUris[..|routerUris|] == routerUris;
      state := Running;
    }

    /** The inner loop of `start`: slots 0 to n - 1 for one registration URI. */
    method ConnectWindow(registerUri: Url, n: nat)
      modifies this, farm
      ensures state == old(state)
      ensures farm.connectorSocks == Run(old(farm.connectorSocks), WindowOps(registerUri.ToString(), n))
      ensures launched == old(launched) + (if old(state) != State.Shutdown then WindowLaunches(registerUri, n, UpgradeHeaders()) else [])
    {
      var headers := UpgradeHeaders();
      var key := registerUri.ToString();
      ghost var on := state != State.Shutdown;
      for i := 0 to n
        invariant state == old(state)
        invariant farm.connectorSocks == Run(old(farm.connectorSocks), WindowOps(key, i))
        invariant launched == old(launched) + (if on then WindowLaunches(registerUri, i, headers) else [])
      {
        var info := new ConnInfo(registerUri, i);
        var sock := ConnectToRouter(registerUri, info);
        farm.AddWs(key);
        RunSnoc(old(farm.connectorSocks), WindowOps(key, i), AddWs(key));
        WindowSnoc(registerUri, i, headers);
      }
    }

    /** `shutdown`: while shutting down, one deregistration socket per router
        in slot 0, not counted in the farm; then shut down. */
    method Shutdown()
      modifies this
      ensures state == State.Shutdown
      ensures launched == old(launched) + ShutdownLaunches(routerUris, instanceId, componentName, UpgradeHeaders())
    {
      state := ShuttingDown;
      for j := 0 to |routerUris|
        invariant state == ShuttingDown
        invariant launched == old(launched) + ShutdownLaunches(routerUris[..j], instanceId, componentName, UpgradeHeaders())
      {
        var deregister := DeregisterUri(routerUris[j], instanceId, componentName);
        var info := new ConnInfo(deregister, 0);
        var sock := ConnectToRouter(deregister, info);
        assert ShutdownLaunches(routerUris[..j + 1], instanceId, componentName, UpgradeHeaders())
            == ShutdownLaunches(routerUris[..j], instanceId, componentName, UpgradeHeaders()) + [Launch(deregister, 0, UpgradeHeaders())];
      }
      assert routerUris[..|routerUris|] == routerUris;
      state := State.Shutdown;
    }
  }

  /** `create_and_start_connector`: a started connector for the configuration. */
  method CreateAndStartConnector(c: Config, resolve: string -> string, client: Call -> Reply) returns (connector: Connector)
    ensures fresh(connector) && fresh(connector.farm)
    ensures connector.routerUris == c.routerUris && connector.targetServiceName == c.targetServiceName
    ensures connector.slidingWindowSize == c.slidingWindowSize
    ensures connector.instanceId == c.instanceId && connector.componentName == c.componentName
    ensures connector.state == Running
    ensures connector.farm.connectorSocks == Run(map[], StartOps(c.routerUris, Window(c.slidingWindowSize), c.instanceId, c.componentName))
    ensures connector.launched == StartLaunches(c.routerUris, Window(c.slidingWindowSize), c.instanceId, c.componentName, connector.UpgradeHeaders())
  {
    connector := new Connector(c.routerUris, resolve, client, c.targetServiceName, c.slidingWindowSize, c.instanceId, c.componentName);
    connector.Start();
  }
}
