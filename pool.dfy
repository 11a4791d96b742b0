/** Connection bookkeeping: the per-slot attempt counter with its back-off
    delay (`ConnInfo`) and the per-registration-URI count of open tunnel
    sockets with its admission gate (`WebsocketClientFarm`). */
module ConnPool {
  import opened Base
  import opened Strings

  /** A URL reduced to the parts the connector reads: the path for the
      deregistration test and the string form used as the farm's key. */
  datatype Url = Url(scheme: string, authority: string, path: string, query: string)
  {
    /** `str(url)`. */
    function ToString(): string
    {
      scheme + "://" + authority + path + (if query == "" then "" else "?" + query)
    }
  }

  // Back-off.

  const BaseDelayMillis := 500
  const MaxBackoffMillis := 10000

  function Pow2(n: nat): (r: nat)
    ensures r >= 1
  {
    if n == 0 then 1 else 2 * Pow2(n - 1)
  }

  /** `500 + min(10000, 2 ** attempts)` milliseconds. */
  function RetryDelay(attempts: nat): (ms: int)
    ensures BaseDelayMillis + 1 <= ms <= BaseDelayMillis + MaxBackoffMillis
  {
    BaseDelayMillis + (if Pow2(attempts) < MaxBackoffMillis then Pow2(attempts) else MaxBackoffMillis)
  }

  lemma {:induction false} Pow2Monotone(a: nat, b: nat)
    requires a <= b
    ensures Pow2(a) <= Pow2(b)
  {
    if a < b {
      Pow2Monotone(a, b - 1);
    }
  }

  /** More attempts never shorten the delay. */
  lemma RetryDelayMonotone(a: nat, b: nat)
    requires a <= b
    ensures RetryDelay(a) <= RetryDelay(b)
  {
    Pow2Monotone(a, b);
  }

  /** The delay doubles until it is capped, which happens from the 14th
      attempt on (2 ** 13 = 8192 is below the cap, 2 ** 14 = 16384 above it). */
  lemma RetryDelayCap(n: nat)
    ensures RetryDelay(n) == BaseDelayMillis + MaxBackoffMillis <==> n >= 14
  {
    assert Pow2(13) == 8192;
    assert Pow2(14) == 16384;
    if n >= 14 {
      Pow2Monotone(14, n);
    } else {
      Pow2Monotone(n, 13);
    }
  }

  /** One connection slot: the router URI it registers with, its index in the
      sliding window, and the number of connection attempts since the last
      successful request. */
  class ConnInfo {
    const routerUri: Url
    const connIdx: int
    var curConnAttempts: nat

    constructor (routerUri: Url, connIdx: int)
      ensures this.routerUri == routerUri && this.connIdx == connIdx && curConnAttempts == 0
    {
      this.routerUri := routerUri;
      this.connIdx := connIdx;
      curConnAttempts := 0;
    }

    method OnConnectedSuccessfully()
      modifies this
      ensures curConnAttempts == 0
    {
      curConnAttempts := 0;
    }

    method OnConnStarting()
      modifies this
      ensures curConnAttempts == old(curConnAttempts) + 1
    {
      curConnAttempts := curConnAttempts + 1;
    }

    function RetryAfterMillis(): (ms: int)
      reads this
      ensures ms == RetryDelay(curConnAttempts)
      ensures BaseDelayMillis < ms <= BaseDelayMillis + MaxBackoffMillis
    {
      RetryDelay(curConnAttempts)
    }
  }

  // The farm's counters as values.

  /** `dict.get(key, 0)`. */
  function Count(socks: map<string, int>, key: string): int
  {
    if key in socks then socks[key] else 0
  }

  /** The counters after `add_ws(key)`. */
  function AddedTo(socks: map<string, int>, key: string): (r: map<string, int>)
    ensures key in r && Count(r, key) == Count(socks, key) + 1
    ensures forall k :: k != key ==> (k in r <==> k in socks) && Count(r, k) == Count(socks, k)
  {
    socks[key := Count(socks, key) + 1]
  }

  /** The counters after `remove_ws(key)`: KeyError for an unknown key,
      otherwise one less, with no lower bound. */
  function RemovedFrom(socks: map<string, int>, key: string): (r: Result<map<string, int>>)
    ensures r.Err? <==> key !in socks
    ensures r.Err? ==> r.exc == KeyError(key)
    ensures r.Ok? ==> key in r.value && Count(r.value, key) == socks[key] - 1
    ensures r.Ok? ==> forall k :: k != key ==> (k in r.value <==> k in socks) && Count(r.value, k) == Count(socks, k)
  {
    if key in socks then Ok(socks[key := socks[key] - 1]) else Err(KeyError(key))
  }

  /** `is_safe_to_add_ws`: not a deregistration path, and fewer open sockets
      for the URI than the maximum (twice the sliding window). */
  predicate SafeToAdd(socks: map<string, int>, maxSockets: int, uri: Url)
  {
    !StartsWith(uri.path, "/deregister") && maxSockets > Count(socks, uri.ToString())
  }

  /** Adding a socket and removing it again restores every count; the key
      stays in the map. */
  lemma AddThenRemove(socks: map<string, int>, key: string)
    ensures RemovedFrom(AddedTo(socks, key), key) == Ok(socks[key := Count(socks, key)])
  {
    var added := AddedTo(socks, key);
    assert added[key := added[key] - 1] == socks[key := Count(socks, key)];
  }

  /** The farm keeps one counter per registration URI string. */
  class WebsocketClientFarm {
    const maxSlidingWindowSize: int
    var connectorSocks: map<string, int>

    constructor (slidingWindowSize: int)
      ensures maxSlidingWindowSize == 2 * slidingWindowSize && connectorSocks == map[]
    {
      maxSlidingWindowSize := slidingWindowSize * 2;
      connectorSocks := map[];
    }

    method AddWs(registerUri: string)
      modifies this
      ensures connectorSocks == AddedTo(old(connectorSocks), registerUri)
    {
      if registerUri !in connectorSocks {
        connectorSocks := connectorSocks[registerUri := 0];
      }
      connectorSocks := connectorSocks[registerUri := connectorSocks[registerUri] + 1];
    }

    /** Returns the KeyError it raises for an unknown URI, changing nothing then. */
    method RemoveWs(registerUri: string) returns (raised: Option<Exc>)
      modifies this
      ensures raised.None? <==> RemovedFrom(old(connectorSocks), registerUri).Ok?
      ensures raised.Some? ==> raised.value == KeyError(registerUri) && connectorSocks == old(connectorSocks)
      ensures raised.None? ==> connectorSocks == RemovedFrom(old(connectorSocks), registerUri).value
    {
      if registerUri in connectorSocks {
        connectorSocks := connectorSocks[registerUri := connectorSocks[registerUri] - 1];
        raised := None;
      } else {
        raised := Some(KeyError(registerUri));
      }
    }

    function IsSafeToAddWs(registerUri: Url): (safe: bool)
      reads this
      ensures safe <==> SafeToAdd(connectorSocks, maxSlidingWindowSize, registerUri)
    {
      !StartsWith(registerUri.path, "/deregister") && maxSlidingWindowSize > Count(connectorSocks, registerUri.ToString())
    }
  }

  // Runs of farm operations.

  datatype FarmOp = AddWs(key: string) | RemoveWs(key: string)

  /** One operation; a `remove_ws` that raises leaves the counters as they were. */
  function Apply(socks: map<string, int>, op: FarmOp): map<string, int>
  {
    match op
    case AddWs(k) => AddedTo(socks, k)
    case RemoveWs(k) => if RemovedFrom(socks, k).Ok? then RemovedFrom(socks, k).value else socks
  }

  function Run(socks: map<string, int>, ops: seq<FarmOp>): map<string, int>
    decreases |ops|
  {
    if ops == [] then socks else Run(Apply(socks, ops[0]), ops[1..])
  }

  /** Additions minus removals of `key` in a run. */
  function Net(ops: seq<FarmOp>, key: string): int
  {
    if ops == [] then 0
    else (if ops[0] == AddWs(key) then 1 else if ops[0] == RemoveWs(key) then -1 else 0) + Net(ops[1..], key)
  }

  /** After a run, a key's count is at least its old count plus the net
      additions (a removal that raised did not count down), and exactly that
      once the key is tracked. */
  lemma {:induction false} RunCount(socks: map<string, int>, ops: seq<FarmOp>, key: string)
    ensures Count(Run(socks, ops), key) >= Count(socks, key) + Net(ops, key)
    ensures key in socks ==> Count(Run(socks, ops), key) == Count(socks, key) + Net(ops, key)
    decreases |ops|
  {
    if ops != [] {
      var next := Apply(socks, ops[0]);
      RunCount(next, ops[1..], key);
      assert key in socks ==> key in next;
    }
  }

  /** A run extended by one operation is that operation applied last. */
  lemma {:induction false} RunSnoc(socks: map<string, int>, ops: seq<FarmOp>, op: FarmOp)
    ensures Run(socks, ops + [op]) == Apply(Run(socks, ops), op)
    decreases |ops|
  {
    if ops == [] {
      assert ops + [op] == [op];
    } else {
      assert (ops + [op])[1..] == ops[1..] + [op];
      RunSnoc(Apply(socks, ops[0]), ops[1..], op);
    }
  }

  /** Running two runs one after the other is running their concatenation. */
  lemma {:induction false} RunAppend(socks: map<string, int>, a: seq<FarmOp>, b: seq<FarmOp>)
    ensures Run(socks, a + b) == Run(Run(socks, a), b)
    decreases |a|
  {
    if a == [] {
      assert a + b == b;
    } else {
      assert (a + b)[0] == a[0];
      assert (a + b)[1..] == a[1..] + b;
      RunAppend(Apply(socks, a[0]), a[1..], b);
    }
  }

  lemma {:induction false} NetAppend(a: seq<FarmOp>, b: seq<FarmOp>, key: string)
    ensures Net(a + b, key) == Net(a, key) + Net(b, key)
  {
    if a == [] {
      assert a + b == b;
    } else {
      assert (a + b)[0] == a[0];
      assert (a + b)[1..] == a[1..] + b;
      NetAppend(a[1..], b, key);
    }
  }

  /** A run of additions raises every count by exactly its net additions,
      tracked key or not. */
  lemma {:induction false} AdditionsCount(socks: map<string, int>, ops: seq<FarmOp>, key: string)
    requires forall i :: 0 <= i < |ops| ==> ops[i].AddWs?
    ensures Count(Run(socks, ops), key) == Count(socks, key) + Net(ops, key)
    decreases |ops|
  {
    if ops != [] {
      AdditionsCount(Apply(socks, ops[0]), ops[1..], key);
    }
  }

  /** An addition the gate admitted keeps the URI's count within the maximum. */
  lemma AdmittedStaysWithinMax(socks: map<string, int>, maxSockets: int, uri: Url)
    requires SafeToAdd(socks, maxSockets, uri)
    ensures Count(AddedTo(socks, uri.ToString()), uri.ToString()) <= maxSockets
  {
  }

  /** Once the net additions for a URI reach the maximum, the gate refuses it. */
  lemma GateClosesAfterAdditions(socks: map<string, int>, maxSockets: int, ops: seq<FarmOp>, uri: Url)
    requires Count(socks, uri.ToString()) >= 0
    requires Net(ops, uri.ToString()) >= maxSockets
    ensures !SafeToAdd(Run(socks, ops), maxSockets, uri)
  {
    RunCount(socks, ops, uri.ToString());
  }

  /** The gate refuses every deregistration URI, whatever the counts. */
  lemma DeregistrationNeverSafe(socks: map<string, int>, maxSockets: int, uri: Url)
    requires StartsWith(uri.path, "/deregister")
    ensures !SafeToAdd(socks, maxSockets, uri)
  {
  }
}
