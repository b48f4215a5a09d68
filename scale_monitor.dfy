/**
 * `ScaleMonitor`: the registry of scales, the map of live connections and the
 * per-scale connect / probe / reconnect cycle.
 *
 * Sockets are abstract handles. Each `connect()` attempt creates one, and the
 * socket's handlers ('connect', 'data', 'error', 'close') and the reconnect
 * timer become methods that the environment calls one at a time, as Node's
 * event loop does. Each handler's `requires` says in which socket state Node
 * can deliver that event. Emitted 'weightReceived' events and the bytes
 * written to sockets are kept in ghost logs.
 */
module Monitor {
  import opened Wrappers
  import opened JsNumbers
  import opened WeightParser

  type ScaleId = string
  type SocketId = nat
  type TimerId = nat
  /** The moment a reading is taken (`new Date()`): any integer stands for it, and nothing depends on its value. */
  type Instant = int

  /** Delay between a socket's 'close' and the next connect attempt, in milliseconds. */
  const ReconnectDelay: nat := 5000
  const ProbeSize: nat := 256
  /** The request a terminal answers: 256 zero bytes (`Buffer.alloc(256)`). */
  const Probe: seq<Byte> := seq(ProbeSize, _ => 0)

  datatype ScaleConfig = ScaleConfig(ip: string, port: Number, scaleId: ScaleId)

  /** Where a socket is in its life; `Destroyed` means `destroy()` was called and the 'close' event is still to come. */
  datatype SocketState = Connecting | Connected | Destroyed | Closed

  /** A socket and the configuration its handlers were created with. */
  datatype Socket = Socket(config: ScaleConfig, state: SocketState)

  /** A pending `setTimeout(..., reconnectDelay)` scheduled by a 'close' handler. */
  datatype ReconnectTimer = ReconnectTimer(config: ScaleConfig, delay: nat)

  /** The payload of a 'weightReceived' event. */
  datatype WeightEvent = WeightEvent(scaleId: ScaleId, weight: int, timestamp: Instant)

  /** One `client.write(bytes)`. */
  datatype Write = Write(socket: SocketId, bytes: seq<Byte>)

  /** `client.connect(port, ip)` returns only for an integer port in [0, 65535]; any other port makes it throw at once. */
  predicate LegalPort(port: Number)
  {
    port.Num? && 0 <= port.value <= 65535
  }

  /** The sockets after `destroy()` is called on each socket in `ids`; destroying twice is destroying once. */
  function DestroyAll(sockets: map<SocketId, Socket>, ids: set<SocketId>): (r: map<SocketId, Socket>)
    ensures r.Keys == sockets.Keys
    ensures forall s :: s in r ==> r[s].config == sockets[s].config
    ensures forall s :: s in r ==> (r[s].state == if s in ids then Destroyed else sockets[s].state)
  {
    map s | s in sockets :: if s in ids then sockets[s].(state := Destroyed) else sockets[s]
  }

  /** Destroying one more socket extends `DestroyAll` by that socket. */
  lemma DestroyStep(sockets: map<SocketId, Socket>, ids: set<SocketId>, s: SocketId)
    requires s in sockets
    ensures DestroyAll(sockets, ids)[s := DestroyAll(sockets, ids)[s].(state := Destroyed)] == DestroyAll(sockets, ids + {s})
  {
  }

  /** The loop of `stopMonitoring()`: `destroy()` on the socket of every entry of `connections`. */
  method DestroyEach(sockets: map<SocketId, Socket>, connections: map<ScaleId, SocketId>) returns (r: map<SocketId, Socket>)
    requires connections.Values <= sockets.Keys
    ensures r == DestroyAll(sockets, connections.Values)
  {
    var todo, socks := connections.Keys, sockets;
    ghost var gone: set<SocketId> := {};
    while todo != {}
      invariant todo <= connections.Keys
      invariant gone == set k | k in connections.Keys - todo :: connections[k]
      invariant socks == DestroyAll(sockets, gone)
      decreases |todo|
    {
      var k :| k in todo;
      DestroyStep(sockets, gone, connections[k]);
      socks := socks[connections[k] := socks[connections[k]].(state := Destroyed)];
      assert connections.Keys - (todo - {k}) == (connections.Keys - todo) + {k};
      gone := gone + {connections[k]};
      todo := todo - {k};
    }
    assert gone == connections.Values;
    r := socks;
  }

  /**
   * `order` lists registered scale ids, each once: the keys of `this.scales`
   * in the order a `Map` iterates them.
   */
  ghost predicate Enumerates(order: seq<ScaleId>, scales: map<ScaleId, ScaleConfig>)
  {
    && (forall k :: k in scales <==> k in order)
    && (forall i, j :: 0 <= i < j < |order| ==> order[i] != order[j])
  }

  /**
   * `after` is `before` plus the sockets `from` to `from + n - 1`, the one
   * numbered `from + j` connecting for the scale `order[j]` with its current
   * configuration and a port `client.connect` accepted.
   */
  ghost predicate Started(before: map<SocketId, Socket>, after: map<SocketId, Socket>, from: nat,
                          order: seq<ScaleId>, n: nat, scales: map<ScaleId, ScaleConfig>)
  {
    && n <= |order|
    && (forall s :: s in after <==> s in before || from <= s < from + n)
    && (forall s :: s in before ==> after[s] == before[s])
    && (forall j :: 0 <= j < n ==>
          && order[j] in scales
          && after[from + j] == Socket(scales[order[j]], Connecting)
          && LegalPort(scales[order[j]].port))
  }

  /** Every socket `Started` adds has an id below `from + n` and a port `client.connect` accepted. */
  lemma StartedSockets(before: map<SocketId, Socket>, after: map<SocketId, Socket>, from: nat,
                       order: seq<ScaleId>, n: nat, scales: map<ScaleId, ScaleConfig>)
    requires Started(before, after, from, order, n, scales)
    requires forall s :: s in before ==> s < from && LegalPort(before[s].config.port)
    ensures forall s :: s in after ==> s < from + n && LegalPort(after[s].config.port)
  {
    forall s | s in after
      ensures s < from + n && LegalPort(after[s].config.port)
    {
      if s >= from {
        assert after[s] == Socket(scales[order[s - from]], Connecting);
      }
    }
  }

  /**
   * What the loop of `startMonitoring()` leaves behind, from the sockets
   * `before` and the next socket id `from`: the scales in iteration order
   * started one by one up to the first refused port, which throws (`threw`),
   * or all of them when no port is refused.
   */
  ghost predicate StartOutcome(scales: map<ScaleId, ScaleConfig>, order: seq<ScaleId>, before: map<SocketId, Socket>,
                               from: nat, threw: bool, after: map<SocketId, Socket>, next: nat)
  {
    && (forall j :: 0 <= j < |order| ==> order[j] in scales)
    && from <= next
    && Started(before, after, from, order, next - from, scales)
    && (threw <==> exists j :: 0 <= j < |order| && !LegalPort(scales[order[j]].port))
    && (threw ==> next - from < |order| && !LegalPort(scales[order[next - from]].port))
    && (!threw ==> next == from + |order|)
  }

  /**
   * When no port is refused, every registered scale gets exactly one connect
   * attempt: some new socket is for it, with its current configuration, and no
   * two new sockets are for the same scale.
   */
  lemma OneAttemptPerScale(scales: map<ScaleId, ScaleConfig>, order: seq<ScaleId>, before: map<SocketId, Socket>,
                           from: nat, after: map<SocketId, Socket>, next: nat)
    requires forall k :: k in scales ==> scales[k].scaleId == k
    requires Enumerates(order, scales)
    requires StartOutcome(scales, order, before, from, false, after, next)
    ensures forall k :: k in scales ==> exists s :: from <= s < next && s in after && after[s] == Socket(scales[k], Connecting)
    ensures forall s, t :: from <= s < t < next ==> after[s].config.scaleId != after[t].config.scaleId
  {
    forall k | k in scales
      ensures exists s :: from <= s < next && s in after && after[s] == Socket(scales[k], Connecting)
    {
      var i :| 0 <= i < |order| && order[i] == k;
      assert after[from + i] == Socket(scales[order[i]], Connecting);
    }
    forall s, t | from <= s < t < next
      ensures after[s].config.scaleId != after[t].config.scaleId
    {
      assert after[s] == Socket(scales[order[s - from]], Connecting);
      assert after[t] == Socket(scales[order[t - from]], Connecting);
    }
  }

  /** With a single registered scale and no earlier socket, the loop throws exactly when that scale's port is refused, and otherwise leaves the one socket 0. */
  lemma StartOne(config: ScaleConfig, threw: bool, after: map<SocketId, Socket>, next: nat)
    requires StartOutcome(map[config.scaleId := config], [config.scaleId], map[], 0, threw, after, next)
    ensures threw <==> !LegalPort(config.port)
    ensures after == if threw then map[] else map[0 := Socket(config, Connecting)]
  {
    var order := [config.scaleId];
    assert order[0] == config.scaleId;
    if !threw {
      assert after[0] == Socket(config, Connecting);
      assert after.Keys == {0};
    }
  }

  /**
   * The loop of `startMonitoring()`: a connect attempt, as `ScaleMonitor.Connect`
   * makes it with monitoring on, for each scale in iteration order, new sockets
   * numbered from `from`. The first refused port throws out of the loop and
   * the scales after it get none.
   */
  method ConnectEach(scales: map<ScaleId, ScaleConfig>, order: seq<ScaleId>, before: map<SocketId, Socket>, from: SocketId)
    returns (threw: bool, after: map<SocketId, Socket>, next: SocketId)
    requires forall j :: 0 <= j < |order| ==> order[j] in scales
    requires forall s :: s in before ==> s < from
    ensures StartOutcome(scales, order, before, from, threw, after, next)
  {
    after, next := before, from;
    for i := 0 to |order|
      invariant next == from + i
      invariant Started(before, after, from, order, i, scales)
    {
      if !LegalPort(scales[order[i]].port) {
        return true, after, next;
      }
      after, next := after[next := Socket(scales[order[i]], Connecting)], next + 1;
    }
    threw := false;
  }

  /**
   * The invariant of a `ScaleMonitor`'s state: every scale is stored under its
   * own id and listed once in `order`; socket and timer ids were handed out
   * below the counters, and every port that reached a socket or a timer was
   * one `client.connect` accepted; and each `connections` entry names a
   * socket of that scale whose 'connect' has fired.
   */
  ghost predicate Consistent(scales: map<ScaleId, ScaleConfig>, order: seq<ScaleId>, connections: map<ScaleId, SocketId>,
                             sockets: map<SocketId, Socket>, timers: map<TimerId, ReconnectTimer>, nextSocket: nat, nextTimer: nat)
  {
    && (forall k :: k in scales ==> scales[k].scaleId == k)
    && Enumerates(order, scales)
    && (forall s :: s in sockets ==> s < nextSocket && LegalPort(sockets[s].config.port))
    && (forall t :: t in timers ==> t < nextTimer && timers[t].delay == ReconnectDelay && LegalPort(timers[t].config.port))
    && (forall k :: k in connections ==>
          && connections[k] in sockets
          && sockets[connections[k]].config.scaleId == k
          && (sockets[connections[k]].state.Connected? || sockets[connections[k]].state.Destroyed?))
  }

  /** The loop of `startMonitoring()` keeps the invariant: the sockets it adds are new, with accepted ports, and no old socket changes. */
  lemma StartKeepsConsistent(scales: map<ScaleId, ScaleConfig>, order: seq<ScaleId>, connections: map<ScaleId, SocketId>,
                             timers: map<TimerId, ReconnectTimer>, nextTimer: nat,
                             before: map<SocketId, Socket>, from: nat, threw: bool, after: map<SocketId, Socket>, next: nat)
    requires Consistent(scales, order, connections, before, timers, from, nextTimer)
    requires StartOutcome(scales, order, before, from, threw, after, next)
    ensures Consistent(scales, order, connections, after, timers, next, nextTimer)
  {
    StartedSockets(before, after, from, order, next - from, scales);
  }

  class ScaleMonitor {
    /** `this.scales`: scale id to configuration. */
    var scales: map<ScaleId, ScaleConfig>
    /** The keys of `scales` in the order they were first set, which is the order a `Map` iterates them. */
    var order: seq<ScaleId>
    /** `this.connections`: scale id to the socket whose 'connect' registered it last. */
    var connections: map<ScaleId, SocketId>
    var isRunning: bool
    /** Every socket created so far, with the state Node keeps for it. */
    var sockets: map<SocketId, Socket>
    /** The reconnect timers that have not fired yet. */
    var timers: map<TimerId, ReconnectTimer>
    var nextSocket: SocketId
    var nextTimer: TimerId
    /** The 'weightReceived' events emitted, oldest first. */
    ghost var events: seq<WeightEvent>
    /** Everything written to sockets, oldest first. */
    ghost var writes: seq<Write>

    ghost predicate Valid()
      reads this`scales, this`order, this`connections, this`sockets, this`timers, this`nextSocket, this`nextTimer
    {
      Consistent(scales, order, connections, sockets, timers, nextSocket, nextTimer)
    }

    constructor()
      ensures Valid()
      ensures scales == map[] && order == [] && connections == map[] && !isRunning
      ensures sockets == map[] && timers == map[] && nextSocket == 0 && nextTimer == 0
      ensures events == [] && writes == []
    {
      scales, order, connections, isRunning := map[], [], map[], false;
      sockets, timers, nextSocket, nextTimer := map[], map[], 0, 0;
      events, writes := [], [];
    }

    /**
     * `addScale(ip, port, scaleId)`: registers the scale or overwrites its
     * entry, which keeps its place in iteration order; sockets already made
     * keep the configuration they were made with.
     */
    method AddScale(ip: string, port: Number, scaleId: ScaleId)
      requires Valid()
      modifies this`scales, this`order
      ensures Valid()
      ensures scales == old(scales)[scaleId := ScaleConfig(ip, port, scaleId)]
      ensures order == if scaleId in old(scales) then old(order) else old(order) + [scaleId]
    {
      if scaleId !in scales {
        order := order + [scaleId];
      }
      scales := scales[scaleId := ScaleConfig(ip, port, scaleId)];
    }

    /**
     * The `connect` closure of `monitorScale(config)`, as every reconnect timer
     * runs it (the first run, from `startMonitoring`, is `ConnectEach`):
     * nothing once monitoring is off; otherwise a new socket that starts
     * connecting, or a throw when the port is refused.
     */
    method Connect(config: ScaleConfig) returns (threw: bool)
      requires Valid()
      modifies this`sockets, this`nextSocket
      ensures Valid()
      ensures threw <==> isRunning && !LegalPort(config.port)
      ensures if isRunning && LegalPort(config.port)
              then nextSocket == old(nextSocket) + 1 && sockets == old(sockets)[old(nextSocket) := Socket(config, Connecting)]
              else nextSocket == old(nextSocket) && sockets == old(sockets)
    {
      threw := false;
      if !isRunning {
        return;
      }
      if !LegalPort(config.port) {
        threw := true;
        return;
      }
      sockets := sockets[nextSocket := Socket(config, Connecting)];
      nextSocket := nextSocket + 1;
    }

    /**
     * `startMonitoring()`: nothing while running; otherwise the flag is set and
     * the registered scales get one connect attempt each, in iteration order,
     * made as `Connect` makes it. A port that `client.connect` refuses throws
     * out of the loop, and the scales after it get none.
     */
    method StartMonitoring() returns (threw: bool)
      requires Valid()
      modifies this`isRunning, this`sockets, this`nextSocket
      ensures Valid() && isRunning
      ensures old(isRunning) ==> !threw && sockets == old(sockets) && nextSocket == old(nextSocket)
      ensures !old(isRunning) ==> StartOutcome(scales, order, old(sockets), old(nextSocket), threw, sockets, nextSocket)
    {
      threw := false;
      if !isRunning {
        isRunning := true;
        var before, from := sockets, nextSocket;
        var after, next;
        threw, after, next := ConnectEach(scales, order, before, from);
        StartKeepsConsistent(scales, order, connections, timers, nextTimer, before, from, threw, after, next);
        sockets, nextSocket := after, next;
      }
    }

    /**
     * `stopMonitoring()`: clears the flag, destroys exactly the sockets in
     * `connections` and empties it. Pending timers are not cancelled: they find
     * the flag off when they fire. A socket still connecting is not in
     * `connections` and is left alone.
     */
    method StopMonitoring()
      requires Valid()
      modifies this`isRunning, this`sockets, this`connections
      ensures Valid()
      ensures !isRunning && connections == map[]
      ensures sockets == DestroyAll(old(sockets), old(connections).Values)
    {
      isRunning := false;
      sockets := DestroyEach(sockets, connections);
      connections := map[];
    }

    /** The 'connect' handler: registers the socket under its scale id, replacing any other, and writes a probe; it does not look at `isRunning`. */
    method OnConnect(s: SocketId)
      requires Valid() && s in sockets && sockets[s].state == Connecting
      modifies this`connections, this`sockets, this`writes
      ensures Valid()
      ensures sockets == old(sockets)[s := old(sockets)[s].(state := Connected)]
      ensures connections == old(connections)[old(sockets)[s].config.scaleId := s]
      ensures writes == old(writes) + [Write(s, Probe)]
    {
      connections := connections[sockets[s].config.scaleId := s];
      sockets := sockets[s := sockets[s].(state := Connected)];
      writes := writes + [Write(s, Probe)];
    }

    /**
     * The 'data' handler: the chunk is decoded as ASCII and parsed; a weight
     * above 0 is emitted as 'weightReceived' and answered with the next probe,
     * and anything else (0, a negative number, no reading) is dropped without
     * a probe. It does not look at `isRunning`, and it changes nothing `Valid`
     * reads.
     */
    method OnData(s: SocketId, data: seq<Byte>, now: Instant) returns (event: Option<WeightEvent>)
      requires s in sockets && sockets[s].state == Connected
      modifies this`events, this`writes
      ensures event.Some? <==> ParseWeight(AsciiDecode(data)) > 0
      ensures event.Some? ==>
                && event.value == WeightEvent(sockets[s].config.scaleId, ParseWeight(AsciiDecode(data)), now)
                && events == old(events) + [event.value]
                && writes == old(writes) + [Write(s, Probe)]
      ensures event.None? ==> events == old(events) && writes == old(writes)
    {
      var weight := ParseWeight(AsciiDecode(data));
      event := None;
      if weight > 0 {
        var e := WeightEvent(sockets[s].config.scaleId, weight, now);
        events := events + [e];
        writes := writes + [Write(s, Probe)];
        event := Some(e);
      }
    }

    /** The 'error' handler: destroys the socket, whose 'close' follows; nothing is emitted and `connections` is untouched. */
    method OnError(s: SocketId)
      requires Valid() && s in sockets && (sockets[s].state == Connecting || sockets[s].state == Connected)
      modifies this`sockets
      ensures Valid()
      ensures sockets == old(sockets)[s := old(sockets)[s].(state := Destroyed)]
    {
      sockets := sockets[s := sockets[s].(state := Destroyed)];
    }

    /**
     * The 'close' handler: deletes the `connections` entry of the socket's scale
     * id, whichever socket that entry names, and always schedules a reconnect
     * after 5000 ms, whether or not monitoring is still on.
     */
    method OnClose(s: SocketId) returns (t: TimerId)
      requires Valid() && s in sockets && (sockets[s].state == Connected || sockets[s].state == Destroyed)
      modifies this`connections, this`sockets, this`timers, this`nextTimer
      ensures Valid()
      ensures sockets == old(sockets)[s := old(sockets)[s].(state := Closed)]
      ensures connections == old(connections) - {old(sockets)[s].config.scaleId}
      ensures t == old(nextTimer) && t !in old(timers) && nextTimer == old(nextTimer) + 1
      ensures timers == old(timers)[t := ReconnectTimer(old(sockets)[s].config, ReconnectDelay)]
    {
      var config := sockets[s].config;
      connections := connections - {config.scaleId};
      sockets := sockets[s := sockets[s].(state := Closed)];
      t := nextTimer;
      timers := timers[t := ReconnectTimer(config, ReconnectDelay)];
      nextTimer := nextTimer + 1;
    }

    /** A reconnect timer fires: it is gone, and a new connect attempt is made if and only if monitoring is on. */
    method OnTimerFire(t: TimerId)
      requires Valid() && t in timers
      modifies this`timers, this`sockets, this`nextSocket
      ensures Valid()
      ensures timers == old(timers) - {t}
      ensures isRunning ==> nextSocket == old(nextSocket) + 1 && sockets == old(sockets)[old(nextSocket) := Socket(old(timers)[t].config, Connecting)]
      ensures !isRunning ==> nextSocket == old(nextSocket) && sockets == old(sockets)
    {
      var config := timers[t].config;
      timers := timers - {t};
      var threw := Connect(config);
    }
  }
}
