/**
 * `ScaleAPI`: the REST front end. The route handlers are methods of `ScaleApi`
 * over the in-memory `scaleConfigs` dictionary, each returning the status and
 * the payload it answers with. `getWeight` is the class `WeightRequest`: a
 * one-shot `ScaleMonitor` for one scale, the `isResolved` flag of its
 * listeners, the 5000 ms timeout and the promise they settle.
 */
module Api {
  import opened Wrappers
  import opened JsNumbers
  import opened WeightParser
  import opened Monitor

  /** The object `getWeight` resolves with. */
  datatype Reading = Reading(name: string, weight: int, timestamp: Instant, unit: string)

  /** Why a `getWeight` promise was rejected. */
  datatype Failure =
    | TimedOut
      /** `client.connect` refused the configured port (Node's ERR_SOCKET_BAD_PORT). */
    | BadPort

  /** The state of a promise. */
  datatype Settlement = Pending | Fulfilled(reading: Reading) | Rejected(failure: Failure)

  /** `resolve` or `reject` on a promise: only the first call that settles it takes effect. */
  function Settle(p: Settlement, outcome: Settlement): (r: Settlement)
    ensures p.Pending? ==> r == outcome
    ensures !p.Pending? ==> r == p
  {
    if p.Pending? then outcome else p
  }

  /** Once a promise is settled, later calls of `resolve`/`reject` leave it as it is. */
  lemma SettledStays(p: Settlement, first: Settlement, later: Settlement)
    requires !first.Pending?
    ensures !Settle(p, first).Pending?
    ensures Settle(Settle(p, first), later) == Settle(p, first)
  {
  }

  /** `error.message` of each failure. */
  function FailureMessage(f: Failure): (m: string)
    ensures m != ""
  {
    match f
    case TimedOut => "Operation timed out"
    case BadPort => "Port should be >= 0 and < 65536."
  }

  /**
   * The call `getWeight(ip, port, name)` and the promise it returns. The
   * monitor's socket events reach it through the `Deliver` methods, which run
   * the monitor's handler and then, for an emitted reading, the
   * 'weightReceived' listener.
   */
  class WeightRequest {
    const monitor: ScaleMonitor
    /** The listeners' `isResolved` flag. */
    var isResolved: bool
    /** The `setTimeout` of 5000 ms is set and has neither fired nor been cleared. */
    var timeoutArmed: bool
    /** The promise `getWeight` returned. */
    var promise: Settlement
    /** How many listener calls got past the `isResolved` test. */
    ghost var effective: nat

    ghost predicate Valid()
      reads this, monitor
    {
      && monitor.Valid()
      && effective == (if isResolved then 1 else 0)
      && (isResolved ==> !timeoutArmed && !promise.Pending? && !monitor.isRunning)
      && (promise.Pending? ==> timeoutArmed)
    }

    /**
     * `getWeight(ip, port, name)`: arms the timeout, registers the one scale and
     * starts the monitor. When `client.connect` refuses the port, the catch
     * clears the timeout and rejects at once; the monitor is left running with
     * no socket.
     */
    constructor(ip: string, port: Number, name: string)
      ensures Valid() && fresh(monitor)
      ensures monitor.scales == map[name := ScaleConfig(ip, port, name)] && monitor.order == [name]
      ensures monitor.events == [] && monitor.writes == [] && monitor.nextTimer == 0
      ensures monitor.isRunning && monitor.connections == map[] && monitor.timers == map[]
      ensures !isResolved && effective == 0
      ensures LegalPort(port) ==> timeoutArmed && promise == Pending
                                  && monitor.sockets == map[0 := Socket(ScaleConfig(ip, port, name), Connecting)]
      ensures !LegalPort(port) ==> !timeoutArmed && promise == Rejected(BadPort) && monitor.sockets == map[]
    {
      var m := new ScaleMonitor();
      m.AddScale(ip, port, name);
      assert m.order == [name];
      var threw := m.StartMonitoring();
      StartOne(ScaleConfig(ip, port, name), threw, m.sockets, m.nextSocket);
      monitor := m;
      isResolved := false;
      effective := 0;
      if threw {
        timeoutArmed := false;
        promise := Rejected(BadPort);
      } else {
        timeoutArmed := true;
        promise := Pending;
      }
    }

    /**
     * The 'weightReceived' listener: the first call sets `isResolved`, clears
     * the timeout, stops the monitor and resolves with the reading; every later
     * call does nothing.
     */
    method WeightReceived(e: WeightEvent)
      requires Valid()
      modifies this, monitor`isRunning, monitor`sockets, monitor`connections
      ensures Valid()
      ensures isResolved && !timeoutArmed && !monitor.isRunning
      ensures old(isResolved) ==> promise == old(promise) && effective == old(effective)
                                  && monitor.sockets == old(monitor.sockets) && monitor.connections == old(monitor.connections)
      ensures !old(isResolved) ==>
                && effective == 1
                && promise == Settle(old(promise), Fulfilled(Reading(e.scaleId, e.weight, e.timestamp, "kg")))
                && monitor.connections == map[]
                && monitor.sockets == DestroyAll(old(monitor.sockets), old(monitor.connections).Values)
    {
      if !isResolved {
        isResolved := true;
        effective := effective + 1;
        timeoutArmed := false;
        monitor.StopMonitoring();
        promise := Settle(promise, Fulfilled(Reading(e.scaleId, e.weight, e.timestamp, "kg")));
      }
    }

    /**
     * The 'error' listener, the same one-shot shape ending in a rejection.
     * `ScaleMonitor` never emits 'error', so no socket event leads here.
     */
    method ErrorReceived(f: Failure)
      requires Valid()
      modifies this, monitor`isRunning, monitor`sockets, monitor`connections
      ensures Valid()
      ensures isResolved && !timeoutArmed && !monitor.isRunning
      ensures old(isResolved) ==> promise == old(promise) && effective == old(effective)
                                  && monitor.sockets == old(monitor.sockets) && monitor.connections == old(monitor.connections)
      ensures !old(isResolved) ==>
                && effective == 1
                && promise == Settle(old(promise), Rejected(f))
                && monitor.connections == map[]
                && monitor.sockets == DestroyAll(old(monitor.sockets), old(monitor.connections).Values)
    {
      if !isResolved {
        isResolved := true;
        effective := effective + 1;
        timeoutArmed := false;
        monitor.StopMonitoring();
        promise := Settle(promise, Rejected(f));
      }
    }

    /**
     * The timeout fires: the promise is rejected if still pending, but
     * `isResolved` stays as it is and the monitor keeps running, so a later
     * reading still stops it.
     */
    method FireTimeout()
      requires Valid() && timeoutArmed
      modifies this`timeoutArmed, this`promise
      ensures Valid()
      ensures !timeoutArmed && promise == Settle(old(promise), Rejected(TimedOut))
      ensures !promise.Pending?
    {
      timeoutArmed := false;
      promise := Settle(promise, Rejected(TimedOut));
    }

    /** A 'data' event on one of the monitor's sockets; a positive reading reaches `WeightReceived`. */
    method DeliverData(s: SocketId, data: seq<Byte>, now: Instant) returns (event: Option<WeightEvent>)
      requires Valid() && s in monitor.sockets && monitor.sockets[s].state == Connected
      modifies this, monitor`events, monitor`writes, monitor`isRunning, monitor`sockets, monitor`connections
      ensures Valid()
      ensures event.Some? <==> ParseWeight(AsciiDecode(data)) > 0
      ensures event.Some? ==>
                && event.value == WeightEvent(old(monitor.sockets)[s].config.scaleId, ParseWeight(AsciiDecode(data)), now)
                && monitor.events == old(monitor.events) + [event.value]
                && monitor.writes == old(monitor.writes) + [Write(s, Probe)]
                && isResolved && !monitor.isRunning
                && promise == (if old(isResolved) then old(promise)
                               else Settle(old(promise), Fulfilled(Reading(event.value.scaleId, event.value.weight, now, "kg"))))
      ensures event.Some? && !old(isResolved) ==>
                && monitor.connections == map[]
                && monitor.sockets == DestroyAll(old(monitor.sockets), old(monitor.connections).Values)
      ensures event.Some? && old(isResolved) ==>
                monitor.connections == old(monitor.connections) && monitor.sockets == old(monitor.sockets)
      ensures event.None? ==>
                && isResolved == old(isResolved) && promise == old(promise) && timeoutArmed == old(timeoutArmed)
                && monitor.isRunning == old(monitor.isRunning) && monitor.sockets == old(monitor.sockets)
                && monitor.connections == old(monitor.connections)
                && monitor.events == old(monitor.events) && monitor.writes == old(monitor.writes)
    {
      event := monitor.OnData(s, data, now);
      if event.Some? {
        WeightReceived(event.value);
      }
    }

    /** A 'connect' event on one of the monitor's sockets. */
    method DeliverConnect(s: SocketId)
      requires Valid() && s in monitor.sockets && monitor.sockets[s].state == Connecting
      modifies monitor`connections, monitor`sockets, monitor`writes
      ensures Valid()
      ensures monitor.sockets == old(monitor.sockets)[s := old(monitor.sockets)[s].(state := Connected)]
      ensures monitor.connections == old(monitor.connections)[old(monitor.sockets)[s].config.scaleId := s]
      ensures monitor.writes == old(monitor.writes) + [Write(s, Probe)]
    {
      monitor.OnConnect(s);
    }

    /** An 'error' event on one of the monitor's sockets: the socket is destroyed and the promise is not touched. */
    method DeliverError(s: SocketId)
      requires Valid() && s in monitor.sockets && (monitor.sockets[s].state == Connecting || monitor.sockets[s].state == Connected)
      modifies monitor`sockets
      ensures Valid()
      ensures monitor.sockets == old(monitor.sockets)[s := old(monitor.sockets)[s].(state := Destroyed)]
    {
      monitor.OnError(s);
    }

    /** A 'close' event on one of the monitor's sockets: a reconnect timer is scheduled even after the promise settled. */
    method DeliverClose(s: SocketId) returns (t: TimerId)
      requires Valid() && s in monitor.sockets && (monitor.sockets[s].state == Connected || monitor.sockets[s].state == Destroyed)
      modifies monitor`connections, monitor`sockets, monitor`timers, monitor`nextTimer
      ensures Valid()
      ensures monitor.sockets == old(monitor.sockets)[s := old(monitor.sockets)[s].(state := Closed)]
      ensures monitor.connections == old(monitor.connections) - {old(monitor.sockets)[s].config.scaleId}
      ensures t == old(monitor.nextTimer) && t !in old(monitor.timers) && monitor.nextTimer == old(monitor.nextTimer) + 1
      ensures monitor.timers == old(monitor.timers)[t := ReconnectTimer(old(monitor.sockets)[s].config, ReconnectDelay)]
    {
      t := monitor.OnClose(s);
    }

    /** A reconnect timer fires: once the listener has stopped the monitor, no new socket is made. */
    method DeliverTimer(t: TimerId)
      requires Valid() && t in monitor.timers
      modifies monitor`timers, monitor`sockets, monitor`nextSocket
      ensures Valid()
      ensures isResolved ==> monitor.sockets == old(monitor.sockets)
    {
      monitor.OnTimerFire(t);
    }
  }

  /** One entry of `scaleConfigs`. */
  datatype StoredConfig = StoredConfig(ip: string, port: Number, description: string, updatedAt: Instant)

  /** The `port` field of a JSON body: a string or a number. */
  datatype PortField = PortText(text: string) | PortNumber(n: int)

  /** The fields of a POST body that the handler reads; `None` is an absent field. */
  datatype PostBody = PostBody(name: Option<string>, ip: Option<string>, port: Option<PortField>, description: Option<string>)

  /** The JSON payloads the routes answer with. */
  datatype Payload =
    | Message(text: string)
    | ErrorMessage(error: string)
    | Saved(message: string, name: string, config: StoredConfig)
    | Configs(configs: map<string, StoredConfig>)
    | Weight(reading: Reading)

  datatype Response = Response(status: nat, payload: Payload)

  /** The contents of `scale-config.json` as `loadConfig` finds it. */
  datatype ConfigFile = Missing | Unreadable | Parsed(configs: map<string, StoredConfig>)

  const MissingFields := "Missing required fields: name, ip, and port are required"

  /** A string field is truthy when present and not empty. */
  predicate Truthy(field: Option<string>)
  {
    field.Some? && field.value != ""
  }

  /** A port field is truthy when it is a non-empty string or a number other than 0. */
  predicate PortTruthy(field: Option<PortField>)
  {
    match field
    case None => false
    case Some(PortText(t)) => t != ""
    case Some(PortNumber(n)) => n != 0
  }

  /** `parseInt(port)`: a string port is read by `parseInt`; a number is first turned into its decimal text, which reads back as the number. */
  function PortValue(port: PortField): (r: Number)
    ensures port.PortNumber? ==> r == Num(port.n)
  {
    match port
    case PortText(t) => ParseInt(t)
    case PortNumber(n) => ParseIntOfIntToString(n); ParseInt(IntToString(n))
  }

  /** `description || ''`. */
  function DescriptionOrEmpty(description: Option<string>): (d: string)
    ensures Truthy(description) ==> d == description.value
    ensures !Truthy(description) ==> d == ""
  {
    match description
    case None => ""
    case Some(text) => text
  }

  /** The answer to a settled `getWeight` promise: 200 with the reading, or 500 with the error's message; nothing while it is pending. */
  function Completion(p: Settlement): (r: Option<Response>)
    ensures r.None? <==> p.Pending?
    ensures p.Fulfilled? ==> r == Some(Response(200, Weight(p.reading)))
    ensures p.Rejected? ==> r.Some? && r.value.status == 500 && r.value.payload.ErrorMessage? && r.value.payload.error != ""
  {
    match p
    case Pending => None
    case Fulfilled(reading) => Some(Response(200, Weight(reading)))
    case Rejected(f) => Some(Response(500, ErrorMessage(FailureMessage(f))))
  }

  /** Object-prototype names that a plain `{}` answers for when indexed. */
  const InheritedNames: set<string> := {
    "constructor", "hasOwnProperty", "isPrototypeOf", "propertyIsEnumerable", "toLocaleString",
    "toString", "valueOf", "__proto__", "__defineGetter__", "__defineSetter__",
    "__lookupGetter__", "__lookupSetter__"
  }

  /** `!!this.scaleConfigs[name]` as written: true for an own entry and also for every inherited name. */
  predicate FoundAsWritten(configs: map<string, StoredConfig>, name: string)
  {
    name in configs || name in InheritedNames
  }

  /**
   * The DELETE handler as written: the truthiness test passes for an inherited
   * name, `delete` then removes nothing, and `saveConfig` still writes the
   * dictionary. The result is the new dictionary, the answer and the
   * dictionaries saved by the call.
   */
  function DeleteAsWritten(configs: map<string, StoredConfig>, name: string)
    : (r: (map<string, StoredConfig>, Response, seq<map<string, StoredConfig>>))
    ensures r.0 == configs - {name}
    ensures r.1.status == (if FoundAsWritten(configs, name) then 200 else 404)
    ensures r.2 == (if FoundAsWritten(configs, name) then [configs - {name}] else [])
  {
    if FoundAsWritten(configs, name)
    then (configs - {name}, Response(200, Message("Scale \"" + name + "\" configuration deleted")), [configs - {name}])
    else (configs, Response(404, ErrorMessage("Scale \"" + name + "\" not found")), [])
  }

  /** On an empty configuration, DELETE of `toString` as written answers 200 "deleted" for a scale that was never stored. */
  lemma InheritedNameDeleted(configs: map<string, StoredConfig>)
    requires configs == map[]
    ensures "toString" !in configs
    ensures DeleteAsWritten(configs, "toString").1.status == 200
    ensures DeleteAsWritten(configs, "toString").0 == configs
    ensures DeleteAsWritten(configs, "toString").2 == [configs]
  {
    assert "toString" in InheritedNames;
  }

  class ScaleApi {
    /** `this.scaleConfigs`: scale name to its stored configuration. */
    var scaleConfigs: map<string, StoredConfig>
    /** The dictionaries `saveConfig` wrote to the file, oldest first. */
    ghost var saved: seq<map<string, StoredConfig>>

    /**
     * `new ScaleAPI()` and its `loadConfig()`: a parsed file becomes the
     * dictionary; a missing file gives an empty one, which is saved at once;
     * a file that cannot be read or parsed gives an empty one, not saved.
     */
    constructor(file: ConfigFile)
      ensures scaleConfigs == if file.Parsed? then file.configs else map[]
      ensures saved == if file.Missing? then [map[]] else []
    {
      saved := [];
      match file
      case Parsed(configs) =>
        scaleConfigs := configs;
      case Missing =>
        scaleConfigs := map[];
        saved := [map[]];
      case Unreadable =>
        scaleConfigs := map[];
    }

    /**
     * POST /api/scales: 400 and no change, no save, when `name`, `ip` or `port`
     * is falsy; otherwise `scaleConfigs[name]` is set (replacing any earlier
     * entry, no other name touched), saved, and echoed back.
     */
    method PostScale(body: PostBody, now: Instant) returns (res: Response)
      modifies this
      ensures !(Truthy(body.name) && Truthy(body.ip) && PortTruthy(body.port)) ==>
                && res == Response(400, ErrorMessage(MissingFields))
                && scaleConfigs == old(scaleConfigs) && saved == old(saved)
      ensures Truthy(body.name) && Truthy(body.ip) && PortTruthy(body.port) ==>
                var entry := StoredConfig(body.ip.value, PortValue(body.port.value), DescriptionOrEmpty(body.description), now);
                && scaleConfigs == old(scaleConfigs)[body.name.value := entry]
                && saved == old(saved) + [scaleConfigs]
                && res == Response(200, Saved("Scale configuration saved", body.name.value, entry))
    {
      if !(Truthy(body.name) && Truthy(body.ip) && PortTruthy(body.port)) {
        return Response(400, ErrorMessage(MissingFields));
      }
      var name := body.name.value;
      scaleConfigs := scaleConfigs[name := StoredConfig(body.ip.value, PortValue(body.port.value), DescriptionOrEmpty(body.description), now)];
      saved := saved + [scaleConfigs];
      res := Response(200, Saved("Scale configuration saved", name, scaleConfigs[name]));
    }

    /** GET /api/scales: the whole dictionary. */
    method ListScales() returns (res: Response)
      ensures res.status == 200 && res.payload == Configs(scaleConfigs)
    {
      res := Response(200, Configs(scaleConfigs));
    }

    /**
     * GET /api/weight/:name: 404 without starting anything for an unknown name;
     * otherwise a fresh `getWeight` for the stored ip and port, whose promise
     * `Completion` turns into the answer.
     */
    method RequestWeight(name: string) returns (res: Option<Response>, request: Option<WeightRequest>)
      ensures name !in scaleConfigs ==>
                && res == Some(Response(404, ErrorMessage("Scale \"" + name + "\" not found in configuration")))
                && request == None
      ensures name in scaleConfigs ==>
                && res.None? && request.Some? && fresh(request.value) && fresh(request.value.monitor)
                && request.value.Valid() && !request.value.isResolved
                && request.value.monitor.scales == map[name := ScaleConfig(scaleConfigs[name].ip, scaleConfigs[name].port, name)]
                && request.value.monitor.isRunning
                && request.value.monitor.events == [] && request.value.monitor.writes == []
      ensures name in scaleConfigs && LegalPort(scaleConfigs[name].port) ==>
                request.Some? && request.value.promise == Pending && request.value.timeoutArmed
      ensures name in scaleConfigs && !LegalPort(scaleConfigs[name].port) ==>
                request.Some? && request.value.promise == Rejected(BadPort)
                && Completion(request.value.promise) == Some(Response(500, ErrorMessage(FailureMessage(BadPort))))
    {
      if name !in scaleConfigs {
        res := Some(Response(404, ErrorMessage("Scale \"" + name + "\" not found in configuration")));
        request := None;
        return;
      }
      var config := scaleConfigs[name];
      var r := new WeightRequest(config.ip, config.port, name);
      res, request := None, Some(r);
    }

    /**
     * DELETE /api/scales/:name: a stored name is removed, alone, and the
     * dictionary saved; an unknown name answers 404 and changes nothing.
     */
    method DeleteScale(name: string) returns (res: Response)
      modifies this
      ensures old(name in scaleConfigs) ==>
                && scaleConfigs == old(scaleConfigs) - {name}
                && saved == old(saved) + [scaleConfigs]
                && res == Response(200, Message("Scale \"" + name + "\" configuration deleted"))
      ensures old(name !in scaleConfigs) ==>
                && scaleConfigs == old(scaleConfigs) && saved == old(saved)
                && res == Response(404, ErrorMessage("Scale \"" + name + "\" not found"))
    {
      if name in scaleConfigs {
        scaleConfigs := scaleConfigs - {name};
        saved := saved + [scaleConfigs];
        res := Response(200, Message("Scale \"" + name + "\" configuration deleted"));
      } else {
        res := Response(404, ErrorMessage("Scale \"" + name + "\" not found"));
      }
    }
  }
}
