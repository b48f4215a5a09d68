# Scale monitoring service — a Dafny model

This project models the core of a small Node.js service. The service polls
industrial weighing scales over TCP and serves their readings through a REST
API. It models three parts of that service:

- **The weight-frame parser, `ScaleMonitor.parseWeight`.**
  - The canonical terminal reply is `ST,GS,+,<7 digits>kg`, and the leftmost
    such frame decides the weight.
  - Without a frame, a legacy rule applies. It upper-cases the text, finds the
    first `99`, and hands the characters `idx+3 .. idx+10` to JavaScript's
    `parseInt`.
  - In any other case the weight is 0.
  - `parseInt` (sign, `0x` prefix, digit run, `NaN`) and `substring` clamping
    are modelled as JavaScript defines them, in `js_numbers.dfy` and
    `weight_parser.dfy`.
- **The monitor, class `ScaleMonitor`, in `scale_monitor.dfy`.**
  - State: the scale registry and its iteration order, the `connections` map,
    the `isRunning` flag, every socket created with its life-cycle state, and
    the pending reconnect timers.
  - Emitted `weightReceived` events and probe writes go into ghost logs.
  - The socket callbacks (`connect`, `data`, `error`, `close`) and the
    reconnect timer are methods. The event loop calls them one at a time, in
    the socket states in which Node can deliver them.
  - The loops of `startMonitoring` and `stopMonitoring` are methods over maps,
    proved against the predicates `StartOutcome` and `DestroyAll`.
  - The invariant `Consistent` is kept by every operation.
- **The REST front end, in `scale_api.dfy`.**
  - Class `ScaleApi` covers the POST / GET / DELETE handlers over
    `scaleConfigs`.
  - Class `WeightRequest` covers `getWeight`: a one-shot monitor, the
    `isResolved` flag of its two listeners, the 5000 ms timeout and the
    promise they settle. `Completion` turns the settled promise into the HTTP
    answer.
- **The simulator's reply formatter, in `scale_simulator.dfy`.** The random
  draw is an integer parameter in `[0, 8999]`. The reply is proved to be a
  canonical frame that the parser reads back as the drawn weight, through
  bytes and ASCII decoding.

Inputs from the outside world are parameters:
- the moment a reading is taken (`Instant`);
- the bytes of a `data` chunk;
- the contents of `scale-config.json` (`ConfigFile`);
- the simulator's draw.

## Model

| member | source | states |
|---|---|---|
| JsNumbers.ParseIntOfDigits | scale-monitor.js:112 | `parseInt` of a non-empty run of decimal digits is the run's decimal value, leading zeros included |
| JsNumbers.ParseIntOfNegative | scale-monitor.js:123 | `parseInt` of `-` followed by decimal digits is minus their value |
| JsNumbers.ParseIntBound | scale-monitor.js:122-123 | whatever seven characters `parseInt` reads, a number it returns lies in [-999999, 9999999] |
| JsNumbers.ParseIntOfIntToString | scale-api.js:63 | `parseInt(String(n)) === n` for every integer below 10^21 in magnitude: such a numeric `port` survives `parseInt` unchanged |
| JsNumbers.TrimStart | scale-monitor.js:123 | `parseInt` skips exactly the leading white space, and what remains does not start with white space |
| JsNumbers.DigitRun | scale-monitor.js:123 | the digit run `parseInt` reads is the longest prefix of digits of the radix: everything before it is a digit, the next character is not |
| JsNumbers.NatToStringValue | scale-simulator.js:15 | `weight.toString()` is a decimal spelling whose value is the weight |
| JsNumbers.NatToStringLength | scale-simulator.js:15 | a number below 10^k is spelled in at most k digits |
| JsNumbers.LeadingZerosIgnored | scale-simulator.js:15 | zeros put in front by `padStart` do not change the decimal value |
| JsNumbers.ParseInt | scale-monitor.js:123 | the global `parseInt`; its properties are stated by `ParseIntOfDigits`, `ParseIntOfNegative`, `ParseIntBound`, `ParseIntOfIntToString` and `ParseIntIgnoresCase` |
| JsNumbers.NatToString | scale-simulator.js:15 | `weight.toString()` is a non-empty run of decimal digits (its value: `NatToStringValue`) |
| JsNumbers.IntToString | scale-api.js:63 | `String(n)` is the spelling of `-n` after a `-` for a negative number and the plain decimal spelling otherwise |
| WeightParser.FindPrimary | scale-monitor.js:110 | the match reported is a canonical frame with no frame further left; no result means there is no frame anywhere |
| WeightParser.IndexOfMarker | scale-monitor.js:118-119 | `indexOf('99')` finds the first `99`, or reports that there is none |
| WeightParser.ToUpper | scale-monitor.js:117 | `toUpperCase` keeps the length and maps each character on its own: `a`..`z` to `A`..`Z`, everything else unchanged |
| WeightParser.Substring | scale-monitor.js:122 | `substring` with ends in order is the slice between the ends clamped to the length, and never longer than their distance |
| WeightParser.AsciiDecode | scale-monitor.js:59 | `toString('ascii')` gives one character below 128 per byte: the byte with its high bit cleared |
| WeightParser.ParseWeight | scale-monitor.js:107-130 | every weight lies in [-999999, 9999999]; which rule decides it is stated by `PrimaryRule`, `FallbackRule` and `NoRuleMatches` |
| WeightParser.FallbackWeight | scale-monitor.js:117-124 | the legacy `99` rule gives a weight in [-999999, 9999999], 0 when there is no `99` |
| WeightParser.PrimaryRule | scale-monitor.js:110-113 | with the leftmost frame at `i`, the weight is the decimal value of its seven digits and lies in [0, 9999999] |
| WeightParser.PrimaryShadowsFallback | scale-monitor.js:110-115 | a frame anywhere decides the weight, through the leftmost frame, so the `99` rule is never consulted |
| WeightParser.TrailingTextIgnored | scale-monitor.js:110-113 | once the text holds a frame, any text appended after it leaves the weight unchanged |
| WeightParser.MarkerSurvivesUpper | scale-monitor.js:117-119 | upper-casing neither creates nor removes a `99` at any position |
| WeightParser.ParseIntIgnoresCase | scale-monitor.js:117-123 | `parseInt` reads the same number from the upper-cased text, hex digits and the `x` of `0x` included |
| WeightParser.FallbackRule | scale-monitor.js:117-124 | without a frame and with the first `99` at `k`, the weight is `parseInt` of the clamped characters `k+3 .. k+10` of the original text, 0 for NaN |
| WeightParser.NoRuleMatches | scale-monitor.js:126-129 | with neither a frame nor a `99`, the weight is 0 and no error escapes |
| WeightParser.WeightBound | scale-monitor.js:107-130 | every weight lies in [-999999, 9999999], and a negative one only comes from the `99` rule |
| WeightParser.LeadingFrame | scale-monitor.js:110-113 | a text that opens with a frame reads as the value of that frame's digits, whatever follows |
| WeightParser.CanonicalFrameExample | scale-monitor.js:109-113 | the reply `ST,GS,+,0004567kg` followed by CR LF reads as 4567 |
| WeightParser.ZeroFrameExample | scale-monitor.js:110-113 | a frame with digits `0000000` reads as 0, the same as no reading |
| WeightParser.GarbageExample | scale-monitor.js:126-129 | the reply `garbage` followed by CR LF reads as 0 |
| WeightParser.LeadingMarker | scale-monitor.js:117-124 | a text shorter than a frame that opens with `99` is read by `parseInt` from its fourth character, for at most seven characters |
| WeightParser.NegativeFallback | scale-monitor.js:122-124 | `99`, one character, `-` and digits read as minus the first six of those digits: the legacy rule can report a negative weight |
| Monitor.DestroyAll | scale-monitor.js:33-36 | destroying a set of sockets keeps every socket and its configuration, and marks exactly the sockets of the set destroyed |
| Monitor.LegalPort | scale-monitor.js:99 | the ports `client.connect` accepts: an integer in [0, 65535]; `ConnectEach` and `StartOutcome` state that a start throws exactly at the first scale whose port fails it |
| Monitor.DestroyEach | scale-monitor.js:33-35 | the loop of `stopMonitoring` destroys exactly the sockets named in `connections` |
| Monitor.ConnectEach | scale-monitor.js:23-25 | the loop of `startMonitoring` starts the scales in iteration order up to the first refused port. It throws exactly when some port is refused, stops at the first one, and otherwise makes one socket per listed scale |
| Monitor.OneAttemptPerScale | scale-monitor.js:18-26 | when no port is refused, every registered scale has a new connecting socket with its current configuration, and no two new sockets are for the same scale |
| Monitor.StartOne | scale-api.js:129-155 | a monitor with one scale and no socket throws exactly when that scale's port is refused, and otherwise has the single socket 0 connecting to it |
| Monitor.StartKeepsConsistent | scale-monitor.js:23-25 | the sockets the start loop adds keep the monitor's invariant: fresh ids, accepted ports, old sockets unchanged |
| Monitor.ScaleMonitor.constructor | scale-monitor.js:5-10 | a new monitor has no scales, connections, sockets or timers, is not running and has logged nothing |
| Monitor.ScaleMonitor.AddScale | scale-monitor.js:13-15 | `scales[id]` becomes `{ip, port, id}`, overwriting an earlier entry that keeps its place in iteration order; nothing else changes |
| Monitor.ScaleMonitor.Connect | scale-monitor.js:43-47 | the `connect` closure: nothing once monitoring is off; a throw for a refused port; otherwise exactly one new connecting socket |
| Monitor.ScaleMonitor.StartMonitoring | scale-monitor.js:18-26 | a no-op while running; otherwise sets `isRunning` and leaves `StartOutcome`: one connect attempt per scale in iteration order up to the first refused port |
| Monitor.ScaleMonitor.StopMonitoring | scale-monitor.js:29-37 | clears `isRunning`, destroys exactly the sockets in `connections`, empties it; scales and timers untouched |
| Monitor.ScaleMonitor.OnConnect | scale-monitor.js:48-55 | registers the socket under its scale id, replacing any earlier one, and logs one 256-byte zero probe, whether or not monitoring is on |
| Monitor.ScaleMonitor.OnData | scale-monitor.js:57-79 | an event and a probe exactly when the parsed weight is above 0; the event carries the scale id, weight and time. Otherwise nothing is emitted or written |
| Monitor.ScaleMonitor.OnError | scale-monitor.js:81-84 | destroys the socket and changes nothing else |
| Monitor.ScaleMonitor.OnClose | scale-monitor.js:86-96 | deletes the scale's `connections` entry and schedules one new 5000 ms reconnect timer, even with monitoring off |
| Monitor.ScaleMonitor.OnTimerFire | scale-monitor.js:91-95 | the timer is gone, and a new socket is made exactly when monitoring is still on |
| Simulator.DrawnWeight | scale-simulator.js:8-14 | every draw gives a weight in [minWeight, maxWeight] = [1000, 9999] |
| Simulator.PadStart | scale-simulator.js:15 | `padStart(width, '0')` is the text preceded by exactly as many zeros as reach the width |
| Simulator.GenerateWeight | scale-simulator.js:13-16 | the weight string is exactly seven decimal digits |
| Simulator.GenerateResponse | scale-simulator.js:19-22 | the reply is 19 characters long; the frame regular expression of `parseWeight` matches it at the start and captures the weight string |
| Simulator.GeneratedWeightDigits | scale-simulator.js:13-16 | the weight string is exactly seven decimal digits whose value is the drawn weight |
| Simulator.ResponseIsCanonicalFrame | scale-simulator.js:19-22 | the reply is `ST,GS,+,`, seven digits, `kg`, CR LF: a canonical frame at position 0 |
| Simulator.ParseGeneratedResponse | scale-simulator.js:19-22 | round trip: `parseWeight(generateResponse())` is the drawn weight, which is above 0 |
| Simulator.AsciiBytes | scale-simulator.js:35 | writing a string puts out one byte per character |
| Simulator.AsciiRoundTrip | scale-simulator.js:35 | decoding the bytes of an ASCII string as ASCII gives the string back |
| Simulator.ResponseIsAscii | scale-simulator.js:21 | every character of the reply is ASCII |
| Simulator.WireRoundTrip | scale-simulator.js:33-35 | the bytes the simulator writes, decoded and parsed by the monitor, read as the drawn weight |
| Api.Settle | scale-api.js:120-160 | `resolve`/`reject` settle a pending promise and leave a settled one as it is |
| Api.SettledStays | scale-api.js:120-160 | once settled, a promise stays settled with the first outcome, whatever is called later |
| Api.FailureMessage | scale-api.js:100 | every rejection carries a non-empty message |
| Api.WeightRequest.constructor | scale-api.js:119-161 | `getWeight` registers the one scale in a new monitor and starts it, with nothing emitted or written yet and no timer made. An accepted port leaves the timeout armed and one socket connecting. A refused port clears the timeout and rejects at once, leaving the monitor running with no socket |
| Api.WeightRequest.WeightReceived | scale-api.js:131-144 | only the first listener call takes effect: it sets `isResolved`, disarms the timeout, stops the monitor and resolves; later calls change nothing |
| Api.WeightRequest.ErrorReceived | scale-api.js:146-153 | the same one-shot shape, ending in a rejection |
| Api.WeightRequest.FireTimeout | scale-api.js:121-123 | the timeout rejects a pending promise but leaves `isResolved` and the monitor as they are |
| Api.WeightRequest.DeliverData | scale-api.js:131-144 | a data chunk with a positive reading reaches the listener and stops the monitor, settling the promise only on the first reading; any other chunk changes nothing |
| Api.WeightRequest.DeliverConnect | scale-monitor.js:48-55 | a `connect` event in a request registers the socket, as `OnConnect` does |
| Api.WeightRequest.DeliverError | scale-monitor.js:81-84 | an `error` event destroys the socket and leaves the promise alone |
| Api.WeightRequest.DeliverClose | scale-monitor.js:86-96 | a `close` event marks the socket closed, drops its scale's `connections` entry and schedules one new 5000 ms reconnect timer, even after the promise settled |
| Api.WeightRequest.DeliverTimer | scale-monitor.js:91-95 | after the listener has stopped the monitor, a firing reconnect timer makes no socket |
| Api.PortValue | scale-api.js:63 | `parseInt(port)` of a numeric port below 10^21 in magnitude is that number |
| Api.DescriptionOrEmpty | scale-api.js:64 | the description defaults to `''`: a truthy description is kept, any other becomes the empty string |
| Api.Completion | scale-api.js:94-101 | the HTTP answer of a weight query: none while pending, 200 with the reading, or 500 with a non-empty error message |
| Api.DeleteAsWritten | scale-api.js:109-115 | the DELETE handler with its truthiness test as written: 200 for an own entry and for every inherited name, 404 otherwise; only an own entry is removed, but the dictionary is saved whenever the test passes |
| Api.InheritedNameDeleted | scale-api.js:109-112 | on an empty configuration, DELETE of `toString` as written answers 200 and saves the dictionary although nothing was stored or removed |
| Api.ScaleApi.constructor | scale-api.js:24-38 | `loadConfig`: a parsed file becomes the dictionary; a missing file gives an empty one that is saved at once; an unreadable file gives an empty one, not saved |
| Api.ScaleApi.PostScale | scale-api.js:52-75 | a falsy `name`, `ip` or `port` gives 400 with no change and no save. Otherwise `scaleConfigs[name]` is set to the new entry, other names untouched, the result saved and echoed with 200 |
| Api.ScaleApi.ListScales | scale-api.js:78-80 | GET answers 200 with the whole dictionary |
| Api.ScaleApi.RequestWeight | scale-api.js:83-103 | an unknown name answers 404 and starts nothing; a stored one starts a fresh `getWeight` for its ip and port: the monitor is running with empty event and write logs, and the promise is pending with the timeout armed for an accepted port, or already rejected with the 500 `BadPort` answer for a refused one |
| Api.ScaleApi.DeleteScale | scale-api.js:106-116 | a stored name is removed alone and the dictionary saved with 200; an unknown name gives 404 and changes nothing |

## Left out

- TCP, timers and the clock are abstract.
  - Sockets are handles whose events the environment delivers.
  - Timers carry their 5000 ms delay but there is no clock.
  - `new Date()` and `toISOString()` are an opaque `Instant`.
- `EventEmitter` dispatch is not modelled. Emitted readings go into a ghost log, and the listeners of `getWeight` are called by `WeightRequest`.
- Express routing, `res.json` and `listen` are not modelled: handlers return a status and a payload.
  - The error text of the `getWeight` 500 answer is modelled only as non-empty.
  - `Api.FailureMessage` keeps only the first sentence of Node's ERR_SOCKET_BAD_PORT message.
- File I/O and JSON:
  - `saveConfig` is a ghost log of the dictionaries written.
  - `loadConfig` takes the file's outcome as a `ConfigFile` parameter.
  - A `scaleConfigs` key of `__proto__`, and JSON fields of unexpected types (a numeric `name` or `ip`), are not modelled.
- Ports are integers or `NaN`.
  - A fractional JSON port (3002.5) is not modelled: `PortField` holds only integers.
  - `parseInt` of `-0` is modelled as 0, which is compared with `> 0` only.
- `JsNumbers.IntToString`: does not model JavaScript's exponent notation for magnitudes of 10^21 and above.
- `WeightParser.ToUpper`: maps only `a`..`z`. The monitor only ever upper-cases decoded ASCII text, where that is exact.
- Console logging, the simulator's server start/stop and SIGINT handling are not modelled. `scale-monitor-test.js` only wires these up, so it is not modelled either.
- Map iteration order is modelled by `order`. Iteration over `connections` in `stopMonitoring` is modelled in any order, since destroying commutes.
- When `client.connect` throws, the `net.Socket` object already created is not recorded; no event of it is modelled.
- Api.WeightRequest.DeliverData: runs the monitor's data handler, with its probe write, before the listener. In the source the synchronous `emit` runs the listener, which destroys the socket, before the write at scale-monitor.js:73-74. That write to a destroyed socket, and any error Node raises for it, are not modelled.
- Api.ScaleApi.RequestWeight: looks the name up among stored entries only. The source's truthiness test at scale-api.js:87 has the same inherited-name defect as DELETE (see Findings). An inherited name such as `toString` passes it and calls `getWeight` with an undefined ip and port; that path is not modelled.
- Api.WeightRequest.DeliverTimer: states only that no socket is made once the request is resolved. The general behaviour is `OnTimerFire`'s contract.

## Findings

| source | as written | input that shows it | evidently intended | confidence | as-written member | corrected member |
|---|---|---|---|---|---|---|
| scale-api.js:109-110 | `if (this.scaleConfigs[name])` tests the plain object's property. Names inherited from `Object.prototype` pass the test | `DELETE /api/scales/toString` on an empty configuration answers 200 "configuration deleted", and nothing is removed | only stored scale names are found; every other name answers 404 | high; not executed | Api.DeleteAsWritten, Api.InheritedNameDeleted | Api.ScaleApi.DeleteScale |
