# JetMax HTTP gateway — a Dafny model

The gateway (`index.js`) turns HTTP requests into rosbridge v2.0 messages for
a JetMax robotic arm. It keeps one websocket connection to the arm's bridge,
caches the last `/jetmax/status` message, and replies to move requests after
a delay estimated from the move's length, since the bridge never
acknowledges a command.

The model has four modules:

- `Js` (`js.dfy`): parsed JSON values and the JavaScript rules the handlers
  depend on. These are reading a property (it throws on `undefined` and
  `null`), `=== 0`, `=== undefined`, and ToNumber before arithmetic. NaN is
  `None`.
- `Envelopes` (`envelopes.dfy`): one constructor per rosbridge operation,
  the four builders, the wire object `Wire` that `JSON.stringify` writes,
  and its inverse `FromWire`.
- `Estimator` (`estimator.dfy`): `calculateDuration`, `calculateDistance`
  and `calculateTimeoutTime` over exact reals. `Math.sqrt` is the parameter
  `sqrt`, and the geometric lemmas assume only `IsSqrt(sqrt)`: for every
  `r >= 0`, `sqrt(r) >= 0` and `sqrt(r) * sqrt(r) == r`.
- `Gateway` (`gateway.dfy`): class `Server` holds `jetmaxState` (`cache`) and
  the envelopes given to `ws.send` (`outbox`). It has the `open` and
  `message` handlers and the endpoints `/basic/state`, `/basic/moveTo`,
  `/basic/move` and `/basic/suction`. A reply deferred with `setTimeout` is
  `Delayed(ms, body)`. A handler that throws gets Express's error answer,
  `ServerError`.

Points where the code's behaviour is finer than a plain reading suggests:

- When neither direct case applies (current `x` exactly 0, or current and
  target `x` strictly on the same side), `calculateDistance` falls back to
  the target's `z` when EITHER target coordinate is missing, not only when
  both are. When a direct case applies, a missing target coordinate makes
  the distance NaN.
- Its detour branch also covers a target exactly at `x == 0`, and a current
  `x` that is not a number.
- A centerline-crossing detour is never shorter than the straight line
  (`CrossingGoesViaWaypoint`). It is not always strictly longer: when the
  waypoint lies on the straight segment, the two are equal
  (`DetourCanEqualDirect`).
- `/basic/move` publishes with id `publish:/moveTo`, the same id as
  `/basic/moveTo`.
- If the cache is `undefined` or `null`, an absolute move is published
  first. Then `calculateTimeoutTime` throws while the reply is scheduled,
  and the caller gets an error.
- A NaN duration is serialised as `null`.

## Model

| member | source | states |
|---|---|---|
| `Envelopes.SubscribeData` | index.js:254-268 | the wire object has `op` "subscribe" and exactly the six argument fields, each equal to its argument |
| `Envelopes.AdvertiseData` | index.js:278-291 | the wire object has `op` "advertise" and exactly `id`, `topic`, `type`, `latch`, `queue_size`, each equal to its argument |
| `Envelopes.PublishData` | index.js:300-312 | the wire object has `op` "publish" and exactly `id`, `topic`, `msg`, `latch`; the payload is carried unchanged |
| `Envelopes.CallServiceData` | index.js:320-332 | the wire object has `op` "call_service" and exactly `id`, `service`, `type`, `args` |
| `Envelopes.Wire` | index.js:254-332 | every envelope serialises to an object whose key set is the one of its operation, with its `op` tag and `id` |
| `Envelopes.FromWireOfWire` | index.js:254-332 | decoding the wire object of any envelope gives back that envelope |
| `Envelopes.WireOfFromWire` | index.js:254-332 | a wire object that decodes is exactly the wire form of its decoding (nothing added or dropped) |
| `Estimator.RelativeDuration` | index.js:369-384 | duration is non-negative; `duration * speed` is `z` for `z >= 0` and `2*abs(z)` for `z < 0` |
| `Estimator.Duration` | index.js:369-384 | the duration is a number exactly when `msg.z` converts to one (NaN otherwise), and then it is `RelativeDuration` of that z |
| `Estimator.DownwardTakesTwice` | index.js:376-379 | a downward move of length d takes exactly twice as long as an upward move of length d |
| `Estimator.Distance` | index.js:337-364 | `calculateDistance` throws exactly when the cached status is undefined or null |
| `Estimator.FromResetIsDirect` | index.js:345-348 | from current x exactly 0, the distance is the straight line to the target whatever its side |
| `Estimator.SameSideIsDirect` | index.js:349-352 | current and target x both negative or both positive: the distance is the straight line |
| `Estimator.CrossingGoesViaWaypoint` | index.js:353-357 | a move from non-zero x to the other side or onto x = 0 measures both legs through (0, -162.94), and that is at least the straight line |
| `Estimator.MissingPlanarTargetUsesZ` | index.js:358-360 | when the target lacks x or y (and neither direct case applies) the distance is the target's z |
| `Estimator.DistanceNonNegative` | index.js:346-357 | on the direct and detour branches the distance never throws and, when a number, is non-negative |
| `Estimator.DetourCanEqualDirect` | index.js:353-357 | from (-50, -162.94) to (50, -162.94) the detour and the straight line both measure 100 |
| `Estimator.TimeoutFor` | index.js:401-404 | the delay is 850 ms plus 3 ms per unit of distance |
| `Estimator.TimeoutIncreasing` | index.js:401-404 | the delay is strictly increasing in the distance |
| `Estimator.TimeoutMillis` | index.js:389-405 | x and y each 0 or undefined: the delay is computed from z and the cache is not read; otherwise it is computed from `calculateDistance` (NaN when that is NaN) and throws exactly when the cache is undefined or null |
| `Gateway.OpenSequenceShape` | index.js:25-56 | four envelopes: subscribe to `/jetmax/status`, then three unlatched advertisements with queue 100 on `/jetmax/speed_command`, `/jetmax/relative_command` and the sucker topic, in that order |
| `Gateway.ReplayIgnoresOtherTopics` | index.js:59-73 | frames on any other topic leave the cache as it was |
| `Gateway.ReplayKeepsLatestStatus` | index.js:59-73 | after a run of frames the cache is the `msg` of the latest status frame, replaced wholesale |
| `Gateway.Server.constructor` | index.js:17 | the cache starts as the empty object and nothing has been sent |
| `Gateway.Server.OnOpen` | index.js:25-56 | the open handler appends exactly the open sequence to what was sent, in order, and leaves the cache alone |
| `Gateway.Server.OnMessage` | index.js:59-73 | a status frame replaces the cache with its `msg`; any other frame changes nothing; nothing is sent |
| `Gateway.Server.GetState` | index.js:103-108 | `/basic/state` replies with exactly the current cache |
| `Gateway.Server.MoveTo` | index.js:111-143 | without `msg`: error text, nothing sent; otherwise one unlatched publish on `/jetmax/speed_command` with `duration` overwritten by the configured default, and a reply delayed by `calculateTimeoutTime` |
| `Gateway.Server.Move` | index.js:146-172 | without `msg`: error text, nothing sent; otherwise one unlatched publish on `/jetmax/relative_command` with `duration` overwritten by `calculateDuration`, and a reply delayed by `calculateTimeoutTime` |
| `Gateway.Server.Suction` | index.js:175-193 | without `msg`: error text, nothing sent; otherwise one unlatched publish of the payload as given on the sucker topic, and an immediate reply |

## Left out

- The `ws` library, Express routing and `app.listen` are not modelled. `ws.send` appends to `outbox` whatever the state of the connection, because the code does not check it. What the library does with a send on a socket that is not open is not modelled.
- The `/` endpoint (index.js:94-99) only replies with a fixed text. It is not modelled.
- Timers are not modelled. A reply's delay is a computed number, not a wait. The empty `setInterval` (index.js:407-412) does nothing. Node's handling of a NaN or negative delay is not modelled.
- `/basic/objectCenter` (index.js:199-235) runs an external Python process and streams its output. It is not modelled.
- `JSON.parse`, `JSON.stringify` and query-string decoding are not modelled. Frames and `msg` parameters arrive already parsed. A `msg` that is not valid JSON, or that parses to something other than an object, is not modelled. An empty `msg` counts as missing.
- The `error`, `close` and `unexpected_response` handlers (index.js:76-88) only log. They are not modelled, and neither is console-stamp logging.
- Config loading is not modelled. `relativeMoveSpeed` and `absoluteMoveSpeedDefault` are constructor parameters.
- `Math.sqrt` is a parameter. Its IEEE-754 rounding, and floating point generally, are not modelled: arithmetic is exact.
- `Js.ToNumber` treats strings, arrays and objects as NaN. JavaScript would convert numeric strings and short arrays to numbers.
- Estimator.RelativeDuration: requires a positive speed. With a zero speed the code divides by zero and gets Infinity or NaN, which is not modelled.
- Estimator.Duration: requires a positive speed, for the same reason.
- Gateway.Server.Move: requires a positive `relativeMoveSpeed`, for the same reason.
- Gateway.Server.OnMessage: a frame that parses to `null` makes the handler throw and ends the process. The model treats it like any other non-status frame.
