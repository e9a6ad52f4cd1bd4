# Vessel map: reconnecting WebSocket client and screen record transforms

This project models the two pieces of logic in a mobile map app that shows live vessel (AIS) positions.

The first piece is the reconnecting WebSocket client built by `createWebSocket`:

- It holds the current socket and a `retries` counter.
- Its `onopen` handler resets the counter.
- Its `onmessage` handler decodes a frame. It hands the result to `onMessage`, or swallows the failure.
- Its `onerror` handler forwards to `onError`.
- Its `onclose` handler applies a bounded retry policy: at most 5 reconnects since the last successful open, each after a timer. It then reports the count to `onClose`.
- The object it returns has `send`, which transmits only while the socket is open, and `close`.

The second piece is the pure record handling of the map screen:

- renaming the fields of incoming vessel records;
- projecting vessels onto map features, and reading a tapped feature back;
- the zoom buttons, clamped to [0, 20];
- the `{bounds, zoom}` viewport message sent back to the server.

`web_socket.dfy` (module `WebSocketClient`) describes the client in two layers:

- a value `Conn` with the reference semantics `Step` (one event) and `Run` (a sequence of events);
- a class `Client` whose fields are the closure variables, with one method per handler plus `Send` and `Close`.

Each method is proved to change the fields exactly as `Step` says. Several socket objects can exist over time, and the handlers of an older socket still update the shared counter. So the state keeps the ready state of every socket ever created, and socket events name the socket they arrive on. The last socket is the one `socket` refers to. Timers are an explicit event, `ReconnectTimerFired`, and `pending` counts the timers not yet fired. A state is well-formed (`Valid`) when it has at least one socket and `retries <= 5`. A sequence of events is admissible from a well-formed starting state when each event can be delivered by the browser in the state the previous ones lead to (`Deliverable`):

- `open` only on a connecting socket;
- a message only on an open socket;
- `close` at most once per socket;
- a timer only when one is pending.

Only the starting state is required to be well-formed. That every later state is well-formed, and so keeps `retries <= 5`, is proved of `Step`.

`home_screen.dfy` (module `HomeScreen`) holds the screen's transformations as functions with lemmas. `wrappers.dfy` holds `Option`.

Points where the code behaves differently from what a reader of the API might expect:

- `close()` only calls `socket.close()`. It cancels no pending reconnect. The close event it causes still runs the retry branch and still calls `onClose`, so an unmounted screen still reconnects while the budget lasts. `ExplicitCloseStillRetries` proves this for a close while connecting or open. `CloseDuringBackoffStillReconnects` proves that a `close()` during the back-off, when the socket has already closed and a reconnect is pending, changes nothing, and the timer still opens a new socket.
- The client is not inert as soon as `retries` reaches 5. A reconnect scheduled by the fifth close can still fire, and an open on that socket resets the counter. The client becomes inert only once no connection attempt is left. `OutstandingAttempts` and `AttemptsNeverIncrease` state exactly when the client goes inert.
- `onclose` has no guard against overlapping reconnects: every close event schedules its own timer. Still, the browser closes each socket once and only the newest socket can be live when a timer is pending. So at most one connection attempt is ever in progress (`AtMostOneAttempt`).

## Model

| member | source | states |
|---|---|---|
| `WebSocketClient.Step` | hooks/useWebSocket/webSocket.ts:14-47 | each handler as a state change; every event keeps `retries <= 5`, adds at most one callback invocation and one transmitted message, and removes no socket |
| `WebSocketClient.Run` | hooks/useWebSocket/webSocket.ts:10-47 | from a well-formed start, under any sequence of deliverable open/message/error/close/timer/send/close-call events, every state stays well-formed, so `retries` never exceeds `maxRetries = 5` (derived from `Step`, not required of later states); the callback log and the transmitted messages only grow |
| `WebSocketClient.InitialState` | hooks/useWebSocket/webSocket.ts:10-49 | a fresh client has `retries = 0`, no timer and no callback; it has exactly one socket, which is connecting and is the only live one |
| `WebSocketClient.OpenResetsRetries` | hooks/useWebSocket/webSocket.ts:17-20 | an open event sets `retries` to 0, marks that socket open, and leaves timers and callbacks alone |
| `WebSocketClient.CloseWithinBudget` | hooks/useWebSocket/webSocket.ts:36-46 | a close with `retries < 5` adds exactly 1 to `retries` and exactly one pending reconnect, then calls `onClose` once with the updated count |
| `WebSocketClient.CloseBudgetExhausted` | hooks/useWebSocket/webSocket.ts:38-45 | a close with `retries >= 5` schedules nothing, leaves `retries` at 5, and calls `onClose(5)` once |
| `WebSocketClient.FrameHandling` | hooks/useWebSocket/webSocket.ts:22-29 | a frame that fails to decode changes nothing; a decoded frame calls `onMessage` once with the value and changes nothing else |
| `WebSocketClient.ErrorOnlyNotifies` | hooks/useWebSocket/webSocket.ts:31-34 | an error event calls `onError` once with the event; sockets, `retries` and timers are unchanged |
| `WebSocketClient.SendOnlyWhenOpen` | hooks/useWebSocket/webSocket.ts:52-58 | `send` transmits its message exactly when the current socket is open; otherwise nothing at all changes and nothing is raised |
| `WebSocketClient.TimerReconnects` | hooks/useWebSocket/webSocket.ts:14-15 | a fired reconnect timer adds one connecting socket as the current one and consumes one pending timer; `retries` is unchanged |
| `WebSocketClient.ExplicitCloseStillRetries` | hooks/useWebSocket/webSocket.ts:59-61 | `close()` cancels no pending timer and keeps `retries`; the close event that follows still schedules a reconnect and calls `onClose` |
| `WebSocketClient.CloseDuringBackoffStillReconnects` | hooks/useWebSocket/webSocket.ts:40-61 | a `close()` while a reconnect is pending and the current socket is closed changes nothing; the pending timer still fires, adds a connecting socket and keeps `retries` |
| `WebSocketClient.OutstandingAttempts` | hooks/useWebSocket/webSocket.ts:36-46 | live sockets plus pending timers stay the same for every event, except a close with the budget spent, which lowers them by one |
| `WebSocketClient.AttemptsNeverIncrease` | hooks/useWebSocket/webSocket.ts:14-46 | no sequence of events increases the number of connection attempts in progress; a client with none left never reconnects |
| `WebSocketClient.AtMostOneAttempt` | hooks/useWebSocket/webSocket.ts:10-49 | from creation, at most one connection attempt (a live socket or a pending reconnect) exists at any time |
| `WebSocketClient.OutageRounds` | hooks/useWebSocket/webSocket.ts:36-46 | while the budget lasts, `n` rounds of "current socket closes, timer fires" raise `retries` by `n`, create `n` sockets, leave no timer, and report `retries + 1 .. retries + n` to `onClose` |
| `WebSocketClient.SixClosesWithoutOpen` | hooks/useWebSocket/webSocket.ts:36-46 | from a state like a fresh client (no retries used, one live socket, nothing pending), six closes with no open in between give 5 reconnects; `onClose` reports 1, 2, 3, 4, 5, 5; nothing is pending or live afterwards |
| `WebSocketClient.OpenRestoresBudget` | hooks/useWebSocket/webSocket.ts:17-46 | after an open, a later outage again gets the full 5 reconnects, reported 1 to 5 |
| `WebSocketClient.Client.constructor` | hooks/useWebSocket/webSocket.ts:10-49 | creation sets `retries = 0` and calls `connect` once |
| `WebSocketClient.Client.Connect` | hooks/useWebSocket/webSocket.ts:14-15 | `connect` adds a new connecting socket as the current one and changes nothing else |
| `WebSocketClient.Client.HandleOpen` | hooks/useWebSocket/webSocket.ts:17-20 | the `onopen` handler updates the fields as `Step` does for an open event |
| `WebSocketClient.Client.HandleMessage` | hooks/useWebSocket/webSocket.ts:22-29 | the `onmessage` handler updates the fields as `Step` does for a frame |
| `WebSocketClient.Client.HandleError` | hooks/useWebSocket/webSocket.ts:31-34 | the `onerror` handler updates the fields as `Step` does for an error |
| `WebSocketClient.Client.HandleClose` | hooks/useWebSocket/webSocket.ts:36-46 | the `onclose` handler decides first and notifies second, as `Step` does for a close |
| `WebSocketClient.Client.FireTimer` | hooks/useWebSocket/webSocket.ts:40 | a fired `setTimeout(connect, …)` runs `connect` as `Step` does |
| `WebSocketClient.Client.Send` | hooks/useWebSocket/webSocket.ts:52-58 | `send` returns whether it transmitted, which is exactly when the current socket is open |
| `WebSocketClient.Client.Close` | hooks/useWebSocket/webSocket.ts:59-61 | `close` moves a connecting or open current socket to closing and touches nothing else |
| `HomeScreen.RenameAll` | app/index.tsx:99-108 | one output per input, in order, with `latitude = lat`, `longitude = lon`, and `mmsi`, `cog`, `sog`, `heading` unchanged |
| `HomeScreen.RenameAllAppend` | app/index.tsx:99-108 | renaming works element by element: renaming `a + b` gives the renaming of `a` followed by that of `b` |
| `HomeScreen.ToFeatures` | app/index.tsx:61-73 | one feature per vessel, in order: feature `i` is the projection of vessel `i` |
| `HomeScreen.FeatureCollectionShape` | app/index.tsx:58-76 | one feature per vessel, in order, at coordinates `[longitude, latitude]` with properties `heading`, `speed = sog`, `cog`, `mmsi` |
| `HomeScreen.SelectedVessel` | app/index.tsx:140-149 | a tap with no feature throws in the source (`features[0].properties` of an empty list), modelled as `None`; otherwise the position is the tapped one and `mmsi`, `sog` (from `speed`), `cog` and `heading` come from the properties of the first feature |
| `HomeScreen.TapReadsBackVessel` | app/index.tsx:141-148 | tapping the feature of vessel `i` recovers its `mmsi`, `sog`, `cog` and `heading` with the tapped position; a tap on the vessel's own position recovers the vessel exactly |
| `HomeScreen.IncreaseZoom` | app/index.tsx:137 | `min(z + 1, 20)`: one level up below 20, and 20 from 20 on |
| `HomeScreen.DecreaseZoom` | app/index.tsx:138 | `max(z - 1, 0)`: one level down above 0, and 0 from 0 down |
| `HomeScreen.ZoomStepsUndo` | app/index.tsx:137-138 | inside [0, 20] one press of each button undoes the other |
| `HomeScreen.ZoomStaysInRange` | app/index.tsx:43-138 | from any level in [0, 20], the initial 10 included, every sequence of presses keeps the level in [0, 20] |
| `HomeScreen.Corner` | app/index.tsx:85-88 | `bounds?.[i]?.[j]` is present exactly when the bounds and both indices exist, and is then that entry |
| `HomeScreen.ViewportPayload` | app/index.tsx:121-133 | the message carries the given zoom; `minLatitude = b[0][0]`, `minLongitude = b[0][1]`, `maxLatitude = b[1][0]`, `maxLongitude = b[1][1]`; without bounds it has no bound fields |
| `HomeScreen.PeriodicMessage` | app/index.tsx:79-94 | corrected periodic tick: nothing is sent exactly when bounds are absent; otherwise the viewport message for the current zoom |
| `HomeScreen.PeriodicMessageAsWritten` | app/index.tsx:78-96 | the periodic tick as written: nothing is sent exactly when bounds are absent; otherwise the message carries the bounds but always zoom 10, whatever the current zoom |
| `HomeScreen.PeriodicMessageIgnoresZoomPresses` | app/index.tsx:78-96 | the periodic tick as written: after one zoom-in press the screen is at 11, but the message still carries 10 |

## Left out

- The browser `WebSocket` object and the network are not modelled. A socket is only its ready state, and the browser's deliveries are the events.
- `JSON.parse` is not modelled. A frame event carries its decoding outcome, `None` when parsing throws. The result is not checked against the expected record shape, as in the code.
- `HandleMessage`: the source's `try` also swallows an exception thrown by `onMessage` itself. The model's `onMessage` is a log entry and cannot throw.
- `onError` and `onClose` are optional, called through `?.`. The log records every invocation the handler makes. A caller that registered no callback simply has nothing run for those entries.
- Delays are not modelled: the 10-second reconnect delay, the 2-second polling interval and the 50 ms debounce. Timers are events with no clock.
- Console logging is not modelled; it has no effect on state.
- hooks/useWebSocket/useWebSocket.ts is not part of this model. It is a React hook that wires the client to component state and toasts.
- components/Legend.tsx and components/VesselCoordinateDisplay.tsx are not part of this model. They are presentation only.
- React state is not modelled (`setShipCoordinates`, `setCenterCoordinate`, `setCurrentShipCoordinate`). Neither are MapLibre rendering, camera, layers and icon styles, the asynchronous `getVisibleBounds` call, or the turf `feature` call in `onPress`. These are framework or foreign-library calls. Their inputs and outputs are function parameters.
- `JSON.stringify` of the viewport message is not modelled. The message is kept as a record, and an absent bound field stands for the key that `JSON.stringify` drops.
- Numbers are `real` values that are only copied. There is no floating-point arithmetic in the modelled code.
- RenameAll: incoming records are typed. A record with a missing field, which the source's untyped destructuring would turn into `undefined`, is not represented.
- SelectedVessel: features always carry properties, so the `properties?.` case of a feature without properties is not represented.

## Findings

| source | as written | input that shows it | evidently intended | confidence | as-written member | corrected member |
|---|---|---|---|---|---|---|
| app/index.tsx:78-96 | the interval callback is created by an effect with an empty dependency list. It reads the `zoomLevel` of the first render, so every periodic message carries zoom 10 | press the zoom-in button once (the screen shows 11), then let the next 2-second tick run: its message says `zoom: 10` | the periodic message carries the zoom level currently shown, as the debounced region-change message does | high, not executed | `HomeScreen.PeriodicMessageIgnoresZoomPresses` | `HomeScreen.PeriodicMessage` |
