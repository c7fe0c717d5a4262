# padchat-ws-test connection-health watchdog, modelled in Dafny

The program watches remote servers. For each configured server it keeps one
reconnecting websocket connection (class `Test` in `index.js`). A watchdog
record built by `newTest` listens to that connection's events. It tracks
uptime, outages, heartbeat gaps and reachability-probe results, and it pushes
throttled alerts to a notification channel through `notify`.

The model has three modules:

- `Notifier` (`notifier.dfy`): the alerts the handlers raise, and the
  empty-key guard of `notify`. A push is a title (the server address) and an
  alert; the Chinese message text is not formatted.
- `Connection` (`connection.dfy`): class `Test`. Its fields are `connected`,
  `autoRetry`, `disconnectCount`, `lastStartTime`, the handle `ws` and a
  ghost log of the frames written to sockets. `Link` is a pure value with the
  same fields. The step functions on `Link` (`StartStep`, `ProbeStep`,
  `OpenStep`, `CloseStep`) are the specification each method is tied to.
  Trace lemmas over any sequence of `LinkEvent`s prove the disconnect
  accounting and the start spacing.
- `Watchdog` (`watchdog.dfy`): class `Monitor`, the record `newTest` builds.
  It holds `lastTime`, `connectCount`, `downTime`, `lastWarnTime`,
  `lastCheckTime`, `lastPing`, `maxHeart`, `connect`, `sendDownWarn`, the
  `Test` it owns, and a ghost log of dispatched pushes. Each handler is a
  method. It first runs the `Test` handler for the same transport event, then
  the watchdog's own listener, in the order the synchronous `EventEmitter`
  runs them. The `close` and `newStart` listeners are methods of their own
  (`HandleClose`, `HandleNewStart`). In the source, `newStart` is emitted
  before the new socket is installed. The listener reads no field of the
  connection, so running it after the connection's step gives the same
  state. The pure `Health` value and the handler functions `OnOpen`,
  `OnClose`, `OnPing`, `OnError` and `OnNewStart` specify the methods. Trace
  lemmas over any sequence of `Event`s prove the invariants and the
  throttles.

Time is an input: `now` is the clock reading in milliseconds. A stamp of 0
means "not set", as in the source. Every comparison the source makes in
seconds is made here in integer milliseconds. For example,
`(now - downTime) / 1000 > 30` becomes `now - downTime > 30000`, and the
heartbeat test becomes `gap > timeoutMs`, with the configured limit given in
milliseconds. `maxHeart` is kept in milliseconds. Every handler that reads
the clock requires `0 < now`; the error listener reads none and takes no
clock. Each handler reads the clock once, where the source calls
`Date.now()` several times within one handler. Only the close listener also
requires `now` to be no earlier than the recorded outage start `downTime`.
Its invariant `downTime <= lastWarnTime` depends on that, and so do
`RunKeepsInv` and `CloseWhileDown`. `BackwardClockScenario` shows what
happens when the clock steps back.

`start()` is split at its `await`:

- `Test.Start(now)` is the synchronous part: the 200 ms guard, the new start
  time, and terminating an open socket.
- `Test.ProbeSettled(outcome)` (composed into `Monitor.ProbeSettled`) is the
  continuation. It emits `newStart`, then either reports a scheduled retry or
  replaces the handle with a new socket.

The caller chooses how other events interleave with these two parts. Each
socket has a generation number, and transport events carry the generation of
the socket they come from. Only that socket's ready state follows its events.
As in the source, `connected` and the disconnect counter react to events from
any socket, stale or current.

Behaviour of the code that is easy to misread:

- When the connection is already down, the close handler pushes "unreachable"
  once per outage and never again until an `open`. The condition at
  index.js:226 can hold again after 10 minutes, but the inner guard at
  index.js:227 suppresses the push. The code has no periodic 10-minute
  re-alert. `OneUnreachablePerOutage` and `OutageScenario` prove this.
- The outage threshold is strict. A close exactly 30 s into an outage does
  not alert; one at 30.001 s does (`OutageScenario`).
- Given the invariant `lastWarnTime != 0 ==> downTime <= lastWarnTime`, the
  10-minute arm never causes an alert of its own (`CloseWhileDown`). The
  invariant holds only while the clock never goes back. After a step back,
  the arm can push "unreachable" only 10 s into an outage
  (`BackwardClockScenario`).
- `start()` terminates the old socket only when its state is Open. A socket
  still connecting is replaced without being terminated.
- Nothing guards stale-socket events. A terminated socket's late close still
  counts a disconnect, still runs the watchdog's close handler, and still
  schedules a retry.
- A failed probe sets `downTime` even while `connect` is true, for example
  after a stale retry timer fires. So `downTime != 0` does not mean "down".
  About `downTime` the model claims only `sendDownWarn ==> downTime != 0` and
  `lastWarnTime != 0 ==> downTime != 0 && downTime <= lastWarnTime`.

## Model

| member | source | states |
|---|---|---|
| `Notifier.Notify` | index.js:140-147 | an empty key sends nothing; any other key sends exactly one push with that title and alert |
| `Notifier.NotifyAll` | index.js:140-143 | notifying a batch sends nothing for an empty key, otherwise one push per alert, in order |
| `Connection.Test.constructor` | index.js:23-34 | a new connection is disconnected, has auto-retry off, a zero disconnect count and the placeholder handle; the start() it runs at once is rejected only when the clock reads under 200 ms |
| `Connection.Test.Start` | index.js:36-44 | accepted iff at least 200 ms after the last accepted start; a rejected call changes nothing, including lastStartTime; an accepted call sets lastStartTime to now and leaves no Open socket, terminating one that was open |
| `Connection.Test.ProbeSettled` | index.js:46-68 | a successful probe installs a new Connecting socket of a fresh generation; a failed probe changes nothing and schedules a retry iff auto-retry is on |
| `Connection.Test.SetAutoRetry` | index.js:105-107 | sets autoRetry and nothing else |
| `Connection.Test.OnOpen` | index.js:72-75 | the connection is connected afterwards; the disconnect count and start time are unchanged |
| `Connection.Test.OnClose` | index.js:76-89 | disconnectCount goes up by exactly 1 iff it was connected; the emitted flag equals the prior connected; connected is false afterwards; a retry is scheduled iff auto-retry is on |
| `Connection.Test.Send` | index.js:113-120 | writes one data frame to the current socket iff connected and a socket exists, otherwise nothing |
| `Connection.Test.Ping` | index.js:121-125 | writes one ping frame iff connected and a socket exists |
| `Connection.Test.Pong` | index.js:126-130 | writes one pong frame iff connected and a socket exists |
| `Connection.DisconnectsCountFalls` | index.js:76-83 | over any event sequence, the disconnect count rises by exactly the number of times connected goes from true to false, never for a close while already down |
| `Connection.StartsAreSpaced` | index.js:38-41 | over any event sequence and any clock readings, accepted starts are at least 200 ms apart and lastStartTime is the time of the last one |
| `Watchdog.Monitor.constructor` | index.js:175-190 | all counters are zero, nothing dispatched, the owned connection has started once and has auto-retry on |
| `Watchdog.Monitor.Open` | index.js:192-208 | connect is true, sendDownWarn false; downTime, lastWarnTime, lastPing and maxHeart are 0; lastTime is now; connectCount goes up by exactly 1; the init command goes to the current socket |
| `Watchdog.Monitor.Close` | index.js:76-89 | a close runs the connection's handler and then the watchdog's listener with the updated count: the count goes up by 1 iff the watchdog was connected, both end disconnected, and the invariant and the agreement with the connection are kept |
| `Watchdog.Monitor.HandleClose` | index.js:210-235 | closing while up pushes exactly one "dropped" alert with the given disconnect count and sets connect false; downTime and lastWarnTime become now only if they were 0. While already down it pushes "unreachable" iff the outage is over 30 s and none was sent yet, and the latch is set whenever the branch condition holds |
| `Watchdog.Monitor.StampOutage` | index.js:211-216 | downTime and lastWarnTime are set to now exactly when they were 0; nothing else changes and nothing is dispatched |
| `Watchdog.Monitor.Ping` | index.js:239-253 | with no baseline, never alerts and keeps maxHeart; otherwise maxHeart becomes max(maxHeart, gap) and it alerts iff gap exceeds the timeout; lastPing becomes now in every case |
| `Watchdog.Monitor.Error` | index.js:254-260 | changes no counter; alerts iff connected |
| `Watchdog.Monitor.ProbeSettled` | index.js:46-68 | a settled probe runs the connection's continuation and then the watchdog's newStart listener; the invariant and the agreement with the connection are kept |
| `Watchdog.Monitor.HandleNewStart` | index.js:261-279 | a failure sets downTime if it was 0, even when throttled; a throttled result changes nothing else and dispatches nothing; otherwise lastCheckTime becomes now and a failure alerts iff the outage is under 180 s; connect is never changed |
| `Watchdog.RunKeepsInv` | index.js:192-279 | after any chronological run of handlers, sendDownWarn implies a recorded outage start, and a set warning clock is never before it |
| `Watchdog.OneUnreachablePerOutage` | index.js:224-233 | with no open in between, at most one "unreachable" alert is raised, none if one was already sent, and once raised the latch stays set |
| `Watchdog.DroppedNeedsOpen` | index.js:210-222 | each "dropped" alert is matched by the initial connection or a distinct open event |
| `Watchdog.PingsMeasureGaps` | index.js:239-253 | a run of pings changes only lastPing, which ends at the last ping time, and maxHeart, which ends as the largest of the old maximum and all measured gaps |
| `Watchdog.LastPingIsBaseline` | index.js:252 | after a run of pings, lastPing is the time of the last one, or unchanged for an empty run |
| `Watchdog.PingAlertsAreSlowBeats` | index.js:239-249 | a run of pings raises exactly one heartbeat alert per measured gap over the timeout, in order, and no other alert; the first ping after an open measures no gap |
| `Watchdog.ProbeChecksSpaced` | index.js:265-270 | probe results are acted on at most once per 30 s, at positive times, and the first is at least 30 s after a set lastCheckTime |
| `Watchdog.LastCheckIsLastCheckTime` | index.js:267-270 | lastCheckTime is the time of the last probe result acted on, or unchanged if none was |
| `Watchdog.ProbeAlertsNeedChecks` | index.js:267-275 | there are no more probe alerts than probe results acted on |
| `Watchdog.CloseWhileDown` | index.js:223-233 | closing while down alerts iff no warning was sent for the outage and it is over 30 s old; the 10-minute arm adds no alert |
| `Watchdog.HeartbeatScenario` | index.js:239-253 | limit 20 s, pings 10 s then 25 s apart: one alert, for the 25 s gap |
| `Watchdog.OutageScenario` | index.js:210-235 | open, drop 5 s later, closes at 30 s, 30.001 s and 11.6 min into the outage: exactly one "dropped" and one "unreachable" alert |
| `Watchdog.BackwardClockScenario` | index.js:211-233 | with the clock stepped back between a failed probe and a close, the invariant breaks, and a later close pushes "unreachable" 10 s into the outage through the 10-minute arm |
| `Watchdog.ProbeScenario` | index.js:261-279 | two failed probes 10 s apart: only the first alerts |

## Left out

- The websocket and HTTP transports (`ws`, `request`) and the network call of `checkServer` (index.js:162-173). The probe outcome and the socket events are method inputs.
- Timers. A delayed `start()` (5 s after a failed probe or after a close) is reported as a returned "retry scheduled" flag. The caller makes the later `Start` call.
- `async`/`await` scheduling and `EventEmitter` dispatch. The `Monitor` methods call the connection handler and then the watchdog handler directly. Between `Test.Start` and `ProbeSettled` any order of events is allowed, including a probe result with no start pending.
- The `msg` and `pong` events. They only log or re-emit and change no state.
- `log4js` configuration and every logging call (index.js:12-19).
- Loading `config.json`, building one watchdog per server (index.js:283-304), and the process-level `uncaughtException`/`unhandledRejection` hooks (index.js:306-314).
- `JSON.stringify` in `send`. The init command is a `Payload` value carrying its time stamp.
- The push HTTP request in `notify` and the parsing of its response. Only the empty-key guard and a ghost log of what would be sent are modelled.
- A clock that steps backwards. `Monitor.Close` (through `HandleClose`) requires `now` to be no earlier than the recorded outage start, `CloseWhileDown` states its result under the same condition, and `RunKeepsInv` is stated only for clock readings that never go back. Under such a clock the source can push "unreachable" early, as `BackwardClockScenario` shows on the pure handlers.
- Repeated clock reads within one handler. Each handler is given one reading `now`, where the source calls `Date.now()` separately for each stamp and each comparison.
- The configured heartbeat limit `timeout` (any JSON number of seconds) is taken as a whole number of milliseconds, `timeoutMs`; a limit finer than 1 ms is not modelled.
- Floating-point seconds. Every comparison is exact in integer milliseconds, and `maxHeart` is in milliseconds.
- The `instanceof Websocket` test. It is modelled as "a socket exists", because the handle is a placeholder until the first socket is created.
- What the `ws` library does when sending on a socket that is not open.
- The rejected promise of a `start()` refused by the 200 ms guard. Only its effect is modelled: nothing changes.
