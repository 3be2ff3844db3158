# Deck relay: a Dafny model

The system is a browser "VJ deck" controller (`src/App.jsx`) that drives a
remote visual tool by broadcasting playback and trigger events through a
WebSocket relay (`server/server.js`), plus a small HTTP proxy that searches
YouTube without exposing the API key to the browser.

This project models and proves:

- **The relay hub** (`relay.dfy`, module `Relay`): a message arriving on one
  connection is forwarded, unchanged, to every other client whose ready-state
  is OPEN. The hub is a class over the sequence of clients; the broadcast is a
  loop proved equal to the specification function `FanOut`. The hub is
  generic in the message type, so it cannot inspect or alter a message.
- **The controller's connection** (`connection.dfy`, module `Connection`):
  the status `closed`/`connecting`/`open`/`error`, the current socket, the
  auto-reconnect timer (as a pending flag) and the guarded `sendWs`. The pure
  `Step`/`Run` functions are the specification; the class `Session` holds the
  controller's mutable state and each of its methods performs one `Step`.
- **The envelopes** (`messages.dfy`, module `Messages`): the object each
  handler sends, a reader for it with a round-trip proof, and the
  player-state handler that sends `play` or `pause`.
- **Search** (`search_proxy.dfy`, module `SearchProxy`, and `results.dfy`,
  module `Results`): the proxy's choice of response (placeholder, upstream
  data, or 500), what `doSearch` stores, and how each result item is read
  into an id, a title and a thumbnail.

`js.dfy` (module `Js`) gives the JavaScript values and the truthiness,
`||` and property-access rules the source relies on; `socket.dfy` gives the
four WebSocket ready-states; `wrappers.dfy` gives `Option`.

Two behaviours of the code are modelled as written even though a reader
might expect otherwise:

- Teardown does not stop reconnection for good. The cleanup clears the
  pending timer and closes the socket, but the socket's close handler stays
  attached, so the close event that follows schedules a new reconnect
  (`Connection.TeardownDoesNotStopReconnect`).
- A `load` envelope carries only the video id; the start offset given to
  `loadVideo` is not sent.

## Model

| member | source | states |
|---|---|---|
| Relay.FanOut | server/server.js:23-26 | One broadcast over the clients in iteration order; keeps the number of clients (what each client receives is stated by `FanOutAt` and `DeliversExactlyToEligible`) |
| Relay.RelayAll | server/server.js:21-28 | Inbound messages handled one after another in arrival order; keeps the number of clients (what each client receives is stated by `RelayAllDelivers`) |
| Relay.FanOutAt | server/server.js:23-26 | After a broadcast, each client is exactly what the loop body makes of it: one copy appended when it is not the sender and is OPEN, untouched otherwise |
| Relay.DeliversExactlyToEligible | server/server.js:23-26 | A client's outbox gains exactly one copy of the message, unchanged, if and only if it is not the sender and is OPEN; otherwise it is unchanged |
| Relay.SenderExcluded | server/server.js:24 | The sender never receives its own message |
| Relay.NonOpenSkipped | server/server.js:24 | Clients that are CONNECTING, CLOSING or CLOSED receive nothing |
| Relay.MembershipUnchanged | server/server.js:21-28 | A broadcast keeps the members, their order and their ready-states |
| Relay.RelayAllDelivers | server/server.js:21-28 | After any run of broadcasts, an OPEN client has received exactly the messages sent by others, one copy each, in arrival order; a client not OPEN has received nothing; membership is unchanged |
| Relay.SameSenderInOrder | server/server.js:23-25 | Two messages from one sender reach every other OPEN client in send order, one copy each |
| Relay.ThreeClientsScenario | server/server.js:18-29 | A, B, C open; A sends play: B and C get one copy, A none; with B gone, A's pause reaches only C |
| Relay.Hub.constructor | server/server.js:16 | The hub starts with the given membership, which has no connection twice |
| Relay.Hub.OnMessage | server/server.js:21-28 | The broadcast loop leaves the clients exactly as `FanOut` specifies and keeps identities distinct |
| SearchProxy.UpstreamRequest | server/server.js:36-46 | An upstream request is made exactly when a non-empty key is set, and it carries the query and the key |
| SearchProxy.Search | server/server.js:36-50 | No key: status 200 and exactly the one placeholder item; key and upstream success: status 200 and the data unchanged; key and upstream failure: status 500 with `{error: message}`; status 500 occurs in no other case |
| SearchProxy.MockIgnoresQuery | server/server.js:36-41 | Without a key the response is the same whatever the query and the upstream outcome, and no upstream request is made |
| Messages.ToJson | src/App.jsx:93-164 | Every envelope is an object whose `type` field is its tag; play and pause are exactly `{type:'play'}` and `{type:'pause'}`; the keys are `type` alone for play and pause, `type` and `id` for load, `type` and `val` otherwise |
| Messages.RoundTrip | src/App.jsx:93-164 | Reading back any envelope object gives the envelope it was built from |
| Messages.ToJsonInjective | src/App.jsx:93-164 | Distinct envelopes are sent as distinct objects |
| Messages.LoadMessage | src/App.jsx:103-110 | A load is sent exactly when the player exists, as `{type:'load', id}` |
| Messages.SeekMessage | src/App.jsx:124-129 | A seek is sent exactly when the player exists, as `{type:'seek', val}` |
| Messages.RateMessage | src/App.jsx:132-137 | A rate change is sent exactly when the player exists, as `{type:'rate', val}` |
| Messages.TriggerMessage | src/App.jsx:163-165 | A trigger is always sent, as `{type:'trigger', val: index}`, and reads back as itself |
| Messages.OnStateChange | src/App.jsx:88-98 | States 1 and 2 (and only they) send an envelope; 1 sets playing, 2 clears it; the envelope is `play` exactly when playing; other states leave the flag as it was |
| Messages.PlayingAgreesWithLastSent | src/App.jsx:88-98 | After any run of player states, every announcement is play or pause, and the playing flag agrees with the last one (or is unchanged if none) |
| Connection.Enabled | src/App.jsx:19-40 | When each event can occur; `connect` is never enabled while a socket is OPEN or a reconnect is pending |
| Connection.Step | src/App.jsx:19-50 | The effect of one event: only `sendWs` changes the outbox, and by at most the one payload; exactly `connect` and the timer create a socket; only the close event makes a reconnect pending |
| Connection.InitialInv | src/App.jsx:10 | The initial state (status closed, no socket, no timer) satisfies the invariant and allows the first `connect` |
| Connection.StepInv | src/App.jsx:19-50 | Every event keeps the invariant: a pending reconnect waits only behind a closed socket, the socket is the newest, and `open`/`connecting`/`closed` are shown only with a matching socket |
| Connection.RunInv | src/App.jsx:19-50 | The invariant holds after any feasible run of events |
| Connection.ConnectInstallsFreshSocket | src/App.jsx:21-24 | `connect` shows connecting and installs a CONNECTING socket newer than every earlier one |
| Connection.OpenShowsOpen | src/App.jsx:26 | The open event shows `open` and makes the same socket OPEN, so `sendWs` transmits from then on; the timer and the outbox are unchanged |
| Connection.CloseSchedulesOneReconnect | src/App.jsx:27-31 | The close event shows closed and schedules exactly one reconnect (none was pending) |
| Connection.OnlyCloseSchedules | src/App.jsx:26-32 | No event but the close event schedules a reconnect |
| Connection.ErrorSchedulesNothing | src/App.jsx:32 | The error event shows error and changes neither the timer nor the socket |
| Connection.SendOnlyWhenOpen | src/App.jsx:43-50 | `sendWs` transmits exactly when a socket exists and is OPEN; otherwise the state is unchanged |
| Connection.DroppedSendForgotten | src/App.jsx:43-50 | A dropped send has no effect on anything that happens afterwards |
| Connection.OutboxOnlyFromSends | src/App.jsx:43-50 | Over any run, transmitted envelopes are only appended, each was the payload of a send in the run, and a run without sends (such as a later open) transmits nothing |
| Connection.ReconnectCycle | src/App.jsx:21-31 | An open socket that closes is followed, when the timer fires, by a fresh CONNECTING socket, and on its open the status is open again and `sendWs` transmits again |
| Connection.TeardownCancelsAndCloses | src/App.jsx:36-39 | Teardown clears the pending reconnect and moves a connecting or open socket to CLOSING, keeping the same socket (same serial), the socket count, the status and the outbox; a closing or closed socket is left as it is; teardown is idempotent |
| Connection.TeardownDoesNotStopReconnect | src/App.jsx:27-39 | After teardown of a connecting or open socket, that socket's close event still schedules a reconnect, whose firing creates a fresh socket |
| Connection.NoFlushOnOpen | src/App.jsx:43-50 | A play sent before the first socket opens is never transmitted; one sent after it opens is |
| Connection.Session.constructor | src/App.jsx:10-15 | The controller starts closed, with no socket, no timer, nothing sent and not playing |
| Connection.Session.Connect | src/App.jsx:21-24 | Performs the `connect` step |
| Connection.Session.OnOpen | src/App.jsx:26 | Performs the open step |
| Connection.Session.OnClose | src/App.jsx:27-31 | Performs the close step |
| Connection.Session.OnError | src/App.jsx:32 | Performs the error step |
| Connection.Session.TimerFires | src/App.jsx:30 | Performs the timer step: the pending reconnect runs `connect` |
| Connection.Session.Teardown | src/App.jsx:36-39 | Performs the teardown step |
| Connection.Session.Send | src/App.jsx:43-50 | Performs the `sendWs` step: appends the payload exactly when the socket is OPEN |
| Connection.Session.OnPlayerStateChange | src/App.jsx:88-98 | Updates playing as `OnStateChange` says and sends its envelope, if any, through `sendWs` |
| Connection.Session.LoadVideo | src/App.jsx:103-111 | Sends the load envelope through `sendWs` when the player exists |
| Connection.Session.HandleSeek | src/App.jsx:124-130 | Sends the seek envelope through `sendWs` when the player exists |
| Connection.Session.HandleRateChange | src/App.jsx:132-138 | Sends the rate envelope through `sendWs` when the player exists |
| Connection.Session.Trigger | src/App.jsx:163-165 | Sends the trigger envelope through `sendWs` |
| Results.SearchResults | src/App.jsx:140-154 | An empty query, a failed request or a falsy body clears the results; otherwise the body's truthy `items`, else its truthy `results`, else the body itself; the stored value is never falsy |
| Results.Normalise | src/App.jsx:257-259 | Reading a null item throws; otherwise the id is `it.id.videoId`, else `it.videoId`, else the item when it is a string, else null; the title is `it.snippet.title`, else `it.title`, else `it.name`, else `'Untitled'`; the thumbnail is `it.snippet.thumbnails.default.url`, else `it.thumbnail`, else `''` (each "else" taken when the earlier value is falsy); so the title is never blank and the id is truthy exactly when one of its sources is |
| Results.Click | src/App.jsx:264 | A click sends a load exactly when the id is truthy and the player exists, and the load carries that id |
| Results.MockItemRow | server/server.js:39 | The placeholder item reads as id `dQw4w9WgXcQ`, its title, and an empty thumbnail (it sets `medium`, the list reads `default`) |
| Results.MockSearchEndToEnd | src/App.jsx:146-150 | Without a key and with a non-empty query, the list holds exactly the placeholder item, and clicking it loads `dQw4w9WgXcQ` when the player exists |
| Results.UpstreamFailureBecomesResults | src/App.jsx:145-150 | A 500 body `{error: message}` is stored as the results value itself, which is not a list |

## Left out

- Membership of `wss.clients` and each client's ready-state are maintained by the `ws` library; the hub takes them as given and does not model connect or disconnect.
- Relay.Hub.OnMessage: a connection is modelled as a value in a sequence, so aliasing between socket objects is not captured; `client.send` is an append to that client's outbox, and transport errors during a send are not modelled.
- Serialisation: `JSON.stringify` of the envelope and the UTF-8 framing are not modelled; the outbox records the envelope object that would be stringified.
- Connection.Enabled: the model assumes the connection effect mounts once and that events arrive only for the current socket. `connect()` is enabled only while no socket is live and no reconnect is pending. The source's handlers stay attached to older sockets, so after a remount while the previous socket is still CLOSING (as with a double mount in development), that old socket's close event would show `closed` while a newer socket is live and would schedule one more socket; the model does not capture this.
- Connection.Session.OnError: the browser sets a failing socket's ready-state to CLOSED before the error event; the model changes the ready-state only at the close event that follows.
- Connection.Session.Send: exceptions thrown by `ws.send` and swallowed by `sendWs` are not modelled beyond "nothing reaches the caller".
- Time: the 1500 ms reconnect delay is a pending flag, and the 300 ms search debounce is not modelled.
- Results.SearchResults: states what one `doSearch` call writes. Overlapping calls are not modelled: the debounce cleanup clears only the timer and does not cancel a request already started, so a late response can overwrite newer results (including the `[]` an empty query stored), and the last write wins.
- Floating point: seek and rate values are `parseFloat` results carried as reals; NaN and infinities are not represented (so `Js.Truthy` treats every non-zero number as truthy).
- Property access in `Js.Prop` models own properties of parsed objects only; built-in properties of strings and arrays are not represented, as none of the names the source reads is one.
- The YouTube IFrame API (script injection, player construction, time polling, `loadVideoById`, `seekTo`, `setPlaybackRate`, `handlePlayPause`) is a foreign library; the only trace of it here is whether the player exists.
- Network I/O: `fetch`, `res.json()`, `axios.get`, Express routing, CORS and listening ports; the proxy's upstream outcome and the client's parsed body are inputs. The query is concatenated into the URL without encoding; that is not modelled.
- Rendering: JSX layout, the status indicator, time formatting and `rate.toFixed`.
