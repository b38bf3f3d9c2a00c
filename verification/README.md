# Notification fan-out service, modelled in Dafny

The service keeps a set of live WebSocket connections and offers two POST
endpoints. `/send-notification` writes `{title, body}` to every open
connection and answers `{success: true}`. `/send` checks that `title` and
`body` are present and non-empty. It then reads every device token from the `/tokens`
node of the realtime database and sends one multicast call to the push
gateway with all of them. After that it writes `{title, body, icon}` to every
open connection and answers with the gateway's batch response.

The model has four modules:

- `Payloads` (`payloads.dfy`): the request body, the message written to
  sockets, and JavaScript truthiness of a request field.
- `Sockets` (`registry.dfy`): the class `Registry`. It holds the `sockets`
  set, the `readyState` of each socket and an `outbox` that stands for
  `ws.send`. It has the `connection` and `close` handlers and the broadcast
  loop. The loop is proved against `FanOut`: each open member gets the
  message exactly once, and nothing else is written. `Received` counts
  writes per connection, and the lemmas turn `FanOut` into those counts.
  `ReadyStateChanged` stands for the `ws` library moving a socket between
  states, for example when the peer starts closing. The handlers only read
  that state.
- `Tokens` (`tokens.dfy`): `getAllUserTokens` on the value the database
  read returned.
- `Handlers` (`handlers.dfy`): each endpoint as a pure decision. The
  decision maps the request and the results of the external calls to the
  answer and an ordered trace of effects (token read, multicast, broadcast).
  Each endpoint also has a method that runs the same flow on a `Registry`
  and is proved to match its decision. `ScenarioOneClientClosing` is a
  client of these contracts. It has three clients, one of them closing,
  and two accepted tokens; the two open clients each receive the
  notification once and the closing one receives nothing.

The token store and the push gateway are inputs. `StoreReply` is either the
node's value or the message of the error the read threw. `GatewayReply` is
either the batch response or the message of the error the call threw.

Three behaviours of the code worth noting:

- With no tokens, `/send` returns at `src/index.ts:80`, before the
  broadcast. So no socket receives anything, and the answer is
  `{success: false, message: "No tokens found"}`.
- No socket is ever removed because a write failed or the socket was not
  open. The only removal is the `close` handler. A non-open socket is only
  skipped.
- A broadcast returns no delivery counts. The handlers never read any.

## Model

| member | source | states |
|---|---|---|
| `Sockets.Registry.constructor` | src/index.ts:26 | the server starts with an empty socket set and nothing written |
| `Sockets.Registry.Connect` | src/index.ts:28-30 | the set becomes the old set plus the socket; a newly added socket is open; adding a socket already present changes neither the set nor any state |
| `Sockets.Registry.Close` | src/index.ts:32-35 | exactly that socket leaves the set; every other member stays; closing an absent socket leaves the set unchanged |
| `Sockets.Registry.ReadyStateChanged` | src/index.ts:57 | the `ws` library changes one socket's state, which the broadcast reads; membership is untouched |
| `Sockets.Registry.Broadcast` | src/index.ts:56-60 | the outbox grows by a fan-out: `msg` goes exactly once to each registered open socket and to no other socket; the set and the states are unchanged |
| `Sockets.FanOutExactlyOnce` | src/index.ts:93-97 | in a fan-out, each target gets exactly one write and every other connection gets none; its length is the number of targets |
| `Sockets.BroadcastReceipts` | src/index.ts:56-60 | after a broadcast step, each open socket has one more write than before; every other connection has the same number as before |
| `Tokens.Values` | src/index.ts:42 | `Object.values`: one token per entry, the i-th token is the i-th entry's value |
| `Tokens.GetAllUserTokens` | src/index.ts:39-43 | a null node yields `[]`; otherwise the tokens are the node's values, one per entry, in order |
| `Tokens.NoTokensIff` | src/index.ts:42 | the token list is empty if and only if the node is null or holds no entries |
| `Tokens.TokensAreTheStoredValues` | src/index.ts:42 | a string is among the tokens if and only if some entry of the node holds it |
| `Handlers.SendDecision` | src/index.ts:66-103 | 400 `Missing title or body` exactly when title or body is falsy, with no effect. Otherwise tokens are read first and once. `No tokens found` exactly when the list is empty, with only the read. The gateway is called at most once, second, with the full list, title and body. The broadcast of `{title, body, icon}` is last and only after the gateway returned. `success: true` exactly when the broadcast happened, carrying the report unmodified. A valid request with a non-empty token list and a multicast that returned always broadcasts and answers 200 `{success: true, response}`. 500 with the error's message exactly when the read or the multicast failed |
| `Handlers.SendNotificationDecision` | src/index.ts:52-63 | any request is answered `{success: true}`; there is no token read and no gateway call; exactly one broadcast of the request's title and body, without an icon |
| `Handlers.EndpointsAgreeWithoutIcon` | src/index.ts:54 | when `/send` broadcasts, its message has the same title and body as `/send-notification`'s; the two messages are equal if and only if the request has no icon |
| `Handlers.HandleSend` | src/index.ts:66-103 | answers as `SendDecision`; if the decision broadcasts, the outbox grows by a fan-out of `{title, body, icon}` to the open sockets, otherwise it is unchanged; membership is never changed |
| `Handlers.SendNotification` | src/index.ts:52-63 | answers as `SendNotificationDecision`; the outbox grows by a fan-out of `{title, body}` to the open sockets; membership is unchanged |

## Left out

- Express, body-parser, CORS, route registration, the listening ports and
  `app.listen` (src/index.ts:11-13, 105-111): transport set-up.
- Firebase initialisation, credentials and `dotenv` (src/index.ts:9, 15-21):
  foreign calls. The database read and `sendEachForMulticast` are inputs
  that either give a value or fail with a message.
- The `WebSocketServer` and real socket I/O (src/index.ts:24): `ws.send` is
  an append to the registry's outbox, and readiness is a per-socket
  `readyState` kept by the `ws` library.
- The order in which `Set.prototype.forEach` visits sockets (insertion
  order): a broadcast is specified up to the order of its writes.
- Async scheduling and interleaving of requests with connect and close
  events: each handler is one atomic step.
- `JSON.stringify` bytes: a message is a record of `title`, `body` and an
  optional `icon`, where an absent field is an omitted key.
- Request fields that are neither missing nor strings (numbers, booleans,
  `null`) and a database node that is neither null nor an object of string
  values: fields are `Option<string>` and the node is a list of entries.
- Console logging (src/index.ts:29, 33, 109-110).
- A thrown value without a `message` property (the answer's `error` key
  would then be absent): every failure carries a message.
