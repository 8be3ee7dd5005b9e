# Session registry of a WhatsApp gateway server

The server in `index.js` runs one WhatsApp web client per user id. Its one piece
of shared state is `activeClients`, a map from user id to a record
`{client, qr, status, logs}`. Three things act on that map:

- `POST /start` checks the user id and inserts a fresh record.
- The handlers registered on each client (`qr`, `authenticated`, `ready`,
  `auth_failure`, `disconnected`, `message`) overwrite `qr` and `status`, append
  to `logs`, or delete the entry.
- `GET /qr`, `GET /status`, `GET /messages/log` and `POST /send` look the entry up.
  `/send` strips the first `@c.us` from the recipient before it asks the
  provider for the number.

The project models this registry twice:

- `Registry` (registry.dfy) models it as values. Each route and each handler is
  a function from the map before to the map after, together with the route's
  answer.
- `Server.SessionRegistry` (server.dfy) is a class whose `sessions` field is the
  mutable map. It has one method per route or handler. Each method's
  postcondition ties the new map and the answer to the matching `Registry`
  function.

`Numbers` (numbers.dfy) models `to.replace('@c.us', '')`, which replaces only the
first occurrence. `Traces` (traces.dfy) folds event sequences over the registry.
Its lemmas prove what a session holds after any run of events, checked against
reference definitions that read the event sequence alone.

Modelling choices:

- The provider client is an opaque `ClientToken` passed to `/start`.
- A body field that is absent or `null` is `None`. The empty string is the only
  falsy string, so `/start` refuses it as well.
- The handlers are bound to the user id, not to the client. A late event from a
  client whose entry was deleted and re-created under the same id therefore acts
  on the new entry. Events in the model carry only the user id, so this is
  captured.
- `status` is assigned with no ordering guard. A late `qr` event after `ready`
  sets it back to `qrcode` (`Traces.RunSession` states the status is the one set
  by the *last* status-setting event).
- The `qr`, `authenticated`, `ready` and `auth_failure` handlers use the entry
  without checking that it exists, so on a missing entry they throw. The model
  reports this as the `Threw` outcome and leaves the map unchanged. The `message`
  handler checks first. `disconnected` on a missing entry is a no-op.
- `/qr` answers `session.qr || placeholder`, so an empty QR payload also yields
  the placeholder.
- In `/send`, a missing `to` makes `to.replace` throw inside the `try`, which
  gives the 500 answer (`SendFailed`). `getNumberId` is an oracle argument
  answering a serialised id, "not registered", or an exception. Whether
  `sendMessage` succeeded is a boolean argument.

`index.js` has no dispatch queue, typing pacing, pause set, webhooks, global
message registry, counters, ordering guard on `status` or separate pairing
states; none is modelled.

## Model

| member | source | states |
|---|---|---|
| `Numbers.IndexOf` | index.js:144 | the result is the first index where the pattern occurs (it occurs there, and nowhere before); no result exactly when the pattern does not occur |
| `Numbers.ReplaceFirst` | index.js:144 | `replace` with a string pattern: the string is unchanged when the pattern does not occur; otherwise one occurrence's length is swapped for the replacement's; which one and what the result holds: `ReplaceFirstAtFirst` |
| `Numbers.ReplaceFirstAtFirst` | index.js:144 | for any pattern and replacement, the first occurrence is the one replaced: `a + p + b` becomes `a + rep + b` when no occurrence starts inside `a`, whatever `b` holds |
| `Numbers.Normalise` | index.js:144 | no contract of its own: `to.replace('@c.us', '')` as `ReplaceFirst`; its properties are stated by `NormaliseFixedPoints`, `NormaliseLength`, `NormaliseRemovesFirst` (via `ReplaceFirstAtFirst`), `NormaliseChatId` and `NormaliseKeepsSecondSuffix` |
| `Numbers.NormaliseFixedPoints` | index.js:144 | the recipient comes back unchanged if and only if it does not contain `@c.us` |
| `Numbers.NormaliseLength` | index.js:144 | five characters shorter when `@c.us` occurs, same length otherwise |
| `Numbers.NormaliseRemovesFirst` | index.js:144 | when no occurrence starts before index \|a\|, `a + "@c.us" + b` becomes `a + b`, whatever `b` holds |
| `Numbers.NormaliseChatId` | index.js:144 | a chat id `<number>@c.us…` whose number has no `@` loses exactly that first suffix |
| `Numbers.NormaliseKeepsSecondSuffix` | index.js:144 | a doubled suffix keeps its second copy, so normalising twice differs from once (not idempotent) |
| `Registry.NewSession` | index.js:55 | no contract of its own: the record `{client, qr: null, status: 'starting', logs: []}`; `Registry.Start` states what the inserted record holds |
| `Registry.StatusText` | index.js:55-76 | no contract of its own: the five status strings assigned by `/start` and the handlers; `StatusTextInjective` states they are distinct and `StatusPage` answers them |
| `Registry.Start` | index.js:36-55 | missing or empty id is rejected; an active id is rejected; both leave the map unchanged; otherwise exactly one entry is added, `{client, qr: null, status: starting, logs: []}`, and other keys are untouched; no entry under "" is ever created |
| `Registry.Apply` | index.js:60-93 | the field assignments of the handlers other than `disconnected` (index.js:60-61, 66, 71, 76, 93): client kept; `qr` sets the payload and `qrcode`; the three status events set only `status`; `message` appends exactly one log at the end and keeps `status` and `qr` |
| `Registry.Handle` | index.js:57-96 | per event: `qr` sets qr and status `qrcode`; the three status events set only status; `message` appends exactly one log `{from, body, timestamp}` at the end; `disconnected` removes the entry; client is kept; no other key changes; the four status handlers throw (map unchanged) exactly when the entry is missing, `message` and `disconnected` then do nothing |
| `Registry.QrPage` | index.js:102-106 | not found exactly when there is no entry; the stored payload when non-empty; the fixed placeholder when it is null or empty |
| `Registry.StatusPage` | index.js:108-112 | not found exactly when there is no entry; otherwise the text of the stored status, and an answer naming a status's text means the entry holds that status |
| `Registry.StatusTextInjective` | index.js:55-76 | the five status strings are distinct, so the `/status` text determines the status |
| `Registry.LogPage` | index.js:114-120 | the session's in-memory logs when it is active; the disk fallback exactly when it is not |
| `Registry.Send` | index.js:134-157 | "not active" exactly when the id is absent or has no entry; a send happens exactly when the entry exists, `to` is present, the lookup of the normalised number finds an id and the send succeeds, and it goes through that session's client to that id with the given text; 404 exactly when the lookup says not registered |
| `Traces.RunKeys` | index.js:79-82 | events never create entries: after any event sequence the keys are the original ones minus those disconnected |
| `Traces.RunIsolation` | index.js:57-96 | events bound to other user ids leave an entry's presence and record unchanged |
| `Traces.RunSession` | index.js:57-96 | until disconnected, a session's record after any events is the reference replay: same client, last QR payload, status of the last status-setting event, earlier logs followed by the received messages in order |
| `Traces.HistoryAfterStart` | index.js:55-96 | after a successful start and events that do not disconnect it: qr is the last payload (null if none), status the last one set (`starting` if none), logs exactly the received messages in order |
| `Traces.DisconnectThenLookups` | index.js:79-82 | after `disconnected`: `/qr` and `/status` answer not found, `/messages/log` falls back to disk, `/send` answers not active, and a new `/start` for the id is accepted with a fresh record |
| `Server.SessionRegistry.constructor` | index.js:15 | the registry starts empty |
| `Server.SessionRegistry.Start` | index.js:36-55 | the map and answer after `/start` are those of `Registry.Start`; no entry under "" |
| `Server.SessionRegistry.HandleQr` | index.js:57-62 | the map and outcome after the `qr` handler are those of `Registry.Handle` for that event |
| `Server.SessionRegistry.HandleReady` | index.js:64-67 | the map and outcome after the `ready` handler are those of `Registry.Handle` |
| `Server.SessionRegistry.HandleAuthenticated` | index.js:69-72 | the map and outcome after the `authenticated` handler are those of `Registry.Handle` |
| `Server.SessionRegistry.HandleAuthFailure` | index.js:74-77 | the map and outcome after the `auth_failure` handler are those of `Registry.Handle` |
| `Server.SessionRegistry.HandleDisconnected` | index.js:79-82 | the map after the `disconnected` handler is that of `Registry.Handle`: the entry deleted |
| `Server.SessionRegistry.HandleMessage` | index.js:84-96 | the map after the `message` handler is that of `Registry.Handle`: one log appended if the entry exists |
| `Server.SessionRegistry.GetQr` | index.js:102-106 | answers `Registry.QrPage` of the current map; not found exactly when there is no entry |
| `Server.SessionRegistry.GetStatus` | index.js:108-112 | answers `Registry.StatusPage` of the current map (the status text); not found exactly when there is no entry |
| `Server.SessionRegistry.GetLogs` | index.js:114-120 | answers `Registry.LogPage` of the current map |
| `Server.SessionRegistry.PostSend` | index.js:134-157 | answers `Registry.Send` of the current map; not active exactly when the id has no entry, in particular for the empty id, which the registry invariant keeps out |
| `Server.Lifecycle` | index.js:36-112 | a start, QR, ready, message, disconnect scenario: each answer is as the routes promise, a second start is refused, and a late `ready` after disconnect throws |

## Left out

- HTTP routing and responses (index.js:1-13, 159-161): each route returns an outcome value. Status codes and response texts are not modelled, beyond the QR placeholder.
- Provider client operations: `new Client(...)`, `LocalAuth` and `client.initialize()` (index.js:48-53, 98) are foreign calls. The client is an opaque token passed in. `getNumberId` and `sendMessage` (index.js:145-151) are inputs to `/send`.
- UUID generation (index.js:47): the id only reaches `LocalAuth` and is never stored in the registry.
- Log files: `getLogFilePath`, `loadLogs`, `saveLogs`, the `await saveLogs` in the message handler and the disk branch of `/messages/log` (index.js:19-34, 94, 122-131) are file I/O. `LogPage` only says when the disk is consulted.
- Clock and console: the `toISOString()` timestamp (index.js:88) is a parameter of the message handler. `console.log`/`console.error` and the `qrcode-terminal` output are side effects only.
- Concurrency: each route and each event is an atomic step. Interleavings around `await` are not modelled.
- Non-string body values: a missing `message` field (passed on to `sendMessage` as `undefined`; `text` is always a string here), a numeric or object `userId`/`to` (e.g. `/start` accepting the number 5, which `/qr/5` then cannot find, or a non-string `to` making `replace` throw) are not modelled. Ids are strings or absent.
- What a thrown handler does to the process: the model records `Threw` and leaves the map unchanged, which is what the handlers themselves do before throwing.
