# Chat relay: connection registry and broadcast, in Dafny

This project models the two relay cores of a small WebSocket chat demo and proves what they promise.

- `handler.dfy` (module `Handler`) is the serverless form in `src/handler.ts`. The connections table is a class `ConnectionTable` whose field `ids: set<string>` holds the stored connection IDs. Its `Put`, `Delete` and `Scan` stand for the key-value store's commands, and each takes a boolean that says whether that call fails. On top of the table sit three handlers:
  - `Connect` (`$connect`) stores the ID. It answers 200 "Connected.", or 500 "Failed to connect." when the put fails.
  - `Disconnect` (`$disconnect`) deletes the ID, whether or not it is stored. It answers 200, or 500 when the delete fails.
  - `SendMessage` (`$default`) works in this order:
    - it refuses an absent or empty body with 400;
    - it scans the table and answers 500 if the scan fails;
    - it posts the body to every scanned ID except the sender's;
    - for a post that fails with status code 410 ("Gone") it deletes that ID;
    - it logs any other failure and keeps the ID.

  The broadcast answers 200 "Message sent." unless one of those eviction deletes fails. Then the joined fan-out rejects and the answer is 500 "Failed to send messages.". The answers of the delivery provider are an injected function `outcome` from target ID to `PostOutcome` (`Posted`, or `Failed` with an optional status code). `IsGone` is the 410 test. The deletes' failures are another injected function, `deleteFails`.
- `server.dfy` (module `Server`) is the in-process form in `src/server.ts`. A client is its socket identity with its ready state. The `client.send` calls a handler makes are returned as a log of `Send(to, data)`. `Broadcast` is the reference definition of the `message` handler's filter: every client except the sender, and only open ones, in the order the server's client set is visited. `OnMessage` is the loop itself. `OnEvent` dispatches the four socket events.
- `collections.dfy` (module `Collections`) holds `Distinct`, `Elements` and the fact that a duplicate-free sequence has as many elements as its set.

`StaleConnectionScenario` in `handler.dfy` works through one concrete case. The table is {A, B, C} and A sends "hi". The post to B succeeds and C is gone. Afterwards the table is {A, B}, the answer is 200, and a late `$disconnect` of C still succeeds.

The relay's design intent is that a broadcast never fails as a whole because of one bad peer. The code has one exception, and the model follows the code. A post that fails with 410 triggers a delete inside the per-target task. If that delete throws, the task rejects, `Promise.all` rejects, and the handler answers 500. The model says exactly this: `SendMessage` answers `FailedToSend` if and only if some target reported Gone and its delete failed. Every other target is still attempted in that case.

## Model

| member | source | states |
|---|---|---|
| Handler.ConnectionTable.Put | src/handler.ts:20-23 | a put that does not fail adds the ID to the table (a no-op for a stored ID); a failing put leaves the table unchanged |
| Handler.ConnectionTable.Delete | src/handler.ts:38-41 | a delete that does not fail removes the ID, and deleting an absent ID is not an error; a failing delete leaves the table unchanged |
| Handler.ConnectionTable.Scan | src/handler.ts:74-77 | a scan fails exactly when the store fails; otherwise it returns every stored ID exactly once and nothing else |
| Handler.Connect | src/handler.ts:15-28 | a put that does not fail leaves the ID in the table and answers 200 "Connected."; a failing put answers 500 "Failed to connect." with the table unchanged |
| Handler.Disconnect | src/handler.ts:33-46 | a delete that does not fail leaves the ID absent, stored or not, and answers 200 "Disconnected."; a failing delete answers 500 "Failed to disconnect." with the table unchanged |
| Handler.ConnectThenDisconnectTwice | src/handler.ts:15-46 | after a successful connect a scan lists the ID; two disconnects in a row both answer 200; afterwards a scan omits the ID and the table is the old one without it |
| Handler.SendMessage | src/handler.ts:51-129 | an absent or empty body answers 400 with no post and no table change; a failed scan answers 500 with no post and no table change; otherwise the body is posted unchanged to exactly the stored IDs other than the sender, each once, even when the sender is not stored; the table loses exactly the targets whose post failed with 410 and whose delete succeeded; the sender and every target whose post did not report 410 stay; the answer is 500 exactly when an eviction delete failed and 200 otherwise, including when there are no targets |
| Handler.PostCount | src/handler.ts:92-105 | a list of posts that covers a set of targets with no target repeated has exactly one post per target |
| Server.BroadcastSends | src/server.ts:26-30 | a message causes a send to a socket exactly when that socket is an open client other than the sender, and every send carries the inbound string |
| Server.SenderReceivesNothing | src/server.ts:27 | the sender is never sent its own message, whatever its ready state |
| Server.ClosedClientReceivesNothing | src/server.ts:27 | a client that is not open is sent nothing |
| Server.OpenPeerReceives | src/server.ts:26-28 | every open client other than the sender is sent the inbound string |
| Server.BroadcastOnce | src/server.ts:26-28 | when the client set holds distinct sockets, no socket is sent the message twice |
| Server.OnMessage | src/server.ts:21-31 | the sends the `message` handler's loop makes are exactly the reference broadcast: each open client other than the sender, in visiting order, sent `message.toString()` |
| Server.OnEvent | src/server.ts:17-44 | a new connection is sent exactly the welcome string and no other client is sent anything; a message is broadcast; `close` and `error` send nothing |

## Left out

- The AWS SDK commands (put, delete, scan, post to connection) are modelled as abstract outcomes only. The model does not cover their library behaviour, retries or wire format.
- Scan pagination is not modelled. A store scan that stops after one page would miss IDs, and the source does not follow the continuation key. The model's `Scan` returns the whole table.
- The endpoint URL built from the request context (src/handler.ts:85-89), environment variables and the module-level client setup are configuration only.
- All `console.*` logging is left out, including the log entry for a post failure other than 410, which is the only thing that branch does.
- The 400 "Invalid message format." branch (src/handler.ts:63-66) is not modelled. Nothing in its `try` can throw, so it cannot be reached.
- `Promise.all` runs the posts in parallel, and `ws` schedules events; both are modelled as sequential loops. Each per-target step touches only its own target. Other requests that change the table during a broadcast are not modelled.
- The ordering in which `Promise.all` settles is not modelled. When several eviction deletes fail, the model answers 500, as the source does.
- The membership of the server's client set is maintained by the `ws` library and is taken as an input to each event. `message.toString()` is the identity on the modelled string, because a raw-buffer payload is not modelled.
- Express static hosting and `listen` (src/server.ts:5-13), local-frontend-server.js, src/client.ts and public/client.js are I/O bootstrap and browser UI code. They are not part of this model.
- Server.BroadcastOnce: assumes the client set holds distinct sockets, as the server's client `Set` does; a sequence with repeated sockets would send twice.
