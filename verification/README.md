# Gateway session and replay buffer of a puzzle-game client

This project models two pieces of a client for a real-time puzzle-game server:

- **The gateway session** (`Gateway`, file `gateway.dfy`; source `src/managers/WebsocketManager.ts`). Every inbound binary frame is classified by its first byte:
  - `0x45` (standard) decodes everything after the tag.
  - `0xAE` (extracted id) skips four header bytes and reports id 174.
  - `0x58` (batch) decodes everything after the tag and is relabelled as a standard packet that records 4-byte lengths.
  - `0xB0` (extension) asks for a heartbeat when its body is exactly `0x0C`. It returns without dispatching anything.

  A dispatched envelope is first emitted to subscribers. Then the request-id counter becomes the envelope's truthy `id` plus one. Last comes the handshake reply: `hello` is answered with `authorize`, and `authorize` with `social.presence`. On open, the session sends `new` and starts a 5000 ms heartbeat timer. Each timer, when it fires, sends the raw ping `B0 0B`.
- **The replay buffer** (`Replay`, file `replay.dfy`; source `src/client/ClientPlayer.ts`). A player starts with a `full` state frame followed by a `start` frame. `hardDrop` queues a `keydown` frame. `replay` first cancels the pending replay timer. It then drains the queue into one `replay` message, in which every frame carries the flush counter read before its increment, and finally starts a single new replay timer at 500 ms.

Both sources are imperative, so each is a class:

- `Gateway.WebsocketManager` has three fields:
  - `id`: the counter, which starts at 1.
  - `effects`: one ordered log of emits, sends, raw sends and timer starts.
  - `pendingHeartbeats`: the number of timers started but not yet fired.

  Its `Receive` method is proved against the pure function `Gateway.ReceiveStep`. The properties are proved as lemmas about that function and about `Gateway.Run`, which threads the counter through a sequence of frames.
- `Replay.ClientPlayer` keeps these fields:
  - `frames`, the queue.
  - `frameCount`.
  - `replayTimeout`, the delay of the one pending timer.
  - `lastFrame`.
  - `outbox`, the `replay` messages sent.
  - a ghost `history` of every frame ever queued.

  Its invariant says that no frame is lost or reordered: the frames sent, in order, followed by the frames still pending, equal `history`. It also says that flush number `i` carries counter `i`.

The MessagePack decoder is a parameter `decode: seq<byte> -> Option<Envelope>` about which nothing is assumed. `None` stands for the codec throwing.

The model follows the code as written. Points a reader might not expect:

- **Counter.** The counter is set to `id + 1` whatever its previous value (src/managers/WebsocketManager.ts:103). It is therefore not monotonic: `Gateway.CounterCanDecrease` shows it moving down.
- **Order of effects.** The emit (:93-101) happens before the counter update (:103), and the handshake reply (:105-121) comes after both.
- **Heartbeat timers.** Each heartbeat call starts a new `setTimeout` and discards its handle (:133-137), so nothing ever cancels an earlier timer and pending timers accumulate.
- **Unknown or missing tag.** A frame with an unknown tag byte, or with no tag byte at all, keeps the placeholder packet with `null` data (:59). The handler logs it (:91) and then throws when it reads `packet.data.command` (:94). The model returns an error and has no effect.
- **Batch frames.** A batch frame is decoded as one payload and only records `lengths: 4` (:75-81); it is never split into sub-payloads.

The `type` field of packets and frames is called `kind`, because `type` is a Dafny keyword.

## Model

| member | source | states |
|---|---|---|
| `Gateway.Classify` | src/managers/WebsocketManager.ts:58-89 | An empty frame or an unknown tag is an error. An extension result occurs exactly when the tag is `0xB0`. A dispatched packet is always labelled `0x45` or `0xAE`, never batch or extension. A codec failure never occurs on an extension frame. |
| `Gateway.StandardFrame` | src/managers/WebsocketManager.ts:62-67 | For every body, `[0x45] + body` gives a packet of type `0x45`, with no id and no lengths, whose envelope is `decode(body)`. A codec failure gives an error. |
| `Gateway.ExtractedIdFrame` | src/managers/WebsocketManager.ts:68-74 | For any 4 header bytes and any body, `[0xAE] + header + body` gives a packet of type `0xAE` with id 174 whose envelope is `decode(body)`. Exactly the 4 header bytes are skipped, whatever they hold. |
| `Gateway.BatchFrame` | src/managers/WebsocketManager.ts:75-81 | `[0x58] + body` decodes `body` whole. The packet is labelled `0x45`, not `0x58`, and records `lengths = 4`. |
| `Gateway.Dispatch` | src/managers/WebsocketManager.ts:93-122 | The first effect is the emit of `(command, data)`. With a truthy id k, the counter becomes k+1 whatever it was; otherwise it is unchanged. `hello` adds exactly one `authorize`, which carries the already-updated counter, the token and handling verbatim, and commit `2d05c95`. `authorize` adds exactly one `social.presence` with status `online` and detail `""`. Any other command adds nothing. |
| `Gateway.ReceiveStep` | src/managers/WebsocketManager.ts:82-108 | An extension frame never changes the counter and emits or sends nothing. It starts exactly one 5000 ms heartbeat timer if and only if the frame is `[0xB0, 0x0C]`. Any other successful frame emits first, and everything after the emit is a send. No frame sends a ping directly, and only `[0xB0, 0x0C]` starts a timer. |
| `Gateway.RunKeepsIdWithoutServerIds` | src/managers/WebsocketManager.ts:103 | Over any sequence of frames, none of which carries a truthy id, the counter ends where it started, however many messages were sent. |
| `Gateway.CounterCanDecrease` | src/managers/WebsocketManager.ts:103 | A frame whose id k satisfies k+1 below the counter succeeds and lowers the counter, so the counter is not monotonic. |
| `Gateway.ExtractedIdLeavesCounter` | src/managers/WebsocketManager.ts:68-74 | An extracted-id frame whose envelope has no truthy id succeeds and leaves the counter unchanged. The reported id 174 never reaches the counter. |
| `Gateway.HandshakeFromHello` | src/managers/WebsocketManager.ts:105-121 | From the initial counter 1, a `hello` frame followed by an `authorize` frame produces exactly these effects, in order: emit `hello`, send `authorize` (id 1, token, handling, commit), emit `authorize`, send `social.presence("online", "")`. |
| `Gateway.NoTimerEffects` | src/managers/WebsocketManager.ts:93-121 | A log made only of emits and encoded sends starts no heartbeat timer and sends no ping. |
| `Gateway.TallyAppend` | src/managers/WebsocketManager.ts:133-137 | The number of timer starts and the number of pings in a log both add up over concatenation. This is what keeps the heartbeat invariant. |
| `Gateway.WebsocketManager.constructor` | src/managers/WebsocketManager.ts:30-32 | The counter starts at 1, with an empty log and no pending timer. |
| `Gateway.WebsocketManager.Send` | src/managers/WebsocketManager.ts:125-131 | Appends exactly one encoded send of the message and changes nothing else. |
| `Gateway.WebsocketManager.Heartbeat` | src/managers/WebsocketManager.ts:133-138 | Appends one timer start with the given delay and adds one pending timer. Earlier timers stay pending. |
| `Gateway.WebsocketManager.HeartbeatFires` | src/managers/WebsocketManager.ts:134-137 | A pending timer fires: the raw bytes `B0 0B` are sent unencoded, and there is one pending timer fewer. The invariant that pending timers plus pings equal timer starts holds. |
| `Gateway.WebsocketManager.Identify` | src/managers/WebsocketManager.ts:140-152 | Appends exactly one `authorize` send, with the current counter, the token and the handling verbatim, and commit `2d05c95`. |
| `Gateway.WebsocketManager.OnOpen` | src/managers/WebsocketManager.ts:38-46 | Appends exactly a send of `new` (no id) and then one 5000 ms timer start. The counter is unchanged. |
| `Gateway.WebsocketManager.Receive` | src/managers/WebsocketManager.ts:58-123 | On a frame the handler rejects, it returns the error and changes nothing. Otherwise the counter and the appended effects are exactly those of `ReceiveStep`, and the pending heartbeat count grows by exactly the timers that step starts. The heartbeat invariant is kept. |
| `Replay.FullStateCopies` | src/client/ClientPlayer.ts:94-106 | In the initial full state, `stats.seed`, `game.g`, `game.handling`, `game.bag` and `options` are the player's own values. |
| `Replay.FullStateBoard` | src/client/ClientPlayer.ts:101-103 | The initial board has `boardHeight + boardbuffer` rows, each of `boardWidth` nulls. |
| `Replay.FullStateKeepsTemplate` | src/client/ClientPlayer.ts:5-85 | Every top-level entry of the state template other than `options`, `stats` and `game` appears unchanged. Every `stats` entry other than `seed`, and every `game` entry other than `bag`, `board`, `g` and `handling`, keeps its template value. |
| `Replay.Stamp` | src/client/ClientPlayer.ts:144-146 | Stamping keeps the count and the order. Each frame keeps its type and data and gains `frame = n`. |
| `Replay.UnstampStamp` | src/client/ClientPlayer.ts:144-146 | Removing the stamps gives back exactly the drained frames, so nothing is lost. |
| `Replay.FlattenAppend` | src/client/ClientPlayer.ts:141-150 | The frames sent after one more `replay` are the earlier ones followed by that message's frames. |
| `Replay.ClientPlayer.constructor` | src/client/ClientPlayer.ts:88-110 | Pending frames are exactly `full` (with the player's initial state) then `start` (`{}`). The counter is 0, nothing has been sent and no timer is pending. |
| `Replay.ClientPlayer.Replay` | src/client/ClientPlayer.ts:136-157 | The queue ends up empty, and exactly one message is sent. Its frames are the drained frames, in order, each stamped with the pre-increment counter, and its `provisioned` is that same counter. This holds also when the queue was empty. The counter grows by exactly 1, a single 500 ms timer is pending, and the no-loss invariant is kept. |
| `Replay.ClientPlayer.ReplayTimerFires` | src/client/ClientPlayer.ts:154-156 | When the pending replay timer fires, the same flush happens and a new single timer is pending. |
| `Replay.ClientPlayer.HardDrop` | src/client/ClientPlayer.ts:159-164 | Appends exactly one `keydown` frame with key `hardDrop` at the end of the queue. Earlier frames, the counter and the outbox are unchanged. |

## Left out

- Socket construction, the `onmessage` wiring and real sends are I/O. A send is an entry in the effect log or in the outbox.
- Socket send failures are not modelled. `send` catches its exceptions and logs them, and the raw heartbeat send does not catch them.
- MessagePack encoding and decoding are done by an external library, so no codec round-trip is proved. Decoding is an arbitrary function parameter, and an outbound message is recorded before encoding.
- The model assumes a decoded payload is an envelope with a string `command` and an integer or absent `id`. A payload that decodes to some other value is folded into the codec-error case. This covers `null`, a number, or an `id` that is not a number, where `id + 1` would concatenate strings.
- What happens after a handler throws is not modelled, since the exception propagates out of the message listener. `Gateway.Run` stops at the first frame that throws.
- Event-emitter internals are not modelled. This includes the subscribers' own reactions and the emitter throwing on an unhandled `error` event. An emit is an entry in the effect log.
- Timer timing is not modelled. Heartbeat timers are a pending count, and the replay timer is the delay of the one pending timer, if any.
- The clock is not modelled: `Date.now` is the `now` parameter of `Replay`. The `subframe` getter, which divides floating-point numbers, is not modelled either: `HardDrop` takes the subframe value as a parameter.
- Replay.Player: `boardbuffer` and `handling` are separate fields beside `playerOptions`, though the source reads both out of that same object (src/client/ClientPlayer.ts:102, :105). The model does not require them to agree with the corresponding entries of `playerOptions`, and does not capture that they are one shared object.
- Numbers are mathematical reals. Board dimensions are naturals, so the range error that `new Array` raises on a negative or fractional length is not modelled.
- All rows of the initial board are one shared array in the source. The model is value-based and does not capture that sharing.
- `src/ws/WebSocketManager.ts`, the send path that the player's constructor receives, is not part of this model. The player's sends are appended to its own `outbox`.
- `console.log`/`console.error`, the `try/catch` in `connect`, and the typed `on("start")` overload are not modelled.
