# Lobby registry of the websocket game server

`server.py` runs a small multiplayer lobby over a websocket at `/ws`. The
process keeps three pieces of shared state on `app.state`:

- `players`: user id to (websocket, slot label);
- `slots`: slot label to user id;
- `game_started`: a flag.

Every connection runs `websocket_endpoint` through three phases.

- **Admission.** The user id comes from the `uid` query parameter. When that
  is missing or empty, a uuid is minted and announced with
  `ASSIGN_ID <id>`. A known id reconnects: it keeps its slot, takes the new
  websocket and hears `JOINED <slot>`. Once the game has started, an unknown
  id hears `FULL` and is closed. Before that, an unknown id takes slot
  `len(players) + 1`, labelled `"{n}P"`, and hears `ASSIGN_ID <id>` and
  then `JOINED <slot>`.
- **Receive loop.** A frame `START` from the player holding `"1P"` sets
  `game_started`. It then sends `GAME_START <n> players` to every player's
  websocket, in the dict's insertion order. Any other frame is ignored.
- **Disconnect.** `WebSocketDisconnect` ends the loop and nothing is removed.

The model has four modules.

- `Decimal` renders naturals as `str(n)` does. It builds the labels
  `"{k}P"` and proves both injective.
- `Protocol` defines connections, the four server messages and their text,
  and proves that the text determines the message.
- `Lobby` is the state as a value. `Admit`, `OnMessage`, `Step` and `Run`
  apply single events and event sequences. `Inv` is the invariant every
  reachable state keeps. The lemmas cover admission, START and any sequence
  of events.
- `Server.Registry` is the shared state as an object. Its map fields and
  flag are updated in place, and an `outbox` records every `send_text` in
  order. Each method is proved to produce exactly the state and messages of
  the `Lobby` function, and to keep `Inv`.

Some modelling choices:

- The insertion order of the `players` dict is kept as the sequence `order`.
- A slot is stored as its number `k` and shown as `Label(k)`. Because
  `Label` is injective, keying `slots` by number gives the same table as
  keying it by label.
- The comment on `players` at `server.py:9` describes a dict with a
  `connected` field. The code stores `(websocket, slot)` pairs, and the
  model follows the code.
- Two behaviours are modelled as written:
  - a connection without `uid` hears `ASSIGN_ID` twice, once at line 26
    and once at line 45;
  - a repeated START from `"1P"` broadcasts again.

## Model

| member | source | states |
|---|---|---|
| Decimal.NatToString | server.py:42 | `str(n)`: at least one digit, all characters digits, one digit exactly below ten, a leading `0` only for zero |
| Decimal.NatToStringInjective | server.py:42 | distinct numbers render to distinct strings |
| Decimal.Label | server.py:41-42 | the label `f"{k}P"` is at least two characters long and ends in `P` |
| Decimal.LabelInjective | server.py:41-44 | two slot numbers share a label only if they are equal, so slot labels are unique keys |
| Decimal.FirstLabel | server.py:53 | `"1P"` is the label of slot 1 and of no other slot |
| Protocol.Text | server.py:26 | each message's text starts with the letter of its kind (`A`, `J`, `F`, `G`) |
| Protocol.TextInjective | server.py:26-57 | a client can recover the exact message from its text (`ASSIGN_ID`, `JOINED`, `FULL`, `GAME_START n players`) |
| Lobby.Init | server.py:9-11 | the initial state keeps the invariant, with no players, no slots and the game not started |
| Lobby.SlotsMirrorPlayers | server.py:41-44 | in every valid state: as many slots as players, each player's slot maps back to that player, labels are pairwise distinct, and the slots in use are exactly 1..n |
| Lobby.HoldsFirstSlot | server.py:41-44 | a player holds `"1P"` exactly when it was admitted first |
| Lobby.AdmitPreservesInv | server.py:22-46 | admission keeps the invariant linking `players`, `slots` and the admission order |
| Lobby.AdmitKnown | server.py:29-32 | a known id reconnects even after the start: admitted, same slot, only its connection replaced, nothing else changes, and the message is `JOINED <slot>` (after `ASSIGN_ID` when the id was minted) |
| Lobby.AdmitRefused | server.py:35-38 | after the start an unknown id is refused with `FULL` (after `ASSIGN_ID` when minted) and the state is unchanged |
| Lobby.AdmitNew | server.py:41-46 | before the start an unknown id gets slot `len(players)+1`, which no one holds and whose label differs from every existing one; exactly one player and one slot are added; the messages are `ASSIGN_ID` then `JOINED`, with `ASSIGN_ID` sent twice when the id was minted |
| Lobby.Broadcast | server.py:56-57 | one `GAME_START n players` per player, in insertion order, to that player's connection |
| Lobby.BroadcastReachesAll | server.py:56-57 | the START broadcast reaches every registered player's connection, with one message per player, and sends nothing but `GAME_START n players` |
| Lobby.OnMessageSpec | server.py:49-57 | START is accepted exactly from the first admitted player, also after the start; acceptance sets the flag, changes nothing else and notifies everyone; any other frame changes nothing and sends nothing |
| Lobby.Step | server.py:22-60 | every event (connect, frame, disconnect) keeps the invariant |
| Lobby.Run | server.py:22-60 | any sequence of events keeps the invariant |
| Lobby.StepMonotone | server.py:29-46 | one event never removes a player or moves one to another slot, adds at most one player and none after the start, only extends the order and slot table, and never clears the flag |
| Lobby.RunMonotone | server.py:22-60 | over any sequence of events, players, slots and admission order only grow, slots never move, and `game_started` never returns to false |
| Lobby.StartOnlyByFirst | server.py:53-54 | the flag goes up only on a START frame from the first admitted player |
| Lobby.ReachableLabels | server.py:9-60 | from the initial state, after any events: the slots are exactly 1..n, pairwise distinct in label, and map back to their players |
| Server.Registry.constructor | server.py:9-11 | the registry starts empty and valid, with nothing sent |
| Server.Registry.Connect | server.py:22-46 | updates `players`, `slots` and the order in place exactly as `Admit` says, appends exactly `Admit`'s messages to the outbox, returns the resolved id and whether the loop is entered, and keeps the invariant |
| Server.Registry.ResolveUser | server.py:22-26 | the id is `uid`, or the minted one when `uid` is missing or empty, and only in that case is `ASSIGN_ID` sent |
| Server.Registry.Rejoin | server.py:29-32 | a known id gets the new connection under its old slot and is sent `JOINED <slot>` |
| Server.Registry.Register | server.py:41-46 | an unknown id is stored under slot `len(players)+1` in `players` and `slots` and is sent `ASSIGN_ID` then `JOINED`; the invariant is kept |
| Server.Registry.Receive | server.py:49-57 | one frame changes the state and the outbox exactly as `OnMessage` says |
| Server.Registry.Announce | server.py:56-57 | the loop appends exactly `Broadcast` of the current players, in insertion order |
| Server.Registry.Disconnect | server.py:59-60 | a disconnect changes neither the state nor the outbox |

## Left out

- The `GET /` handler (`server.py:13-16`) reads `index.html` from disk. It is file I/O and is not part of this model.
- Starting uvicorn (`server.py:63-64`) is process start-up and is not modelled.
- `websocket.accept()`, `receive_text()` and `close()` are not modelled. The outbox records messages in the order they are sent, but not their delivery.
- No failure of `send_text` is modelled: `Lobby.Broadcast`, `Server.Registry.Announce` and `Lobby.Admit` assume every send returns. In the source, nothing removes a player, so a later START also sends to stale connections (`server.py:56-57`). A send that raises there leaves the `for` loop, and the players after it in insertion order get no `GAME_START`. The same exception also ends the starter's handler: it is caught at `server.py:59` when it is a `WebSocketDisconnect` and propagates otherwise. A send that fails at `server.py:26` ends the handler before the membership check, so that user is never registered, whereas `Admit` registers it.
- `uuid.uuid4()` is a parameter (`minted`). No freshness is assumed. The source only tests membership after minting, and so does the model.
- Concurrency is left out: each event is applied atomically. In the source, every check is followed by its write with no `await` in between, so the state each event leaves is as modelled:
  - the membership test and the reconnect at `server.py:29-31`;
  - the flag test and the registration at `server.py:35-44`;
  - the START test and setting the flag at `server.py:53-54`.

  What is not captured is the interleaving of messages at an `await`. A new id cannot be admitted during a broadcast, because the flag is already set before the first `await` at `server.py:57`. A reconnect can run during a broadcast (`server.py:29-31`): it swaps the websocket of a player the loop has not reached yet, and the broadcast then sends to the new connection.
- Lobby.Step: a frame for a user that was never admitted cannot arrive in the source, because the loop runs only after admission. The model treats it as a no-op.
- Server.Registry.Connect: FULL followed by `close()` and `return` is modelled as `admitted == false`. The closing itself is not modelled.
