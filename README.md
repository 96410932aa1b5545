# Lobby consumer of the websocket drawing game, in Dafny

This project models `GameConsumer`, the Django Channels websocket consumer that runs the
game's single lobby (room `"global"`). Every connection gets a consumer. On `connect` the
consumer subscribes to the channel-layer group `game_global` and reads the `nickname`
query parameter. It closes the connection when the nickname is empty or longer than 16
characters. Otherwise it is meant to store the player in Redis and broadcast the lobby.
As written, it does so only for the reserved nickname "dof" (in any letter case). For every
other valid nickname it raises before storing anything (see "Findings"). The model has both
handlers: `connect` as written, and the corrected `connect` that computes the flag for every
nickname.

The store holds three keys for the room:

- the hash `room:global:players`, from channel name to the player's record;
- the admin pointer `room:global:admin`;
- the game state `room:global:state`.

The first player to join an empty room becomes admin. When the admin disconnects, the
first remaining key of the hash takes over; when nobody is left the pointer is deleted.
Only the admin's `{"action": "start_game"}` message sets the state to `"drawing"` and sends
`game_start` to the group. Every join and every disconnect broadcasts a `lobby_state`
event: one `{nickname, is_admin}` entry per stored player.

The model has two layers:

- `Lobby` describes the room as a value, `RoomState`. It holds the players map, the field
  order of the hash (`keyOrder`, the order `hkeys`/`hgetall` report), the admin pointer,
  the state key, the set of group subscribers and the log of every `group_send`
  (`outbox`, each entry recording its recipients). Each handler is a function from the
  room before to the room after.
- `Consumers` does the same work in place. Class `Room` is the shared store and group;
  class `GameConsumer` is one connection's consumer with the fields `connect` assigns.
  Every method is proved to leave `Room.State()` equal to the matching `Lobby` function.

`LobbyProofs` proves what the handlers promise about those functions. `Keys` holds the
key and group names and proves the keys never collide.

Modelling choices:

- A channel name (`ConnId`) is a non-empty string. The channel layer never issues an
  empty one, so the consumer's `if not admin` test means "the admin key is unset".
- Redis calls are atomic steps on plain fields, and handlers run one at a time, each to
  completion (`Lobby.Run`, and `Lobby.RunAsWritten` with `connect` as written).
- Nickname length counts Unicode code points, as Python's `len` does.

In these places the model follows what the code does rather than what one might expect:

- The game state is the string stored under `room:global:state`. The code only ever
  writes `"drawing"` and never writes a lobby value, so `phase` is `None` or
  `Some("drawing")`. There is no enum.
- `group_add` runs before nickname validation, so a rejected connection stays
  subscribed to the group without a player record (`RejectedOpenOnlySubscribes`). Only
  the reverse inclusion holds: every player is subscribed (`RoomInvariant`).
- The replacement admin is not arbitrary. It is the first key `hkeys` returns after the
  `hdel`.
- A message that is not valid JSON makes `receive` raise; it is not silently ignored.
  The model takes the decoded message as input.
- The reserved-nickname flag is not part of the stored record. See "Findings".

## Model

| member | source | states |
|---|---|---|
| `Keys.StoreKeysDistinct` | play/play/consumers.py:41-45 | the players key, the admin key and the state key never coincide, for any two room ids |
| `Keys.RoomKeysInjective` | play/play/consumers.py:41-45 | two rooms with the same players (admin, state) key have the same id |
| `Lobby.Without` | play/play/consumers.py:66-69 | the hash's field order after `hdel` holds exactly the other keys, still without duplicates |
| `Lobby.JoinRoom` | play/play/consumers.py:47-61 | storing a player keeps the hash's field order a duplicate-free listing of its keys |
| `Lobby.LeaveRoom` | play/play/consumers.py:63-79 | removing a player keeps the hash's field order a duplicate-free listing of its keys |
| `Lobby.OpenSession` | play/play/consumers.py:12-36 | `connect` (with the flag computed for every nickname) leaves a consistent store |
| `Lobby.OpenSessionAsWritten` | play/play/consumers.py:12-36 | `connect` as written leaves a consistent store whether it closes, raises or joins |
| `Lobby.CloseSession` | play/play/consumers.py:151-159 | `disconnect` leaves a consistent store |
| `Lobby.Subscribe` | play/play/consumers.py:16-19 | `group_add`; what it changes is stated by `Consumers.Room.GroupAdd` and `LobbyProofs.RejectedOpenOnlySubscribes` |
| `Lobby.Unsubscribe` | play/play/consumers.py:154-157 | `group_discard`; stated by `Consumers.Room.GroupDiscard` and `LobbyProofs.CloseSessionBroadcastExcludesLeaver` (the leaver receives nothing) |
| `Lobby.Send` | play/play/consumers.py:131-137 | `group_send`; stated by `Consumers.Room.GroupSend` and `LobbyProofs.BroadcastSendsView` |
| `Lobby.StartGame` | play/play/consumers.py:94-110 | `try_start_game`; stated by `LobbyProofs.StartGameAuthorisation` |
| `Lobby.Dispatch` | play/play/consumers.py:84-89 | `receive`; stated by `LobbyProofs.DispatchOnlyStartGame` |
| `Lobby.LobbyView` | play/play/consumers.py:118-129 | the `players` list; stated by `LobbyProofs.LobbyViewOnePerPlayer`, `LobbyProofs.LobbyViewAdminFlags` and `Consumers.Room.CollectLobbyEntries` |
| `Lobby.Broadcast` | play/play/consumers.py:115-137 | `broadcast_lobby_state`; stated by `LobbyProofs.BroadcastSendsView` |
| `Lobby.NicknameOf` | play/play/consumers.py:22-23 | the nickname query parameter, "" when missing; stated by `LobbyProofs.NicknameBoundary` |
| `Lobby.Rejected` | play/play/consumers.py:25-27 | the nickname validation; stated by `LobbyProofs.NicknameBoundary` |
| `Lobby.Upper` | play/play/consumers.py:28 | the upper-casing of the nickname (ASCII letters only); stated by `LobbyProofs.FlaggedSpellings` |
| `Lobby.IsFlagged` | play/play/consumers.py:28 | the reserved-nickname test; stated by `LobbyProofs.FlaggedSpellings` |
| `Lobby.FlagAsWritten` | play/play/consumers.py:28-29 | the flag after those lines as written; stated by `LobbyProofs.OnlyFlaggedNamesJoinAsWritten` |
| `Lobby.Apply` | play/play/consumers.py:12-159 | one handler run with the corrected `connect` leaves a consistent store |
| `Lobby.Run` | play/play/consumers.py:12-159 | any sequence of handler runs with the corrected `connect` leaves a consistent store; `LobbyProofs.ReachableRoomsKeepInvariant` states the invariant |
| `Keys.GroupName` | play/play/consumers.py:14 | the group name `game_<room>`; used by `Consumers.GameConsumer.Connect` |
| `Keys.PlayersKey` | play/play/consumers.py:41-42 | the players hash key; stated by `Keys.StoreKeysDistinct` and `Keys.RoomKeysInjective` |
| `Keys.AdminKey` | play/play/consumers.py:44-45 | the admin key; stated by `Keys.StoreKeysDistinct` and `Keys.RoomKeysInjective` |
| `Keys.StateKey` | play/play/consumers.py:103 | the state key; stated by `Keys.StoreKeysDistinct` and `Keys.RoomKeysInjective` |
| `LobbyProofs.WithoutHead` | play/play/consumers.py:75-77 | the first key `hkeys` reports after `hdel` is the first key of the old order other than the leaver |
| `LobbyProofs.NicknameBoundary` | play/play/consumers.py:22-27 | a nickname is accepted iff it has 1 to 16 characters; 16 accepted, 17 and empty (or missing) rejected |
| `LobbyProofs.RejectedOpenOnlySubscribes` | play/play/consumers.py:16-27 | a rejected connection ends `Closed`, is subscribed, and adds no player, sets no admin and sends nothing |
| `LobbyProofs.AcceptedOpenJoinsAndBroadcasts` | play/play/consumers.py:30-36 | with the corrected `connect`, an accepted connection is stored with its nickname, subscribed, and the one `lobby_state` sent to the group lists it |
| `LobbyProofs.JoinStoresAndElects` | play/play/consumers.py:47-61 | after join, `players[c]` is the nickname, every other record is unchanged, `c` becomes admin iff no admin was set |
| `LobbyProofs.JoinKeepsAdminInvariant` | play/play/consumers.py:58-61 | join preserves "admin unset iff no players, otherwise admin is a player" |
| `LobbyProofs.LeaveRemovesRecord` | play/play/consumers.py:63-69 | after leave, `c` has no record and every other record is unchanged |
| `LobbyProofs.LeaveFailover` | play/play/consumers.py:71-79 | admin leaving with players left: new admin is the first remaining key in hash order and a player; with none left: admin unset; another player leaving: admin unchanged |
| `LobbyProofs.LeaveKeepsAdminInvariant` | play/play/consumers.py:71-79 | leave preserves the admin invariant |
| `LobbyProofs.LeaveAbsentIsNoOp` | play/play/consumers.py:63-79 | under the admin invariant, leave of a connection with no record changes nothing |
| `LobbyProofs.SecondLeaveIsNoOp` | play/play/consumers.py:63-79 | under the admin invariant, a second leave of the same connection is a no-op |
| `LobbyProofs.JoinThenLeaveRestores` | play/play/consumers.py:47-79 | a newcomer joining and then leaving restores the store exactly, admin included |
| `LobbyProofs.StartGameAuthorisation` | play/play/consumers.py:94-110 | a non-admin start changes nothing; the admin's sets the state to "drawing" and appends exactly one `game_start` to the group |
| `LobbyProofs.DispatchOnlyStartGame` | play/play/consumers.py:84-89 | `receive` acts only on action "start_game"; any other or missing action changes nothing |
| `LobbyProofs.LobbyViewOnePerPlayer` | play/play/consumers.py:118-129 | the lobby list has one entry per stored player, carrying that player's nickname |
| `LobbyProofs.LobbyViewAdminFlags` | play/play/consumers.py:121-129 | `is_admin` is true exactly at the admin's key, so at most once, and exactly once in a non-empty room under the admin invariant |
| `LobbyProofs.BroadcastSendsView` | play/play/consumers.py:115-137 | `broadcast_lobby_state` appends exactly one `lobby_state` for the current subscribers, with one entry per stored player, and changes nothing else |
| `LobbyProofs.CloseSessionBroadcastExcludesLeaver` | play/play/consumers.py:151-159 | the broadcast of `disconnect` is not delivered to the leaver and lists one entry per remaining player, none for the leaver |
| `LobbyProofs.ReachableRoomsKeepInvariant` | play/play/consumers.py:47-79 | with the corrected `connect`, every room reached from the empty one by any handler sequence keeps the admin invariant, subscribes every player and has phase unset or "drawing" |
| `Lobby.ApplyAsWritten` | play/play/consumers.py:12-159 | one handler run with `connect` as written leaves a consistent store |
| `Lobby.RunAsWritten` | play/play/consumers.py:12-159 | any sequence of handler runs with `connect` as written leaves a consistent store |
| `LobbyProofs.AsWrittenOpenIsCorrectedOrRejected` | play/play/consumers.py:12-56 | `connect` as written leaves the room as the corrected `connect` does when it closes or joins, and as a connection with no nickname does (subscribed only) when it raises |
| `LobbyProofs.ReachableAsWrittenRoomsKeepInvariant` | play/play/consumers.py:12-159 | with `connect` as written, every room reached from the empty one by any handler sequence keeps the same invariant |
| `LobbyProofs.PhaseNeverReverts` | play/play/consumers.py:102-105 | with the corrected `connect`, once "drawing", the state stays "drawing" across any handler sequence; sent events are never withdrawn |
| `LobbyProofs.PhaseNeverRevertsAsWritten` | play/play/consumers.py:102-105 | with `connect` as written, once "drawing", the state stays "drawing" across any handler sequence; sent events are never withdrawn |
| `LobbyProofs.AliceBobScenario` | play/play/consumers.py:12-159 | with the corrected `connect`, alice then bob join: lobby shows alice admin, bob not; alice leaves: bob alone and admin; bob starts: "drawing" and `game_start` to bob |
| `LobbyProofs.TwoJoined` | play/play/consumers.py:47-61 | with the corrected `connect`, alice then bob joining an empty room stores both in join order, subscribes both, and makes alice admin |
| `LobbyProofs.SecondJoins` | play/play/consumers.py:47-61 | with the corrected `connect`, a newcomer joining a room whose only member is admin is appended after it in the hash order, subscribed, and does not become admin |
| `LobbyProofs.AdminLeavesPair` | play/play/consumers.py:63-79 | when admin alice leaves a room of alice and bob, bob is the only record, the only subscriber and the admin |
| `LobbyProofs.AsWrittenDofScenario` | play/play/consumers.py:12-110 | with `connect` as written: "alice" raises and is not stored; "DoF" joins, is listed alone as admin, and its start request sets "drawing" and sends `game_start` |
| `LobbyProofs.FlaggedSpellings` | play/play/consumers.py:28-29 | the flag condition holds exactly for the eight upper/lower-case spellings of "dof" |
| `LobbyProofs.FlagQuirkRaisesForOrdinaryNames` | play/play/consumers.py:28-56 | as written, the valid nickname "alice" makes `connect` raise with no player stored and nothing sent |
| `LobbyProofs.OnlyFlaggedNamesJoinAsWritten` | play/play/consumers.py:25-56 | as written, `connect` joins iff the nickname is valid and a spelling of "dof", and raises iff it is valid and not |
| `LobbyProofs.OpenSessionAdmitsValidNames` | play/play/consumers.py:25-36 | with the flag computed for every nickname, `connect` joins iff the nickname is valid, never raises, and agrees with the as-written handler wherever that one does not raise |
| `Consumers.Room.GroupAdd` | play/play/consumers.py:16-19 | subscribes the channel to the group, nothing else changes |
| `Consumers.Room.GroupDiscard` | play/play/consumers.py:154-157 | unsubscribes the channel from the group, nothing else changes |
| `Consumers.Room.GroupSend` | play/play/consumers.py:131-137 | appends one delivery of the event to the current subscribers |
| `Consumers.Room.Join` | play/play/consumers.py:47-61 | the hset/get/set steps of `add_player` leave the store as `JoinRoom` says |
| `Consumers.Room.Leave` | play/play/consumers.py:63-79 | the hdel/get/hkeys/set-or-delete steps of `remove_player` leave the store as `LeaveRoom` says |
| `Consumers.Room.TryStartGame` | play/play/consumers.py:94-110 | the get/compare/set/group_send steps leave the room as `StartGame` says |
| `Consumers.Room.CollectLobbyEntries` | play/play/consumers.py:118-129 | the loop over `hgetall` builds exactly the lobby view: one entry per key in hash order with its nickname and admin flag |
| `Consumers.Room.BroadcastLobbyState` | play/play/consumers.py:115-137 | sends the lobby view to the group and changes nothing else |
| `Consumers.GameConsumer.Connect` | play/play/consumers.py:12-36 | subscribe, validate, flag, join, broadcast, in source order, leave the room as `OpenSession` says; sets room id, group name and nickname |
| `Consumers.GameConsumer.ConnectAsWritten` | play/play/consumers.py:12-36 | the same steps with the flag assigned only for "dof", raising before the store is touched otherwise, as `OpenSessionAsWritten` says |
| `Consumers.GameConsumer.Receive` | play/play/consumers.py:84-89 | dispatches to `TryStartGame` only for "start_game", as `Dispatch` says |
| `Consumers.GameConsumer.Disconnect` | play/play/consumers.py:151-159 | leave, group discard, broadcast, in source order, leave the room as `CloseSession` says |

## Left out

- Redis and channel-layer transport: `async_to_sync`, remote calls, the network. The store is plain fields and `group_send` appends to `outbox`.
- Concurrency: handlers are atomic steps run one at a time. The read-then-write on the admin key in `add_player` and `remove_player` races between real handlers, and the model does not show those interleavings.
- Websocket framing and lifecycle (`accept`, `close`, `send`). The transport decides whether `disconnect` runs after a rejected or failed `connect`. `lobby_state`/`game_start`/`send_json` only forward an event to the socket.
- JSON encoding and decoding and `parse_qs`. Messages and events are datatypes. `receive` takes the decoded message. A payload that is not JSON, is not an object, or whose `action` is not a string is not modelled. The stored record is the nickname itself, since `json.loads(json.dumps({"nickname": n}))["nickname"]` is `n`.
- The extra positional `self.flag` argument of `hset` and the str/bytes `.encode()` comparisons. Channel names are one type, and the flag reaches the store only through the exception described under "Findings".
- Python's Unicode `str.upper`. `Lobby.Upper` upper-cases ASCII letters only.
- `Lobby.LobbyView`: `keyOrder` is insertion order, which is what Redis reports only while the hash keeps its compact (listpack) encoding. Redis switches the hash to hashtable encoding, which lists fields in hash order, once it has more than 128 fields or any value longer than 64 bytes (`hash-max-listpack-entries`, `hash-max-listpack-value`). A record is `json.dumps({"nickname": n})`, which escapes every non-ASCII character as 6 bytes, so a 9-letter Cyrillic nickname already gives a 70-byte value. After that switch the model's order is not the store's. These results depend on the order and then no longer describe the store: the exact successor in `LobbyProofs.LeaveFailover` and `LobbyProofs.WithoutHead`, the restored `keyOrder` in `LobbyProofs.JoinThenLeaveRestores`, the positions in `LobbyProofs.LobbyViewOnePerPlayer`, `LobbyProofs.AcceptedOpenJoinsAndBroadcasts` and `Consumers.Room.CollectLobbyEntries`, the `keyOrder == [a, b]` of `LobbyProofs.TwoJoined` and `LobbyProofs.SecondJoins`, and the exact lists of `LobbyProofs.AliceBobScenario` and `LobbyProofs.AsWrittenDofScenario`. The rest do not depend on it: the admin invariant, the record contents, the entry count, the at-most-one admin flag, the phase, the group and the outbox.
- Multiple rooms: the code hard-codes `"global"`, and `Room` is that one room.

## Findings

| source | as written | input that shows it | evidently intended | confidence | as-written member | corrected member |
|---|---|---|---|---|---|---|
| play/play/consumers.py:28-29 | `self.flag` is assigned only when the upper-cased nickname is `"DOF"`, yet `add_player` reads `self.flag` (line 54) for every accepted nickname, so any other valid nickname raises `AttributeError` after `accept` and before anything is stored | nickname `"alice"`: no player record, no admin, no `lobby_state` sent | the flag is `nickname.upper() == 'DOF'`, False otherwise, and every valid nickname joins | high; not executed | `LobbyProofs.FlagQuirkRaisesForOrdinaryNames` (on `Lobby.OpenSessionAsWritten`, `Consumers.GameConsumer.ConnectAsWritten`) | `LobbyProofs.OpenSessionAdmitsValidNames` (on `Lobby.OpenSession`, `Consumers.GameConsumer.Connect`) |
