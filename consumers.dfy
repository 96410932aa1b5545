/**
 * The websocket consumer and the shared room it works on, step by step.
 *
 * `Room` is the state every consumer shares: the Redis keys of room "global"
 * and the channel-layer group `game_global`, with every `group_send` recorded
 * in `outbox`. Its methods are the store-level helpers of the consumer, each
 * parameterised by the channel name the consumer would use as `self`.
 * `GameConsumer` is one connection's consumer with the fields `connect` sets.
 * Every method is proved to leave the room as the matching function of module
 * Lobby says.
 */
module Consumers {
  import opened Wrappers
  import opened Lobby
  import Keys

  class Room {
    var players: map<ConnId, string>
    var keyOrder: seq<ConnId>
    var admin: Option<ConnId>
    var phase: Option<string>
    var group: set<ConnId>
    var outbox: seq<Delivery>

    function State(): RoomState
      reads this
    {
      RoomState(players, keyOrder, admin, phase, group, outbox)
    }

    ghost predicate Valid()
      reads this
    {
      WellFormed(State())
    }

    /** An empty store: no keys set, nobody subscribed, nothing sent. */
    constructor ()
      ensures Valid() && State() == EmptyRoom
    {
      players, keyOrder, admin, phase := map[], [], None, None;
      group, outbox := {}, [];
    }

    /** `group_add(group_name, channel)` */
    method GroupAdd(c: ConnId)
      requires Valid()
      modifies this
      ensures Valid() && State() == Subscribe(old(State()), c)
    {
      group := group + {c};
    }

    /** `group_discard(group_name, channel)` */
    method GroupDiscard(c: ConnId)
      requires Valid()
      modifies this
      ensures Valid() && State() == Unsubscribe(old(State()), c)
    {
      group := group - {c};
    }

    /** `group_send(group_name, e)`: delivered to the current subscribers. */
    method GroupSend(e: Event)
      requires Valid()
      modifies this
      ensures Valid() && State() == Send(old(State()), e)
    {
      outbox := outbox + [Delivery(group, e)];
    }

    /** `add_player` for channel `c`: `hset` of the record, `get` of the admin key,
        and `set` when it was unset. */
    method Join(c: ConnId, nickname: string)
      requires Valid()
      modifies this
      ensures Valid() && State() == JoinRoom(old(State()), c, nickname)
    {
      if c !in players {
        keyOrder := keyOrder + [c];
      }
      players := players[c := nickname];

      var current := admin;
      if current.None? {
        admin := Some(c);
      }
    }

    /** `remove_player` for channel `c`: `hdel`, `get` of the admin key, and when it
        was `c`, `hkeys` followed by `set` of the first key or `delete`. */
    method Leave(c: ConnId)
      requires Valid()
      modifies this
      ensures Valid() && State() == LeaveRoom(old(State()), c)
    {
      players := players - {c};
      keyOrder := Without(keyOrder, c);

      var current := admin;
      if current == Some(c) {
        var keys := keyOrder;
        if keys != [] {
          admin := Some(keys[0]);
        } else {
          admin := None;
        }
      }
    }

    /** `try_start_game` for channel `c`. */
    method TryStartGame(c: ConnId)
      requires Valid()
      modifies this
      ensures Valid() && State() == StartGame(old(State()), c)
    {
      var current := admin;
      if current != Some(c) {
        return;
      }
      phase := Some(Drawing);
      GroupSend(GameStart);
    }

    /** The loop of `broadcast_lobby_state`: one entry per field of the players hash,
        in `hgetall` order, flagged when its key is the stored admin. */
    method CollectLobbyEntries() returns (entries: seq<LobbyEntry>)
      requires Valid()
      ensures entries == LobbyView(State())
    {
      var order := keyOrder;
      var current := admin;
      entries := [];
      for i := 0 to |order|
        invariant |entries| == i
        invariant forall j :: 0 <= j < i ==>
                    order[j] in players
                    && entries[j] == LobbyEntry(players[order[j]], Some(order[j]) == current)
      {
        var channel := order[i];
        entries := entries + [LobbyEntry(players[channel], Some(channel) == current)];
      }
    }

    /** `broadcast_lobby_state` */
    method BroadcastLobbyState()
      requires Valid()
      modifies this
      ensures Valid() && State() == Broadcast(old(State()))
    {
      var entries := CollectLobbyEntries();
      GroupSend(LobbyState(entries));
    }
  }

  /** One connection's consumer. `flag` is None while the attribute is unassigned. */
  class GameConsumer {
    const channelName: ConnId
    var roomId: string
    var groupName: string
    var nickname: string
    var flag: Option<bool>

    /** A fresh consumer, as the channel layer creates one per connection. */
    constructor (channelName: ConnId)
      ensures this.channelName == channelName && flag == None
    {
      this.channelName := channelName;
      roomId, groupName, nickname := "", "", "";
      flag := None;
    }

    /** `connect` with the flag computed for every nickname: subscribe, read the
        nickname, close on a rejected one, otherwise join and broadcast. */
    method Connect(room: Room, nicknameParam: Option<string>) returns (outcome: ConnectOutcome)
      requires room.Valid()
      modifies this, room
      ensures room.Valid()
      ensures Opening(room.State(), outcome) == OpenSession(old(room.State()), channelName, nicknameParam)
      ensures roomId == Keys.RoomId && groupName == Keys.GroupName(Keys.RoomId)
      ensures nickname == NicknameOf(nicknameParam)
      ensures outcome == Joined ==> flag == Some(IsFlagged(nickname))
      ensures outcome == Closed ==> flag == old(flag)
    {
      roomId := Keys.RoomId;
      groupName := Keys.GroupName(roomId);
      room.GroupAdd(channelName);

      nickname := NicknameOf(nicknameParam);
      if Rejected(nickname) {
        outcome := Closed;
        return;
      }
      flag := Some(IsFlagged(nickname));

      room.Join(channelName, nickname);
      room.BroadcastLobbyState();
      outcome := Joined;
    }

    /** `connect` as written: the flag is assigned only for the reserved nickname, and
        `add_player` reads it before storing anything, so for any other valid
        nickname the handler raises after the group subscription. */
    method ConnectAsWritten(room: Room, nicknameParam: Option<string>) returns (outcome: ConnectOutcome)
      requires room.Valid()
      requires flag == None
      modifies this, room
      ensures room.Valid()
      ensures Opening(room.State(), outcome) == OpenSessionAsWritten(old(room.State()), channelName, nicknameParam)
      ensures roomId == Keys.RoomId && groupName == Keys.GroupName(Keys.RoomId)
      ensures nickname == NicknameOf(nicknameParam)
      ensures flag == (if Rejected(nickname) then None else FlagAsWritten(nickname))
    {
      roomId := Keys.RoomId;
      groupName := Keys.GroupName(roomId);
      room.GroupAdd(channelName);

      nickname := NicknameOf(nicknameParam);
      if Rejected(nickname) {
        outcome := Closed;
        return;
      }
      if IsFlagged(nickname) {
        flag := Some(true);
      }

      if flag.None? {
        outcome := Raised;
        return;
      }
      room.Join(channelName, nickname);
      room.BroadcastLobbyState();
      outcome := Joined;
    }

    /** `receive` of an already decoded message. */
    method Receive(room: Room, msg: ClientMessage)
      requires room.Valid()
      modifies room
      ensures room.Valid() && room.State() == Dispatch(old(room.State()), channelName, msg)
    {
      if msg.action == Some(StartGameAction) {
        room.TryStartGame(channelName);
      }
    }

    /** `disconnect`: leave, unsubscribe, broadcast, in that order. */
    method Disconnect(room: Room)
      requires room.Valid()
      modifies room
      ensures room.Valid() && room.State() == CloseSession(old(room.State()), channelName)
    {
      room.Leave(channelName);
      room.GroupDiscard(channelName);
      room.BroadcastLobbyState();
    }
  }
}
