/**
 * The lobby of the single room as a value: what the room's Redis keys hold,
 * who is subscribed to its channel-layer group, and every event sent to that
 * group so far. Each handler of the websocket consumer is a function from the
 * room before to the room after; the classes in module Consumers carry out the
 * same steps in place and are proved to agree with these functions.
 */
module Lobby {
  import opened Wrappers

  /** A Channels channel name. The channel layer never hands out an empty one, so the
      consumer's `if not admin` test on the stored admin is exactly "the key is unset". */
  type ConnId = s: string | s != "" witness "c"

  /** One element of the `players` list of a `lobby_state` event. */
  datatype LobbyEntry = LobbyEntry(nickname: string, isAdmin: bool)

  /** The two events sent to the room's group. */
  datatype Event = LobbyState(players: seq<LobbyEntry>) | GameStart

  /** One `group_send`: the event and the connections subscribed at that moment. */
  datatype Delivery = Delivery(recipients: set<ConnId>, event: Event)

  /** A decoded client message; `action` is None when the key is missing. */
  datatype ClientMessage = ClientMessage(action: Option<string>)

  /** How `connect` ends: closed by validation, an exception escaping it, or joined. */
  datatype ConnectOutcome = Closed | Raised | Joined

  /**
   * The shared room:
   * - `players`: the hash `room:global:players`, channel name to nickname;
   * - `keyOrder`: the order `hkeys` and `hgetall` list that hash's fields in;
   * - `admin`: the key `room:global:admin`;
   * - `phase`: the key `room:global:state`;
   * - `group`: the channel names subscribed to the group `game_global`;
   * - `outbox`: every `group_send` so far, oldest first.
   */
  datatype RoomState = RoomState(
    players: map<ConnId, string>,
    keyOrder: seq<ConnId>,
    admin: Option<ConnId>,
    phase: Option<string>,
    group: set<ConnId>,
    outbox: seq<Delivery>)

  const EmptyRoom: RoomState := RoomState(map[], [], None, None, {}, [])

  const MaxNicknameLength: nat := 16
  const Drawing: string := "drawing"
  const StartGameAction: string := "start_game"

  // ---------------------------------------------------------------------------
  // Store representation
  // ---------------------------------------------------------------------------

  predicate Distinct(order: seq<ConnId>) {
    forall i, j | 0 <= i < j < |order| :: order[i] != order[j]
  }

  /** `keyOrder` lists every field of the players hash exactly once. */
  ghost predicate WellFormed(s: RoomState) {
    && Distinct(s.keyOrder)
    && forall k :: k in s.players <==> k in s.keyOrder
  }

  /** The admin pointer is unset exactly when nobody is in the room, and otherwise
      names someone who is. */
  ghost predicate AdminInvariant(s: RoomState) {
    && (s.admin.None? <==> s.players == map[])
    && (s.admin.Some? ==> s.admin.value in s.players)
  }

  /** `order` with `c` taken out and the rest kept in order: the field order of the
      hash after `hdel`. */
  function Without(order: seq<ConnId>, c: ConnId): (r: seq<ConnId>)
    ensures forall x :: x in r <==> x in order && x != c
    ensures Distinct(order) ==> Distinct(r)
    ensures |r| <= |order|
  {
    if order == [] then []
    else if order[0] == c then Without(order[1..], c)
    else
      var rest := Without(order[1..], c);
      assert order[0] !in rest ==> Distinct(order[1..]) ==> Distinct([order[0]] + rest);
      [order[0]] + rest
  }

  // ---------------------------------------------------------------------------
  // Store operations
  // ---------------------------------------------------------------------------

  /** `add_player`: store the record, then make `c` admin if the admin key is unset. */
  function JoinRoom(s: RoomState, c: ConnId, nickname: string): (t: RoomState)
    requires WellFormed(s)
    ensures WellFormed(t)
  {
    var order := if c in s.players then s.keyOrder else s.keyOrder + [c];
    assert c !in s.players ==> forall i :: 0 <= i < |s.keyOrder| ==> order[i] != c;
    s.(players := s.players[c := nickname],
       keyOrder := order,
       admin := if s.admin.None? then Some(c) else s.admin)
  }

  /** `remove_player`: delete the record; if `c` was admin, hand the role to the first
      field `hkeys` lists, or unset the admin key when the hash is empty. */
  function LeaveRoom(s: RoomState, c: ConnId): (t: RoomState)
    requires WellFormed(s)
    ensures WellFormed(t)
  {
    var remaining := Without(s.keyOrder, c);
    var admin :=
      if s.admin == Some(c) then
        (if remaining == [] then None else Some(remaining[0]))
      else s.admin;
    s.(players := s.players - {c}, keyOrder := remaining, admin := admin)
  }

  /** `group_add` */
  function Subscribe(s: RoomState, c: ConnId): RoomState {
    s.(group := s.group + {c})
  }

  /** `group_discard` */
  function Unsubscribe(s: RoomState, c: ConnId): RoomState {
    s.(group := s.group - {c})
  }

  /** `group_send`: the event goes to everyone subscribed now. */
  function Send(s: RoomState, e: Event): RoomState {
    s.(outbox := s.outbox + [Delivery(s.group, e)])
  }

  // ---------------------------------------------------------------------------
  // Handlers
  // ---------------------------------------------------------------------------

  /** `try_start_game`: only the admin may start; the state key becomes "drawing" and
      `game_start` goes to the group. */
  function StartGame(s: RoomState, c: ConnId): RoomState {
    if s.admin != Some(c) then s
    else Send(s.(phase := Some(Drawing)), GameStart)
  }

  /** `receive`: only the action "start_game" does anything. */
  function Dispatch(s: RoomState, c: ConnId, msg: ClientMessage): RoomState {
    if msg.action == Some(StartGameAction) then StartGame(s, c) else s
  }

  /** The lobby entry of the player stored under `k`. */
  function EntryFor(s: RoomState, k: ConnId): LobbyEntry
    requires k in s.players
  {
    LobbyEntry(s.players[k], s.admin == Some(k))
  }

  /** The `players` list of `broadcast_lobby_state`, in the hash's field order. */
  function LobbyView(s: RoomState): seq<LobbyEntry>
    requires WellFormed(s)
  {
    seq(|s.keyOrder|, i requires 0 <= i < |s.keyOrder| => EntryFor(s, s.keyOrder[i]))
  }

  /** `broadcast_lobby_state` */
  function Broadcast(s: RoomState): RoomState
    requires WellFormed(s)
  {
    Send(s, LobbyState(LobbyView(s)))
  }

  /** The nickname `connect` reads: the query parameter, or "" when it is missing. */
  function NicknameOf(param: Option<string>): string {
    param.GetOr("")
  }

  /** The validation of `connect`: an empty or over-long nickname closes the connection. */
  predicate Rejected(nickname: string) {
    nickname == [] || |nickname| > MaxNicknameLength
  }

  /** ASCII upper case of one character. */
  function UpperChar(ch: char): char {
    if 'a' <= ch <= 'z' then (ch as int - 32) as char else ch
  }

  function Upper(s: string): string {
    seq(|s|, i requires 0 <= i < |s| => UpperChar(s[i]))
  }

  /** The reserved nickname test that sets the consumer's flag. */
  predicate IsFlagged(nickname: string) {
    Upper(nickname) == "DOF"
  }

  /** The outcome of opening a connection and the room afterwards. */
  datatype Opening = Opening(room: RoomState, outcome: ConnectOutcome)

  /** `connect` with the flag computed for every nickname: subscribe, validate, then
      join and broadcast. A rejected connection stays subscribed to the group. */
  function OpenSession(s: RoomState, c: ConnId, param: Option<string>): (o: Opening)
    requires WellFormed(s)
    ensures WellFormed(o.room)
  {
    var subscribed := Subscribe(s, c);
    var nickname := NicknameOf(param);
    if Rejected(nickname) then Opening(subscribed, Closed)
    else Opening(Broadcast(JoinRoom(subscribed, c, nickname)), Joined)
  }

  /** The consumer's flag after lines 28-29 of `connect` as written, on a fresh
      consumer: set only for the reserved nickname, otherwise never assigned (None). */
  function FlagAsWritten(nickname: string): Option<bool> {
    if IsFlagged(nickname) then Some(true) else None
  }

  /** `connect` as written: `add_player` reads the flag before it writes anything, so
      when the flag was never assigned the handler raises and nothing is stored. */
  function OpenSessionAsWritten(s: RoomState, c: ConnId, param: Option<string>): (o: Opening)
    requires WellFormed(s)
    ensures WellFormed(o.room)
  {
    var subscribed := Subscribe(s, c);
    var nickname := NicknameOf(param);
    if Rejected(nickname) then Opening(subscribed, Closed)
    else if FlagAsWritten(nickname).None? then Opening(subscribed, Raised)
    else Opening(Broadcast(JoinRoom(subscribed, c, nickname)), Joined)
  }

  /** `disconnect`: leave, unsubscribe, then broadcast what is left. */
  function CloseSession(s: RoomState, c: ConnId): (t: RoomState)
    requires WellFormed(s)
    ensures WellFormed(t)
  {
    Broadcast(Unsubscribe(LeaveRoom(s, c), c))
  }

  // ---------------------------------------------------------------------------
  // Runs of handlers
  // ---------------------------------------------------------------------------

  /** One handler invocation on behalf of connection `conn`. */
  datatype Step =
    | Open(conn: ConnId, nickname: Option<string>)
    | Message(conn: ConnId, msg: ClientMessage)
    | Close(conn: ConnId)

  function Apply(s: RoomState, step: Step): (t: RoomState)
    requires WellFormed(s)
    ensures WellFormed(t)
  {
    match step
    case Open(c, p) => OpenSession(s, c, p).room
    case Message(c, m) => Dispatch(s, c, m)
    case Close(c) => CloseSession(s, c)
  }

  /** The handlers run one after another, each to completion. */
  function Run(s: RoomState, steps: seq<Step>): (t: RoomState)
    requires WellFormed(s)
    ensures WellFormed(t)
    decreases |steps|
  {
    if steps == [] then s else Run(Apply(s, steps[0]), steps[1..])
  }

  /** One handler invocation with `connect` as written. */
  function ApplyAsWritten(s: RoomState, step: Step): (t: RoomState)
    requires WellFormed(s)
    ensures WellFormed(t)
  {
    match step
    case Open(c, p) => OpenSessionAsWritten(s, c, p).room
    case Message(c, m) => Dispatch(s, c, m)
    case Close(c) => CloseSession(s, c)
  }

  /** The handlers as written run one after another, each to completion. */
  function RunAsWritten(s: RoomState, steps: seq<Step>): (t: RoomState)
    requires WellFormed(s)
    ensures WellFormed(t)
    decreases |steps|
  {
    if steps == [] then s else RunAsWritten(ApplyAsWritten(s, steps[0]), steps[1..])
  }
}
