/**
 * What the room's handlers promise: validation, admin election and failover,
 * the admin invariant, idempotent leave, the start-game authorisation, the
 * contents of the lobby view, and the invariants every run of handlers keeps.
 */
module LobbyProofs {
  import opened Wrappers
  import opened Lobby

  // ---------------------------------------------------------------------------
  // Facts about key orders
  // ---------------------------------------------------------------------------

  function Elems(order: seq<ConnId>): set<ConnId> {
    set k | k in order
  }

  /** A duplicate-free key order has one position per key. */
  lemma {:induction false} DistinctCard(order: seq<ConnId>)
    requires Distinct(order)
    ensures |Elems(order)| == |order|
  {
    if order != [] {
      var rest := order[1..];
      assert Distinct(rest);
      DistinctCard(rest);
      assert order[0] !in rest;
      assert Elems(order) == {order[0]} + Elems(rest);
    }
  }

  /** The players hash has as many fields as `keyOrder` has positions. */
  lemma PlayerCount(s: RoomState)
    requires WellFormed(s)
    ensures |s.players| == |s.keyOrder|
  {
    assert s.players.Keys == Elems(s.keyOrder);
    DistinctCard(s.keyOrder);
  }

  /** The first key left after removing `c` is the first key of `order` that is not `c`:
      the successor `hkeys` reports after `hdel`. */
  lemma {:induction false} WithoutHead(order: seq<ConnId>, c: ConnId)
    requires Without(order, c) != []
    ensures exists i :: 0 <= i < |order| && order[i] == Without(order, c)[0]
                        && forall j :: 0 <= j < i ==> order[j] == c
  {
    if order[0] != c {
      assert order[0] == Without(order, c)[0];
    } else {
      WithoutHead(order[1..], c);
      var i :| 0 <= i < |order[1..]| && order[1..][i] == Without(order[1..], c)[0]
               && forall j :: 0 <= j < i ==> order[1..][j] == c;
      assert order[i + 1] == Without(order, c)[0];
      assert forall j :: 0 <= j < i + 1 ==> order[j] == c by {
        forall j | 0 <= j < i + 1 ensures order[j] == c {
          if j > 0 { assert order[j] == order[1..][j - 1]; }
        }
      }
    }
  }

  /** Removing a key just appended to an order that did not hold it gives the order back. */
  lemma {:induction false} WithoutAppended(order: seq<ConnId>, c: ConnId)
    requires c !in order
    ensures Without(order + [c], c) == order
  {
    if order == [] {
      assert Without([c], c) == Without([], c);
    } else {
      assert (order + [c])[1..] == order[1..] + [c];
      WithoutAppended(order[1..], c);
      assert order == [order[0]] + order[1..];
    }
  }

  /** Removing a key an order does not hold changes nothing. */
  lemma {:induction false} WithoutAbsent(order: seq<ConnId>, c: ConnId)
    requires c !in order
    ensures Without(order, c) == order
  {
    if order != [] {
      WithoutAbsent(order[1..], c);
      assert order == [order[0]] + order[1..];
    }
  }

  // ---------------------------------------------------------------------------
  // connect: validation
  // ---------------------------------------------------------------------------

  /** A nickname is accepted exactly when it has 1 to 16 characters: 16 is accepted,
      17 and the empty (or missing) nickname are rejected. */
  lemma NicknameBoundary(nickname: string)
    ensures !Rejected(nickname) <==> 1 <= |nickname| <= 16
    ensures !Rejected("abcdefghijklmnop")
    ensures Rejected("abcdefghijklmnopq")
    ensures Rejected("") && NicknameOf(None) == ""
  {
  }

  /** A rejected connection is subscribed to the group (that step precedes validation)
      but stores no player, sets no admin and sends nothing. */
  lemma RejectedOpenOnlySubscribes(s: RoomState, c: ConnId, param: Option<string>)
    requires WellFormed(s)
    requires Rejected(NicknameOf(param))
    ensures OpenSession(s, c, param).outcome == Closed
    ensures var t := OpenSession(s, c, param).room;
            && t.players == s.players && t.keyOrder == s.keyOrder
            && t.admin == s.admin && t.phase == s.phase
            && t.outbox == s.outbox && t.group == s.group + {c}
  {
  }

  /** An accepted connection is stored under its channel name, is subscribed, and the
      lobby it is told about lists it with its nickname. */
  lemma AcceptedOpenJoinsAndBroadcasts(s: RoomState, c: ConnId, param: Option<string>)
    requires WellFormed(s)
    requires !Rejected(NicknameOf(param))
    ensures var o := OpenSession(s, c, param);
            && o.outcome == Joined
            && c in o.room.players && o.room.players[c] == NicknameOf(param)
            && c in o.room.group
            && |o.room.outbox| == |s.outbox| + 1
            && o.room.outbox[|s.outbox|].recipients == o.room.group
            && o.room.outbox[|s.outbox|].event == LobbyState(LobbyView(o.room))
            && exists i :: 0 <= i < |LobbyView(o.room)|
                 && LobbyView(o.room)[i].nickname == NicknameOf(param)
                 && o.room.keyOrder[i] == c
  {
  }

  // ---------------------------------------------------------------------------
  // Join and Leave
  // ---------------------------------------------------------------------------

  /** Join stores the record under `c`, leaves every other record as it was, and elects
      `c` only when no admin is set. */
  lemma JoinStoresAndElects(s: RoomState, c: ConnId, nickname: string)
    requires WellFormed(s)
    ensures var t := JoinRoom(s, c, nickname);
            && c in t.players && t.players[c] == nickname
            && (forall k :: k != c ==> (k in t.players <==> k in s.players))
            && (forall k :: k != c && k in s.players ==> t.players[k] == s.players[k])
            && (s.admin.None? ==> t.admin == Some(c))
            && (s.admin.Some? ==> t.admin == s.admin)
            && t.phase == s.phase && t.group == s.group && t.outbox == s.outbox
  {
  }

  lemma JoinKeepsAdminInvariant(s: RoomState, c: ConnId, nickname: string)
    requires WellFormed(s) && AdminInvariant(s)
    ensures AdminInvariant(JoinRoom(s, c, nickname))
  {
  }

  /** Leave removes `c`'s record and only that one. */
  lemma LeaveRemovesRecord(s: RoomState, c: ConnId)
    requires WellFormed(s)
    ensures var t := LeaveRoom(s, c);
            && c !in t.players && c !in t.keyOrder
            && (forall k :: k != c ==> (k in t.players <==> k in s.players))
            && (forall k :: k in t.players ==> t.players[k] == s.players[k])
            && t.phase == s.phase && t.group == s.group && t.outbox == s.outbox
  {
  }

  /** Failover: when the admin leaves and players remain, the admin becomes the first
      remaining key in the hash's order, a player; when nobody remains the admin is
      unset; when someone else leaves the admin does not change. */
  lemma LeaveFailover(s: RoomState, c: ConnId)
    requires WellFormed(s)
    ensures var t := LeaveRoom(s, c);
            && (s.admin == Some(c) && t.players != map[] ==>
                  && t.admin.Some? && t.admin.value in t.players && t.admin.value != c
                  && exists i :: 0 <= i < |s.keyOrder| && s.keyOrder[i] == t.admin.value
                                 && forall j :: 0 <= j < i ==> s.keyOrder[j] == c)
            && (s.admin == Some(c) && t.players == map[] ==> t.admin.None?)
            && (s.admin != Some(c) ==> t.admin == s.admin)
  {
    var t := LeaveRoom(s, c);
    if s.admin == Some(c) && t.players != map[] {
      var k :| k in t.players;
      assert k in t.keyOrder;
      WithoutHead(s.keyOrder, c);
    }
    PlayerCount(t);
  }

  lemma LeaveKeepsAdminInvariant(s: RoomState, c: ConnId)
    requires WellFormed(s) && AdminInvariant(s)
    ensures AdminInvariant(LeaveRoom(s, c))
  {
    LeaveFailover(s, c);
    PlayerCount(LeaveRoom(s, c));
  }

  /** With the admin invariant, leaving when not in the room changes nothing. */
  lemma LeaveAbsentIsNoOp(s: RoomState, c: ConnId)
    requires WellFormed(s) && AdminInvariant(s)
    requires c !in s.players
    ensures LeaveRoom(s, c) == s
  {
    WithoutAbsent(s.keyOrder, c);
    assert s.players - {c} == s.players;
  }

  /** A second Leave for the same connection is a no-op. */
  lemma SecondLeaveIsNoOp(s: RoomState, c: ConnId)
    requires WellFormed(s) && AdminInvariant(s)
    ensures LeaveRoom(LeaveRoom(s, c), c) == LeaveRoom(s, c)
  {
    LeaveKeepsAdminInvariant(s, c);
    LeaveAbsentIsNoOp(LeaveRoom(s, c), c);
  }

  /** Join followed by Leave of a newcomer restores the store exactly, admin included. */
  lemma JoinThenLeaveRestores(s: RoomState, c: ConnId, nickname: string)
    requires WellFormed(s) && AdminInvariant(s)
    requires c !in s.players
    ensures LeaveRoom(JoinRoom(s, c, nickname), c) == s
  {
    var t := JoinRoom(s, c, nickname);
    WithoutAppended(s.keyOrder, c);
    assert t.keyOrder == s.keyOrder + [c];
    assert t.players - {c} == s.players;
    PlayerCount(s);
    var u := LeaveRoom(t, c);
    assert u.keyOrder == s.keyOrder && u.players == s.players;
    if s.admin.None? {
      assert t.admin == Some(c) && s.keyOrder == [];
    }
  }

  // ---------------------------------------------------------------------------
  // Start game and dispatch
  // ---------------------------------------------------------------------------

  /** A start request from anyone but the admin changes nothing; from the admin it
      sets the phase to "drawing" and sends exactly one `game_start` to the group. */
  lemma StartGameAuthorisation(s: RoomState, c: ConnId)
    ensures s.admin != Some(c) ==> StartGame(s, c) == s
    ensures s.admin == Some(c) ==>
              var t := StartGame(s, c);
              && t.phase == Some("drawing")
              && t.outbox == s.outbox + [Delivery(s.group, GameStart)]
              && t.players == s.players && t.keyOrder == s.keyOrder
              && t.admin == s.admin && t.group == s.group
  {
  }

  /** Only the action "start_game" reaches `try_start_game`; any other action, or none,
      leaves the room as it was. */
  lemma DispatchOnlyStartGame(s: RoomState, c: ConnId, msg: ClientMessage)
    ensures msg.action == Some("start_game") ==> Dispatch(s, c, msg) == StartGame(s, c)
    ensures msg.action != Some("start_game") ==> Dispatch(s, c, msg) == s
  {
  }

  // ---------------------------------------------------------------------------
  // The lobby view
  // ---------------------------------------------------------------------------

  /** One entry per player: as many entries as records, and every record's nickname
      appears at the position of its key. */
  lemma LobbyViewOnePerPlayer(s: RoomState)
    requires WellFormed(s)
    ensures |LobbyView(s)| == |s.players|
    ensures forall k: ConnId :: k in s.players ==>
              exists i :: 0 <= i < |s.keyOrder| && s.keyOrder[i] == k
                          && LobbyView(s)[i] == LobbyEntry(s.players[k], s.admin == Some(k))
    ensures forall i :: 0 <= i < |LobbyView(s)| ==>
              s.keyOrder[i] in s.players && LobbyView(s)[i].nickname == s.players[s.keyOrder[i]]
  {
    PlayerCount(s);
    forall k | k in s.players
      ensures exists i :: 0 <= i < |s.keyOrder| && s.keyOrder[i] == k
                          && LobbyView(s)[i] == LobbyEntry(s.players[k], s.admin == Some(k))
    {
      assert k in s.keyOrder;
      var i :| 0 <= i < |s.keyOrder| && s.keyOrder[i] == k;
      assert LobbyView(s)[i] == EntryFor(s, k);
    }
  }

  /** `is_admin` is true only at the admin's position, so at most once; with the admin
      invariant it is true exactly once in a non-empty room. */
  lemma LobbyViewAdminFlags(s: RoomState)
    requires WellFormed(s)
    ensures forall i :: 0 <= i < |LobbyView(s)| ==>
              (LobbyView(s)[i].isAdmin <==> s.admin == Some(s.keyOrder[i]))
    ensures forall i, j ::
              (0 <= i < |LobbyView(s)| && 0 <= j < |LobbyView(s)|
               && LobbyView(s)[i].isAdmin && LobbyView(s)[j].isAdmin) ==> i == j
    ensures AdminInvariant(s) && s.players != map[] ==>
              exists i :: 0 <= i < |LobbyView(s)| && LobbyView(s)[i].isAdmin
  {
  }

  /** `broadcast_lobby_state` sends one `lobby_state` to the current subscribers, with
      one entry per stored player, and changes nothing else. */
  lemma BroadcastSendsView(s: RoomState)
    requires WellFormed(s)
    ensures var t := Broadcast(s);
            && t.outbox == s.outbox + [Delivery(s.group, LobbyState(LobbyView(s)))]
            && t.players == s.players && t.keyOrder == s.keyOrder && t.admin == s.admin
            && t.phase == s.phase && t.group == s.group
            && LobbyView(t) == LobbyView(s)
            && |LobbyView(t)| == |s.players|
  {
    PlayerCount(s);
  }

  /** The lobby broadcast that `disconnect` sends is not delivered to the leaver and
      lists none of its entries: it has one entry per remaining player. */
  lemma CloseSessionBroadcastExcludesLeaver(s: RoomState, c: ConnId)
    requires WellFormed(s)
    ensures var t := CloseSession(s, c);
            var left := LeaveRoom(s, c);
            && |t.outbox| == |s.outbox| + 1
            && c !in t.outbox[|s.outbox|].recipients
            && t.outbox[|s.outbox|].event == LobbyState(LobbyView(t))
            && c !in t.players && c !in t.keyOrder
            && |LobbyView(t)| == |left.players|
            && t.players == left.players && t.admin == left.admin
  {
    BroadcastSendsView(Unsubscribe(LeaveRoom(s, c), c));
  }

  // ---------------------------------------------------------------------------
  // Reachable states
  // ---------------------------------------------------------------------------

  /** What every room reached from the empty room satisfies: the store is consistent,
      the admin invariant holds, every player is subscribed to the group (so receives
      every broadcast), and the phase is unset or "drawing". */
  ghost predicate RoomInvariant(s: RoomState) {
    && WellFormed(s)
    && AdminInvariant(s)
    && s.players.Keys <= s.group
    && (s.phase == None || s.phase == Some(Drawing))
  }

  lemma OpenKeepsInvariant(s: RoomState, c: ConnId, param: Option<string>)
    requires RoomInvariant(s)
    ensures RoomInvariant(OpenSession(s, c, param).room)
  {
  }

  lemma CloseKeepsInvariant(s: RoomState, c: ConnId)
    requires RoomInvariant(s)
    ensures RoomInvariant(CloseSession(s, c))
  {
    LeaveKeepsAdminInvariant(s, c);
  }

  lemma StepKeepsInvariant(s: RoomState, step: Step)
    requires RoomInvariant(s)
    ensures RoomInvariant(Apply(s, step))
  {
    match step
    case Open(c, p) => OpenKeepsInvariant(s, c, p);
    case Message(c, m) =>
    case Close(c) => CloseKeepsInvariant(s, c);
  }

  lemma {:induction false} RunKeepsInvariant(s: RoomState, steps: seq<Step>)
    requires RoomInvariant(s)
    ensures RoomInvariant(Run(s, steps))
    decreases |steps|
  {
    if steps != [] {
      StepKeepsInvariant(s, steps[0]);
      RunKeepsInvariant(Apply(s, steps[0]), steps[1..]);
    }
  }

  /** Every sequence of handler runs from the empty room keeps the admin invariant. */
  lemma ReachableRoomsKeepInvariant(steps: seq<Step>)
    ensures RoomInvariant(Run(EmptyRoom, steps))
  {
    RunKeepsInvariant(EmptyRoom, steps);
  }

  /** The phase never goes back: once "drawing", it stays so, and events are only ever
      appended to the outbox. */
  lemma {:induction false} PhaseNeverReverts(s: RoomState, steps: seq<Step>)
    requires WellFormed(s)
    ensures s.phase == Some(Drawing) ==> Run(s, steps).phase == Some(Drawing)
    ensures s.outbox <= Run(s, steps).outbox
    decreases |steps|
  {
    if steps != [] {
      PhaseNeverReverts(Apply(s, steps[0]), steps[1..]);
    }
  }

  /** The same for the handlers as written. */
  lemma {:induction false} PhaseNeverRevertsAsWritten(s: RoomState, steps: seq<Step>)
    requires WellFormed(s)
    ensures s.phase == Some(Drawing) ==> RunAsWritten(s, steps).phase == Some(Drawing)
    ensures s.outbox <= RunAsWritten(s, steps).outbox
    decreases |steps|
  {
    if steps != [] {
      PhaseNeverRevertsAsWritten(ApplyAsWritten(s, steps[0]), steps[1..]);
    }
  }

  /** As written, `connect` leaves the room as the corrected handler does whenever it
      closes or joins, and as a connection with no nickname does (subscribed, nothing
      stored, nothing sent) when it raises. */
  lemma AsWrittenOpenIsCorrectedOrRejected(s: RoomState, c: ConnId, param: Option<string>)
    requires WellFormed(s)
    ensures var o := OpenSessionAsWritten(s, c, param);
            && (o.outcome != Raised ==> o.room == OpenSession(s, c, param).room)
            && (o.outcome == Raised ==> o.room == OpenSession(s, c, None).room)
  {
  }

  lemma AsWrittenStepKeepsInvariant(s: RoomState, step: Step)
    requires RoomInvariant(s)
    ensures RoomInvariant(ApplyAsWritten(s, step))
  {
    match step
    case Open(c, p) =>
      AsWrittenOpenIsCorrectedOrRejected(s, c, p);
      OpenKeepsInvariant(s, c, p);
      OpenKeepsInvariant(s, c, None);
    case Message(c, m) =>
    case Close(c) => CloseKeepsInvariant(s, c);
  }

  lemma {:induction false} RunAsWrittenKeepsInvariant(s: RoomState, steps: seq<Step>)
    requires RoomInvariant(s)
    ensures RoomInvariant(RunAsWritten(s, steps))
    decreases |steps|
  {
    if steps != [] {
      AsWrittenStepKeepsInvariant(s, steps[0]);
      RunAsWrittenKeepsInvariant(ApplyAsWritten(s, steps[0]), steps[1..]);
    }
  }

  /** The same invariant holds for every run of the handlers as written, where `connect`
      raises for every valid nickname but the reserved one. */
  lemma ReachableAsWrittenRoomsKeepInvariant(steps: seq<Step>)
    ensures RoomInvariant(RunAsWritten(EmptyRoom, steps))
  {
    RunAsWrittenKeepsInvariant(EmptyRoom, steps);
  }

  // ---------------------------------------------------------------------------
  // A lobby session end to end
  // ---------------------------------------------------------------------------

  /** The room after a newcomer joins a room whose only member is the admin `a`. */
  lemma SecondJoins(s1: RoomState, a: ConnId, b: ConnId)
    requires a != b && WellFormed(s1)
    requires s1.keyOrder == [a] && s1.admin == Some(a) && s1.group == {a}
    requires s1.players == map[a := "alice"]
    ensures var s2 := OpenSession(s1, b, Some("bob")).room;
            && s2.keyOrder == [a, b] && s2.admin == Some(a) && s2.group == {a, b}
            && s2.players == map[a := "alice", b := "bob"]
  {
    assert b !in s1.players;
  }

  /** The room after alice and then bob have joined an empty room. */
  lemma TwoJoined(a: ConnId, b: ConnId)
    requires a != b
    ensures var s2 := OpenSession(OpenSession(EmptyRoom, a, Some("alice")).room, b, Some("bob")).room;
            && s2.keyOrder == [a, b] && s2.admin == Some(a) && s2.group == {a, b}
            && s2.players == map[a := "alice", b := "bob"]
  {
    var s1 := OpenSession(EmptyRoom, a, Some("alice")).room;
    assert s1.keyOrder == [a] && s1.admin == Some(a) && s1.group == {a};
    assert s1.players == map[a := "alice"];
    SecondJoins(s1, a, b);
  }

  /** The room after the admin alice leaves a room holding alice and bob. */
  lemma AdminLeavesPair(s2: RoomState, a: ConnId, b: ConnId)
    requires a != b && WellFormed(s2)
    requires s2.keyOrder == [a, b] && s2.admin == Some(a) && s2.group == {a, b}
    requires s2.players == map[a := "alice", b := "bob"]
    ensures var s3 := CloseSession(s2, a);
            && s3.keyOrder == [b] && s3.admin == Some(b) && s3.group == {b}
            && s3.players == map[b := "bob"]
  {
    assert Without([a, b], a) == [b] by {
      assert [a, b][1..] == [b];
      assert Without([b], a) == [b] + Without([], a);
    }
    assert s2.players - {a} == map[b := "bob"];
  }

  /** alice and bob join (alice is admin), alice leaves (bob becomes admin), bob starts
      the game, which goes to bob, the only member left. */
  lemma AliceBobScenario(a: ConnId, b: ConnId)
    requires a != b
    ensures var s1 := OpenSession(EmptyRoom, a, Some("alice")).room;
            var s2 := OpenSession(s1, b, Some("bob")).room;
            var s3 := CloseSession(s2, a);
            var s4 := Dispatch(s3, b, ClientMessage(Some("start_game")));
            && LobbyView(s2) == [LobbyEntry("alice", true), LobbyEntry("bob", false)]
            && LobbyView(s3) == [LobbyEntry("bob", true)]
            && s4.phase == Some("drawing")
            && s4.outbox[|s4.outbox| - 1] == Delivery({b}, GameStart)
  {
    var s2 := OpenSession(OpenSession(EmptyRoom, a, Some("alice")).room, b, Some("bob")).room;
    TwoJoined(a, b);
    assert LobbyView(s2) == [EntryFor(s2, a), EntryFor(s2, b)];
    var s3 := CloseSession(s2, a);
    AdminLeavesPair(s2, a, b);
    assert LobbyView(s3) == [EntryFor(s3, b)];
  }

  /** With `connect` as written: "alice" raises and is not stored, "DoF" joins and
      becomes admin, and its start request sets the state to "drawing". */
  lemma AsWrittenDofScenario(a: ConnId, b: ConnId)
    requires a != b
    ensures var o1 := OpenSessionAsWritten(EmptyRoom, a, Some("alice"));
            var o2 := OpenSessionAsWritten(o1.room, b, Some("DoF"));
            var s3 := Dispatch(o2.room, b, ClientMessage(Some("start_game")));
            && o1.outcome == Raised && o1.room.players == map[] && o1.room.admin == None
            && o2.outcome == Joined
            && LobbyView(o2.room) == [LobbyEntry("DoF", true)]
            && s3.phase == Some("drawing")
            && s3.outbox[|s3.outbox| - 1].event == GameStart
  {
    var o1 := OpenSessionAsWritten(EmptyRoom, a, Some("alice"));
    FlaggedSpellings("alice");
    FlaggedSpellings("DoF");
    var o2 := OpenSessionAsWritten(o1.room, b, Some("DoF"));
    assert o2.room.keyOrder == [b] && o2.room.players[b] == "DoF";
    assert LobbyView(o2.room) == [EntryFor(o2.room, b)];
  }

  // ---------------------------------------------------------------------------
  // The reserved nickname and the flag
  // ---------------------------------------------------------------------------

  lemma UpperCharIs(ch: char, lower: char, upper: char)
    requires 'a' <= lower <= 'z' && upper as int == lower as int - 32
    ensures UpperChar(ch) == upper <==> ch == lower || ch == upper
  {
  }

  /** The flag is set exactly for the eight spellings of "dof" in any letter case. */
  lemma FlaggedSpellings(nickname: string)
    ensures IsFlagged(nickname) <==>
              && |nickname| == 3
              && (nickname[0] == 'd' || nickname[0] == 'D')
              && (nickname[1] == 'o' || nickname[1] == 'O')
              && (nickname[2] == 'f' || nickname[2] == 'F')
  {
    if |nickname| == 3 {
      UpperCharIs(nickname[0], 'd', 'D');
      UpperCharIs(nickname[1], 'o', 'O');
      UpperCharIs(nickname[2], 'f', 'F');
      var u := Upper(nickname);
      assert u == "DOF" <==> u[0] == 'D' && u[1] == 'O' && u[2] == 'F';
    }
  }

  /** As written, an ordinary valid nickname such as "alice" makes `connect` raise: the
      flag was never assigned, so nothing is stored and no lobby state is sent. */
  lemma FlagQuirkRaisesForOrdinaryNames(s: RoomState, c: ConnId)
    requires WellFormed(s)
    ensures var o := OpenSessionAsWritten(s, c, Some("alice"));
            && !Rejected("alice")
            && o.outcome == Raised
            && o.room.players == s.players && o.room.admin == s.admin
            && o.room.outbox == s.outbox
  {
  }

  /** As written, a valid nickname joins only when it is a spelling of "dof". */
  lemma OnlyFlaggedNamesJoinAsWritten(s: RoomState, c: ConnId, param: Option<string>)
    requires WellFormed(s)
    ensures OpenSessionAsWritten(s, c, param).outcome == Joined <==>
              !Rejected(NicknameOf(param)) && IsFlagged(NicknameOf(param))
    ensures OpenSessionAsWritten(s, c, param).outcome == Raised <==>
              !Rejected(NicknameOf(param)) && !IsFlagged(NicknameOf(param))
  {
  }

  /** With the flag computed for every nickname, every valid nickname joins, and the
      result agrees with the as-written handler wherever that one does not raise. */
  lemma OpenSessionAdmitsValidNames(s: RoomState, c: ConnId, param: Option<string>)
    requires WellFormed(s)
    ensures OpenSession(s, c, param).outcome == Joined <==> !Rejected(NicknameOf(param))
    ensures OpenSession(s, c, param).outcome != Raised
    ensures OpenSessionAsWritten(s, c, param).outcome != Raised ==>
              OpenSessionAsWritten(s, c, param) == OpenSession(s, c, param)
  {
  }
}
