/**
 * The names under which a room keeps its state: the channel-layer group it
 * broadcasts to and the three Redis keys it writes (the players hash, the
 * admin pointer and the game state).
 */
module Keys {

  /** The one room every connection joins. */
  const RoomId: string := "global"

  function GroupName(roomId: string): string {
    "game_" + roomId
  }

  function PlayersKey(roomId: string): string {
    "room:" + roomId + ":players"
  }

  function AdminKey(roomId: string): string {
    "room:" + roomId + ":admin"
  }

  function StateKey(roomId: string): string {
    "room:" + roomId + ":state"
  }

  /** The last character of a key: its kind is told apart by the final letter of its suffix. */
  lemma LastOfSuffixed(prefix: string, suffix: string)
    requires suffix != []
    ensures (prefix + suffix)[|prefix + suffix| - 1] == suffix[|suffix| - 1]
  {
  }

  /** The players hash, the admin pointer and the state key of any two rooms never
      share a name, so the three are independent pieces of store state. */
  lemma StoreKeysDistinct(r1: string, r2: string)
    ensures PlayersKey(r1) != AdminKey(r2)
    ensures PlayersKey(r1) != StateKey(r2)
    ensures AdminKey(r1) != StateKey(r2)
  {
    LastOfSuffixed("room:" + r1, ":players");
    LastOfSuffixed("room:" + r2, ":admin");
    LastOfSuffixed("room:" + r1, ":admin");
    LastOfSuffixed("room:" + r2, ":state");
    assert PlayersKey(r1) == ("room:" + r1) + ":players";
    assert AdminKey(r2) == ("room:" + r2) + ":admin";
    assert AdminKey(r1) == ("room:" + r1) + ":admin";
    assert StateKey(r2) == ("room:" + r2) + ":state";
  }

  /** The room id sits between the fixed prefix and suffix of a key. */
  lemma InfixRecovered(prefix: string, r: string, suffix: string)
    ensures (prefix + r + suffix)[|prefix|..|prefix| + |r|] == r
  {
  }

  /** Two rooms with the same players, admin or state key are the same room: rooms
      never overwrite each other's state. */
  lemma RoomKeysInjective(r1: string, r2: string)
    ensures PlayersKey(r1) == PlayersKey(r2) ==> r1 == r2
    ensures AdminKey(r1) == AdminKey(r2) ==> r1 == r2
    ensures StateKey(r1) == StateKey(r2) ==> r1 == r2
  {
    InfixRecovered("room:", r1, ":players");
    InfixRecovered("room:", r2, ":players");
    InfixRecovered("room:", r1, ":admin");
    InfixRecovered("room:", r2, ":admin");
    InfixRecovered("room:", r1, ":state");
    InfixRecovered("room:", r2, ":state");
  }
}
