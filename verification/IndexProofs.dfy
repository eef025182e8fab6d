/** How joining, leaving and closing keep the `connected` index and the rooms' user tables in agreement. */
module IndexProofs {
  import opened Types
  import opened Spec
  import opened Invariants

  /** A client that is in no (non-empty) room enters one, which may be new. */
  lemma IndexedEnter(connected: map<Xid, string>, rooms: map<string, RoomState>, me: Xid, rid: string, room: RoomState)
    requires Indexed(connected, rooms)
    requires me in connected ==> connected[me] == ""
    requires room.users.Keys == (if rid in rooms then rooms[rid].users.Keys else {}) + {me}
    ensures Indexed(connected[me := rid], rooms[rid := room])
  {
  }

  /** The index ignores changes that keep the user ids of a room. */
  lemma IndexedSameUsers(connected: map<Xid, string>, rooms: map<string, RoomState>, rid: string, room: RoomState)
    requires Indexed(connected, rooms) && rid in rooms
    requires room.users.Keys == rooms[rid].users.Keys
    ensures Indexed(connected, rooms[rid := room])
  {
  }

  lemma IndexedLeave(connected: map<Xid, string>, rooms: map<string, RoomState>, me: Xid, rid: string, room: RoomState)
    requires Indexed(connected, rooms) && me in connected && rid == connected[me] && rid != ""
    requires room.users.Keys == rooms[rid].users.Keys - {me}
    ensures Indexed(connected - {me}, rooms[rid := room])
  {
  }

  /** A room closes and its users, if any, are forgotten. */
  lemma IndexedClose(connected: map<Xid, string>, rooms: map<string, RoomState>, rid: string)
    requires Indexed(connected, rooms) && rid in rooms && rid != ""
    ensures Indexed(connected - rooms[rid].users.Keys, rooms - {rid})
  {
  }

  /** A client that is in no (non-empty) room is added to or removed from the index. */
  lemma IndexedConnect(connected: map<Xid, string>, rooms: map<string, RoomState>, me: Xid)
    requires Indexed(connected, rooms)
    requires me in connected ==> connected[me] == ""
    ensures Indexed(connected[me := ""], rooms)
    ensures Indexed(connected - {me}, rooms)
  {
  }
}
