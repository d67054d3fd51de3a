/** The process-wide table of rooms. Creation is first-writer-wins; every
    room event first resolves its room id here and then runs the matching
    `Room` method on the room found. */
module RoomRegistry {
  import opened Ledger
  import opened Rooms

  /** The result of resolving a room id: the room, or the error the
      handler reports instead of running. */
  datatype Lookup = Found(room: Room) | Missing(error: Error)

  class Registry {
    var rooms: map<string, Room>

    /** Each room is stored under its own id, which also makes distinct
        keys hold distinct rooms, and each room keeps its own invariant. */
    ghost predicate Valid()
      reads this, rooms.Values
    {
      forall k :: k in rooms ==> rooms[k].id == k && rooms[k].Valid()
    }

    constructor ()
      ensures Valid() && rooms == map[]
    {
      rooms := map[];
    }

    /** create_room: refuses an id already present and leaves that room as
        it was; otherwise adds a fresh room with the default state. */
    method CreateRoom(id: string) returns (o: Outcome)
      requires Valid()
      modifies this
      ensures Valid()
      ensures id in old(rooms) ==> o == Err(RoomAlreadyExists) && rooms == old(rooms) && unchanged(rooms[id])
      ensures id !in old(rooms) ==>
        o == Ok(RoomCreated) && rooms.Keys == old(rooms).Keys + {id} && fresh(rooms[id]) &&
        (forall k :: k in old(rooms) ==> rooms[k] == old(rooms)[k])
      ensures id !in old(rooms) ==>
        var r := rooms[id];
        r.id == id && !r.started && !r.created &&
        r.startingMoney == DefaultStartingMoney && r.passGoMoney == DefaultPassGoMoney &&
        r.players == [] && r.transactions == [] && r.bankRequests == map[]
    {
      if id in rooms {
        return Err(RoomAlreadyExists);
      }
      var r := new Room(id);
      rooms := rooms[id := r];
      o := Ok(RoomCreated);
    }

    /** check_room: a room id is available exactly when no room has it. */
    method CheckRoom(id: string) returns (available: bool)
      ensures available <==> id !in rooms
    {
      available := id !in rooms;
    }

    /** The guard every room event starts with: an empty or unknown id
        yields `InvalidRoomId`, and the handler stops there. */
    method Find(roomId: string) returns (r: Lookup)
      requires Valid()
      ensures r.Missing? <==> roomId == "" || roomId !in rooms
      ensures r.Missing? ==> r.error == InvalidRoomId
      ensures r.Found? ==> r.room == rooms[roomId] && r.room.id == roomId && r.room.Valid()
    {
      if roomId == "" || roomId !in rooms {
        return Missing(InvalidRoomId);
      }
      r := Found(rooms[roomId]);
    }
  }
}
