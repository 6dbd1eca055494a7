/**
 * The wait-room service: a host opens a room, other users join and leave it,
 * and the host tears it down. Two key-value repositories hold the state: the
 * rooms keyed by id, and one JoinMember marker per (user, room) membership.
 */
module WaitRooms {
  import opened Errors

  /** A stored wait room. `members` lists the user ids in the room, the host included. */
  datatype WaitRoom = WaitRoom(id: string, hostId: string, hostName: string, roomName: string, members: seq<string>)
  {
    /** `WaitRoom.isHost`. */
    predicate IsHost(userId: string) {
      hostId == userId
    }
  }

  /** Membership marker: user `userId` is in room `roomId`. */
  datatype JoinMember = JoinMember(userId: string, roomId: string)

  /** `CreateWaitRoomDto`: who asks for a room, and its name. */
  datatype CreateWaitRoomRequest = CreateWaitRoomRequest(userId: string, roomName: string)

  /** `JoinStatusWaitRoomDto`: a user acting on a room. */
  datatype JoinStatusRequest = JoinStatusRequest(roomId: string, userId: string)

  /**
   * What `WaitRoom.joinMembers` / `WaitRoom.leaveMember` report: whether the
   * membership change was accepted, and the room object after the call.
   */
  datatype MemberChange = MemberChange(accepted: bool, room: WaitRoom)

  /** `WaitRoom.of(dto, username)`: the requester hosts the room and is its only member. */
  function NewRoom(id: string, req: CreateWaitRoomRequest, username: string): WaitRoom {
    WaitRoom(id, req.userId, username, req.roomName, [req.userId])
  }

  /** `JoinMember.of(waitRoom)`: the marker of a room's host. */
  function HostMarker(room: WaitRoom): JoinMember {
    JoinMember(room.hostId, room.id)
  }

  /** The markers of `members` in room `roomId`. */
  function MarkersOf(members: seq<string>, roomId: string): set<JoinMember> {
    set m | m in members :: JoinMember(m, roomId)
  }

  /** Every marker of `MarkersOf(members, roomId)` is a marker of a listed member in that room. */
  lemma MarkersOfRoom(members: seq<string>, roomId: string, j: JoinMember)
    ensures j in MarkersOf(members, roomId) <==> j.roomId == roomId && j.userId in members
  {
  }

  lemma MarkersOfExtend(members: seq<string>, roomId: string, i: nat)
    requires i < |members|
    ensures MarkersOf(members[..i + 1], roomId) == MarkersOf(members[..i], roomId) + {JoinMember(members[i], roomId)}
  {
    assert members[..i + 1] == members[..i] + [members[i]];
  }

  /**
   * WaitRoomService. The repositories are the fields `rooms` and `joins`; the
   * collaborators it is built with (the policy service, the member service and
   * the WaitRoom domain methods) are constants whose behaviour is left open,
   * so every contract below holds whatever they answer.
   */
  class WaitRoomService {
    var rooms: map<string, WaitRoom>
    var joins: set<JoinMember>

    const createWaitRoomPolicy: string -> bool
    const joinWaitRoomPolicy: string -> bool
    const findUsernameById: string -> string
    const joinMembers: (WaitRoom, string) -> MemberChange
    const leaveRoomMember: (WaitRoom, string) -> MemberChange

    /** The room repository keys each room by its own id, as `save(room)` does. */
    ghost predicate Valid()
      reads this
    {
      forall id :: id in rooms ==> rooms[id].id == id
    }

    constructor (createWaitRoomPolicy: string -> bool, joinWaitRoomPolicy: string -> bool,
                 findUsernameById: string -> string,
                 joinMembers: (WaitRoom, string) -> MemberChange,
                 leaveRoomMember: (WaitRoom, string) -> MemberChange)
      ensures Valid() && rooms == map[] && joins == {}
      ensures this.createWaitRoomPolicy == createWaitRoomPolicy && this.joinWaitRoomPolicy == joinWaitRoomPolicy
      ensures this.findUsernameById == findUsernameById
      ensures this.joinMembers == joinMembers && this.leaveRoomMember == leaveRoomMember
    {
      rooms := map[];
      joins := {};
      this.createWaitRoomPolicy := createWaitRoomPolicy;
      this.joinWaitRoomPolicy := joinWaitRoomPolicy;
      this.findUsernameById := findUsernameById;
      this.joinMembers := joinMembers;
      this.leaveRoomMember := leaveRoomMember;
    }

    /** `findById`: the stored room, or NotExistsRoomId when the id is unknown. */
    function FindById(roomId: string): (r: Result<WaitRoom>)
      reads this
      ensures r.Failure? <==> roomId !in rooms
      ensures r.Failure? ==> r.error == NotExistsRoomId
      ensures r.Success? ==> r.value == rooms[roomId]
    {
      if roomId in rooms then Success(rooms[roomId]) else Failure(NotExistsRoomId)
    }

    /** `findWaitRoomId`: the room stored under `roomId`, unchanged, or NotExistsRoomId. */
    method FindWaitRoomId(roomId: string) returns (r: Result<WaitRoom>)
      requires Valid()
      ensures roomId !in rooms <==> r == Failure(NotExistsRoomId)
      ensures roomId in rooms ==> r == Success(rooms[roomId]) && r.value.id == roomId
    {
      r := FindById(roomId);
    }

    /** `findWaitRoomByHostId`: some stored room hosted by `hostId`, or NotExistsRoomId if there is none. */
    method FindWaitRoomByHostId(hostId: string) returns (r: Result<WaitRoom>)
      ensures r.Failure? <==> forall id :: id in rooms ==> !rooms[id].IsHost(hostId)
      ensures r.Failure? ==> r.error == NotExistsRoomId
      ensures r.Success? ==> r.value in rooms.Values && r.value.IsHost(hostId)
    {
      if exists id :: id in rooms && rooms[id].IsHost(hostId) {
        var id :| id in rooms && rooms[id].IsHost(hostId);
        r := Success(rooms[id]);
      } else {
        r := Failure(NotExistsRoomId);
      }
    }

    /**
     * `saveWaitRoom`: the creation policy runs first; on success the new room
     * (id `newId`, chosen by the room factory) and its host's marker are stored.
     */
    method SaveWaitRoom(req: CreateWaitRoomRequest, newId: string) returns (r: Result<string>)
      requires Valid()
      modifies this
      ensures Valid()
      ensures !createWaitRoomPolicy(req.userId) ==>
        r == Failure(PolicyViolation) && rooms == old(rooms) && joins == old(joins)
      ensures createWaitRoomPolicy(req.userId) ==>
        && r == Success(newId)
        && rooms == old(rooms)[newId := NewRoom(newId, req, findUsernameById(req.userId))]
        && joins == old(joins) + {JoinMember(req.userId, newId)}
      ensures r.Success? ==> FindById(r.value).Success? && FindById(r.value).value.IsHost(req.userId)
    {
      if !createWaitRoomPolicy(req.userId) {
        return Failure(PolicyViolation);
      }
      var username := findUsernameById(req.userId);
      var room := SaveWaitRoomAndStatusJoinHost(req, username, newId);
      return Success(room.id);
    }

    /**
     * `addMembers`: the join policy, then the room lookup, then
     * `WaitRoom.joinMembers`; only an accepted join writes to the stores.
     */
    method AddMembers(req: JoinStatusRequest) returns (r: Result<bool>)
      requires Valid()
      modifies this
      ensures Valid()
      ensures !joinWaitRoomPolicy(req.userId) ==> r == Failure(PolicyViolation)
      ensures joinWaitRoomPolicy(req.userId) && req.roomId !in old(rooms) ==> r == Failure(NotExistsRoomId)
      ensures r != Success(true) ==> rooms == old(rooms) && joins == old(joins)
      ensures joinWaitRoomPolicy(req.userId) && req.roomId in old(rooms) ==>
        var change := joinMembers(old(rooms)[req.roomId], req.userId);
        && r == Success(change.accepted)
        && (change.accepted ==>
              && rooms == old(rooms)[change.room.id := change.room]
              && joins == old(joins) + {JoinMember(req.userId, req.roomId)})
    {
      if !joinWaitRoomPolicy(req.userId) {
        return Failure(PolicyViolation);
      }
      var found := FindById(req.roomId);
      if found.Failure? {
        return Failure(found.error);
      }
      var change := joinMembers(found.value, req.userId);
      if change.accepted {
        var saved := SaveWaitRoomAndStatusJoinMember(req, change.room);
        return Success(saved);
      }
      return Success(false);
    }

    /**
     * `leaveMember`: the room lookup, then `WaitRoom.leaveMember`; an accepted
     * leave drops the user's marker and saves the room.
     */
    method LeaveMember(req: JoinStatusRequest) returns (r: Result<bool>)
      requires Valid()
      modifies this
      ensures Valid()
      ensures req.roomId !in old(rooms) ==> r == Failure(NotExistsRoomId)
      ensures r != Success(true) ==> rooms == old(rooms) && joins == old(joins)
      ensures req.roomId in old(rooms) ==>
        var change := leaveRoomMember(old(rooms)[req.roomId], req.userId);
        && r == Success(change.accepted)
        && (change.accepted ==>
              && rooms == old(rooms)[change.room.id := change.room]
              && joins == old(joins) - {JoinMember(req.userId, req.roomId)})
    {
      var found := FindById(req.roomId);
      if found.Failure? {
        return Failure(found.error);
      }
      var change := leaveRoomMember(found.value, req.userId);
      if change.accepted {
        SaveWaitRoomAndStatusLeaveMember(req, change.room);
        return Success(true);
      }
      return Success(false);
    }

    /**
     * `deleteWaitRoomByHost`: only the host may tear a room down; teardown
     * drops the marker of every member of the room, then the room itself.
     */
    method DeleteWaitRoomByHost(req: JoinStatusRequest) returns (r: Result<bool>)
      requires Valid()
      modifies this
      ensures Valid()
      ensures req.roomId !in old(rooms) ==> r == Failure(NotExistsRoomId)
      ensures r != Success(true) ==> rooms == old(rooms) && joins == old(joins)
      ensures req.roomId in old(rooms) ==> r == Success(old(rooms)[req.roomId].IsHost(req.userId))
      ensures r == Success(true) ==>
        && rooms == old(rooms) - {req.roomId}
        && joins == old(joins) - MarkersOf(old(rooms)[req.roomId].members, req.roomId)
        && FindById(req.roomId) == Failure(NotExistsRoomId)
      ensures forall j :: j in old(joins) && j.roomId != req.roomId ==> j in joins
      ensures forall id :: id in old(rooms) && id != req.roomId ==> id in rooms && rooms[id] == old(rooms)[id]
    {
      var found := FindById(req.roomId);
      if found.Failure? {
        return Failure(found.error);
      }
      if found.value.IsHost(req.userId) {
        SaveWaitRoomAndStatusLeaveAll(found.value);
        return Success(true);
      }
      return Success(false);
    }

    /** `saveWaitRoomAndStatusJoin(createWaitRoomDto, username)`: store the new room and its host's marker. */
    method SaveWaitRoomAndStatusJoinHost(req: CreateWaitRoomRequest, username: string, newId: string)
      returns (room: WaitRoom)
      requires Valid()
      modifies this
      ensures Valid()
      ensures room == NewRoom(newId, req, username)
      ensures rooms == old(rooms)[room.id := room]
      ensures joins == old(joins) + {HostMarker(room)}
    {
      room := NewRoom(newId, req, username);
      rooms := rooms[room.id := room];
      joins := joins + {HostMarker(room)};
    }

    /** `saveWaitRoomAndStatusJoin(joinStatusWaitRoomDto, waitRoom)`: store the joined room and the joiner's marker. */
    method SaveWaitRoomAndStatusJoinMember(req: JoinStatusRequest, room: WaitRoom) returns (saved: bool)
      requires Valid()
      modifies this
      ensures Valid() && saved
      ensures rooms == old(rooms)[room.id := room]
      ensures joins == old(joins) + {JoinMember(req.userId, req.roomId)}
    {
      rooms := rooms[room.id := room];
      joins := joins + {JoinMember(req.userId, req.roomId)};
      saved := true;
    }

    /** `saveWaitRoomAndStatusLeave(joinStatusWaitRoomDto, waitRoom)`: drop the leaver's marker, store the room. */
    method SaveWaitRoomAndStatusLeaveMember(req: JoinStatusRequest, room: WaitRoom)
      requires Valid()
      modifies this
      ensures Valid()
      ensures joins == old(joins) - {JoinMember(req.userId, req.roomId)}
      ensures rooms == old(rooms)[room.id := room]
    {
      joins := joins - {JoinMember(req.userId, req.roomId)};
      rooms := rooms[room.id := room];
    }

    /** `saveWaitRoomAndStatusLeave(waitRoom)`: drop every member's marker one by one, then the room. */
    method SaveWaitRoomAndStatusLeaveAll(room: WaitRoom)
      requires Valid()
      modifies this
      ensures Valid()
      ensures joins == old(joins) - MarkersOf(room.members, room.id)
      ensures rooms == old(rooms) - {room.id}
    {
      var members := room.members;
      var i := 0;
      while i < |members|
        invariant 0 <= i <= |members|
        invariant joins == old(joins) - MarkersOf(members[..i], room.id)
        invariant rooms == old(rooms)
      {
        MarkersOfExtend(members, room.id, i);
        joins := joins - {JoinMember(members[i], room.id)};
        i := i + 1;
      }
      assert members[..i] == members;
      rooms := rooms - {room.id};
    }
  }
}
