/**
 * `createDMChatroom`: validate the request, return an existing direct-message
 * room that already holds every requested member, or else create the room.
 */
module ChatroomController {
  import opened Common

  /** The chat room `type` enum: 'dm' or 'channel'. */
  datatype RoomType = Dm | ChannelRoom

  function CastRoomType(s: string): (r: Option<RoomType>)
    ensures r == Some(Dm) <==> s == "dm"
    ensures r == Some(ChannelRoom) <==> s == "channel"
    ensures r.None? <==> s != "dm" && s != "channel"
  {
    if s == "dm" then Some(Dm) else if s == "channel" then Some(ChannelRoom) else None
  }

  datatype Room = Room(name: string, roomType: RoomType, members: seq<Id>)

  /** The request body: `type`, `members` and `name`, each possibly absent. */
  datatype DmRequest = DmRequest(roomType: Option<string>, members: Option<seq<Id>>, name: Option<string>)

  /**
   * The validation guard as the handler writes it,
   * `!type || members?.length < 2 || !name`: with no `members` at all the
   * middle test is `undefined < 2`, which is false.
   */
  predicate RejectedAsWritten(req: DmRequest)
  {
    !Present(req.roomType) || (req.members.Some? && |req.members.value| < 2) || !Present(req.name)
  }

  /** The guard as intended: a type, at least two members, and a name. */
  predicate Rejected(req: DmRequest)
  {
    !Present(req.roomType) || req.members.None? || |req.members.value| < 2 || !Present(req.name)
  }

  /** The written guard lets a request without a members list through; the intended one stops it. */
  lemma GuardAsWrittenAdmitsMissingMembers(roomType: string, name: string)
    requires roomType != "" && name != ""
    ensures !RejectedAsWritten(DmRequest(Some(roomType), None, Some(name)))
    ensures Rejected(DmRequest(Some(roomType), None, Some(name)))
  {
  }

  /** The two guards differ only there: whenever a members list is sent they agree. */
  lemma GuardsAgreeWhenMembersSent(req: DmRequest)
    requires req.members.Some?
    ensures RejectedAsWritten(req) <==> Rejected(req)
  {
  }

  /** `{ type: 'dm', members: { $all: members } }`: a direct-message room holding every requested member. */
  predicate Covers(room: Room, members: seq<Id>)
  {
    room.roomType == Dm && forall m :: m in members ==> m in room.members
  }

  /** The first matching room, as `findOne` returns it. */
  function FindDm(rooms: seq<Room>, members: seq<Id>): (r: Option<nat>)
    ensures r.None? <==> forall i :: 0 <= i < |rooms| ==> !Covers(rooms[i], members)
    ensures r.Some? ==> r.value < |rooms| && Covers(rooms[r.value], members)
    ensures r.Some? ==> forall i :: 0 <= i < r.value ==> !Covers(rooms[i], members)
  {
    FindFirst(rooms, (room: Room) => Covers(room, members))
  }

  /** The responses: 403, 400 "Invalid request", the room found, the room created, or a rejected `create`. */
  datatype DmOutcome = AccessDenied | InvalidRequest | Existing(room: Room) | Created(room: Room) | CreateFailed

  datatype DmResult = DmResult(rooms: seq<Room>, outcome: DmOutcome)

  /** One call of `createDMChatroom` against the chat room collection. */
  function CreateDmStep(rooms: seq<Room>, tokenValid: bool, req: DmRequest): (r: DmResult)
    ensures !tokenValid ==> r == DmResult(rooms, AccessDenied)
    ensures tokenValid && Rejected(req) ==> r == DmResult(rooms, InvalidRequest)
    ensures !r.outcome.Created? ==> r.rooms == rooms
    ensures tokenValid && !Rejected(req) && FindDm(rooms, req.members.value).Some? ==>
      r == DmResult(rooms, Existing(rooms[FindDm(rooms, req.members.value).value]))
    ensures (tokenValid && !Rejected(req) && FindDm(rooms, req.members.value).None?
             && CastRoomType(req.roomType.value).Some?) ==> r.outcome.Created?
    ensures (tokenValid && !Rejected(req) && FindDm(rooms, req.members.value).None?
             && CastRoomType(req.roomType.value).None?) ==> r == DmResult(rooms, CreateFailed)
    ensures r.outcome.Existing? ==>
      && FindDm(rooms, req.members.value).Some?
      && r.outcome.room == rooms[FindDm(rooms, req.members.value).value]
      && Covers(r.outcome.room, req.members.value)
    ensures r.outcome.Created? ==>
      && tokenValid && !Rejected(req)
      && FindDm(rooms, req.members.value).None?
      && r.outcome.room.name == req.name.value
      && Some(r.outcome.room.roomType) == CastRoomType(req.roomType.value)
      && r.outcome.room.members == req.members.value
      && r.rooms == rooms + [r.outcome.room]
    ensures r.outcome == CreateFailed ==>
      tokenValid && !Rejected(req) && CastRoomType(req.roomType.value).None?
  {
    if !tokenValid then DmResult(rooms, AccessDenied)
    else if Rejected(req) then DmResult(rooms, InvalidRequest)
    else
      var members := req.members.value;
      var existing := FindDm(rooms, members);
      if existing.Some? then DmResult(rooms, Existing(rooms[existing.value]))
      else
        var t := CastRoomType(req.roomType.value);
        if t.None? then DmResult(rooms, CreateFailed)
        else
          var room := Room(req.name.value, t.value, members);
          DmResult(rooms + [room], Created(room))
  }

  /**
   * Asking twice for the same direct-message room creates it at most once:
   * the second call finds the room the first call returned or created.
   */
  lemma SecondDmRequestFindsFirst(rooms: seq<Room>, req: DmRequest)
    requires !Rejected(req) && req.roomType == Some("dm")
    ensures var r1 := CreateDmStep(rooms, true, req);
      var r2 := CreateDmStep(r1.rooms, true, req);
      && |r1.rooms| <= |rooms| + 1
      && r2.rooms == r1.rooms
      && (r1.outcome.Created? || r1.outcome.Existing?)
      && r2.outcome == Existing(r1.outcome.room)
  {
    var r1 := CreateDmStep(rooms, true, req);
    var members := req.members.value;
    if r1.outcome.Created? {
      var room := r1.outcome.room;
      assert Covers(room, members);
      assert forall i :: 0 <= i < |rooms| ==> r1.rooms[i] == rooms[i];
      var k := FindDm(r1.rooms, members);
      assert r1.rooms[|rooms|] == room;
      assert k.Some?;
      assert k.value == |rooms|;
    }
  }

  /**
   * The lookup only ever matches 'dm' rooms, so a 'channel' request for
   * members no 'dm' room covers is created anew on every call.
   */
  lemma ChannelRequestsDuplicate(rooms: seq<Room>, req: DmRequest)
    requires !Rejected(req) && req.roomType == Some("channel")
    requires FindDm(rooms, req.members.value).None?
    ensures var r1 := CreateDmStep(rooms, true, req);
      var r2 := CreateDmStep(r1.rooms, true, req);
      var room := Room(req.name.value, ChannelRoom, req.members.value);
      && r1.rooms == rooms + [room]
      && r2.rooms == rooms + [room, room]
  {
  }

  /** The chat room collection. */
  class ChatroomStore {
    var rooms: seq<Room>

    constructor ()
      ensures rooms == []
    {
      rooms := [];
    }

    method CreateDmChatroom(tokenValid: bool, req: DmRequest) returns (outcome: DmOutcome)
      modifies this
      ensures DmResult(rooms, outcome) == CreateDmStep(old(rooms), tokenValid, req)
    {
      if !tokenValid {
        return AccessDenied;
      }
      if Rejected(req) {
        return InvalidRequest;
      }
      var members := req.members.value;
      var existingDM := FindDm(rooms, members);
      if existingDM.Some? {
        return Existing(rooms[existingDM.value]);
      }
      var roomType := CastRoomType(req.roomType.value);
      if roomType.None? {
        return CreateFailed;
      }
      var newChatroom := Room(req.name.value, roomType.value, members);
      rooms := rooms + [newChatroom];
      outcome := Created(newChatroom);
    }
  }
}
