/** The real-time relay of the server: the `join-duel`, `code-change` and
    `disconnect` handlers over the table of rooms and their member sockets.
    A room key is the `duelId` field of the payload as the handler
    destructures it, so it may be undefined (`None`). */
module SocketRooms {
  import opened Wrappers

  type SocketId = string

  type RoomKey = Option<string>

  type Rooms = map<RoomKey, set<SocketId>>

  /** The payload of `join-duel`: the object the duel page sends, or the bare
      id the watch page sends, whose destructured fields are undefined. */
  datatype JoinPayload = JoinArgs(duelId: Option<string>, peerId: Option<string>) | BareJoin(id: string)

  /** The payload of `code-change`. */
  datatype CodeChangePayload = CodeChange(duelId: Option<string>, code: Option<string>)

  /** What a client receives: `peer-connected` with the peer id, or
      `code-update` with the bare code and no sender identity. */
  datatype ServerEvent = PeerConnected(peerId: Option<string>) | CodeUpdate(code: Option<string>)

  datatype Delivery = Delivery(to: SocketId, event: ServerEvent)

  function JoinRoom(p: JoinPayload): RoomKey
  {
    match p
    case JoinArgs(duelId, _) => duelId
    case BareJoin(_) => None
  }

  function JoinPeer(p: JoinPayload): Option<string>
  {
    match p
    case JoinArgs(_, peerId) => peerId
    case BareJoin(_) => None
  }

  function Members(rooms: Rooms, key: RoomKey): set<SocketId>
  {
    if key in rooms then rooms[key] else {}
  }

  /** `socket.join(key)`: the socket becomes a member; no other room changes. */
  function Join(rooms: Rooms, key: RoomKey, s: SocketId): (r: Rooms)
    ensures Members(r, key) == Members(rooms, key) + {s}
    ensures forall k :: k != key ==> Members(r, k) == Members(rooms, k)
  {
    rooms[key := Members(rooms, key) + {s}]
  }

  /** `socket.to(key).emit(event)`: the event for every member of the room but the sender. */
  function Broadcast(rooms: Rooms, key: RoomKey, sender: SocketId, event: ServerEvent): (out: set<Delivery>)
    ensures forall d :: d in out <==> d.to in Members(rooms, key) && d.to != sender && d.event == event
  {
    set s | s in Members(rooms, key) && s != sender :: Delivery(s, event)
  }

  /** Joining twice is joining once. */
  lemma JoinIdempotent(rooms: Rooms, key: RoomKey, s: SocketId)
    ensures Join(Join(rooms, key, s), key, s) == Join(rooms, key, s)
  {
  }

  /** After `join-duel`, every earlier member other than the sender hears
      `peer-connected`, and nobody else does: not the sender, not a socket
      that is only in other rooms. */
  lemma JoinAnnouncesToOthers(rooms: Rooms, p: JoinPayload, sender: SocketId, s: SocketId)
    ensures var out := Broadcast(Join(rooms, JoinRoom(p), sender), JoinRoom(p), sender, PeerConnected(JoinPeer(p)));
      (Delivery(s, PeerConnected(JoinPeer(p))) in out <==> s in Members(rooms, JoinRoom(p)) && s != sender) &&
      (forall d :: d in out ==> d.to != sender && d.to in Members(rooms, JoinRoom(p)))
  {
  }

  /** The watch page's bare-id join lands in the undefined room, and its peer id is undefined. */
  lemma BareJoinUsesUndefinedRoom(rooms: Rooms, id: string, sender: SocketId)
    ensures sender in Members(Join(rooms, JoinRoom(BareJoin(id)), sender), None)
    ensures Members(Join(rooms, JoinRoom(BareJoin(id)), sender), Some(id)) == Members(rooms, Some(id))
    ensures JoinPeer(BareJoin(id)) == None
  {
  }

  /** `code-change` reaches every member but the sender whether or not the
      sender is a member: there is no membership check. */
  lemma RelayWithoutMembership(rooms: Rooms, key: RoomKey, sender: SocketId, code: Option<string>)
    requires sender !in Members(rooms, key)
    ensures forall s :: Delivery(s, CodeUpdate(code)) in Broadcast(rooms, key, sender, CodeUpdate(code)) <==> s in Members(rooms, key)
  {
  }

  /** The watch page's object join puts the watcher in the room named by the
      duel id, so every later `code-change` for that duel from another socket
      reaches it. */
  lemma WatcherReceivesRelay(rooms: Rooms, id: string, peer: Option<string>, watcher: SocketId,
                             sender: SocketId, code: Option<string>)
    requires sender != watcher
    ensures var r := Join(rooms, JoinRoom(JoinArgs(Some(id), peer)), watcher);
      Delivery(watcher, CodeUpdate(code)) in Broadcast(r, Some(id), sender, CodeUpdate(code))
  {
  }

  /** The room table of the server. */
  class RoomTable {
    var rooms: Rooms

    constructor ()
      ensures rooms == map[]
    {
      rooms := map[];
    }

    /** `join-duel`: add the sender to the room, then announce its peer id to the others. */
    method JoinDuel(sender: SocketId, p: JoinPayload) returns (out: set<Delivery>)
      modifies this
      ensures rooms == Join(old(rooms), JoinRoom(p), sender)
      ensures out == Broadcast(rooms, JoinRoom(p), sender, PeerConnected(JoinPeer(p)))
    {
      var key := JoinRoom(p);
      rooms := rooms[key := Members(rooms, key) + {sender}];
      out := set s | s in rooms[key] && s != sender :: Delivery(s, PeerConnected(JoinPeer(p)));
    }

    /** `code-change`: relay the bare code to the room; the table is not touched. */
    method RelayCode(sender: SocketId, p: CodeChangePayload) returns (out: set<Delivery>)
      ensures forall d :: d in out <==> d.to in Members(rooms, p.duelId) && d.to != sender && d.event == CodeUpdate(p.code)
    {
      var members := if p.duelId in rooms then rooms[p.duelId] else {};
      out := set s | s in members && s != sender :: Delivery(s, CodeUpdate(p.code));
    }

    /** `disconnect`: the handler only logs. */
    method Disconnect(sender: SocketId)
      ensures rooms == old(rooms)
    {
    }
  }
}
