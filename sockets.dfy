/** The real-time notification registry: which user is on which socket,
    which sockets are in which rooms, and which sockets each emitted event
    reaches. The socket.io transport itself is not modelled: an emit is
    recorded as a delivery with its target. */
module Sockets {
  import opened Collections

  type SocketId = string

  /** Who an emit is addressed to: every connected socket, the members of
      a room, or one socket (each socket is alone in the room of its id). */
  datatype Target = Everyone | Room(name: string) | Single(socket: SocketId)

  /** One emitted event: its name, its target, and the id or text it is about. */
  datatype Delivery = Delivery(event: string, target: Target, subject: string)

  /** The room of a post's live comment thread. */
  function BlogRoom(blogId: string): (r: string)
    ensures r == "blog-" + blogId
  {
    "blog-" + blogId
  }

  /** The sockets a delivery reaches, given who is connected and in which rooms. */
  function Reached(d: Delivery, connected: set<SocketId>, rooms: map<SocketId, set<string>>): (r: set<SocketId>)
    ensures r <= connected
    ensures d.target.Everyone? ==> r == connected
    ensures d.target.Room? ==> forall s :: s in r <==> s in connected && s in rooms && d.target.name in rooms[s]
    ensures d.target.Single? ==> forall s :: s in r <==> s == d.target.socket && s in connected
  {
    match d.target
    case Everyone => connected
    case Room(n) => set s | s in connected && s in rooms && n in rooms[s]
    case Single(t) => if t in connected then {t} else {}
  }

  /** How many of the deliveries `ds` reach socket `s`. */
  function Copies(ds: seq<Delivery>, s: SocketId, connected: set<SocketId>, rooms: map<SocketId, set<string>>): (n: nat)
    ensures n <= |ds|
  {
    if ds == [] then 0
    else (if s in Reached(ds[0], connected, rooms) then 1 else 0) + Copies(ds[1..], s, connected, rooms)
  }

  /** The deliveries of each emit helper; all of them are empty before
      `initialize`, since every helper first tests `this.io`. */
  function NewBlogEvents(io: bool, title: string): (ds: seq<Delivery>)
    ensures !io ==> ds == []
    ensures io ==> ds == [Delivery("new-blog", Everyone, title)]
  {
    if io then [Delivery("new-blog", Everyone, title)] else []
  }

  function NewCommentEvents(io: bool, blogId: string, commentId: string): (ds: seq<Delivery>)
    ensures !io ==> ds == []
    ensures io ==> ds == [Delivery("new-comment", Room(BlogRoom(blogId)), commentId)]
  {
    if io then [Delivery("new-comment", Room(BlogRoom(blogId)), commentId)] else []
  }

  function CommentUpdateEvents(io: bool, blogId: string, commentId: string): (ds: seq<Delivery>)
    ensures !io ==> ds == []
    ensures io ==> ds == [Delivery("comment-updated", Room(BlogRoom(blogId)), commentId)]
  {
    if io then [Delivery("comment-updated", Room(BlogRoom(blogId)), commentId)] else []
  }

  function CommentDeleteEvents(io: bool, blogId: string, commentId: string): (ds: seq<Delivery>)
    ensures !io ==> ds == []
    ensures io ==> ds == [Delivery("comment-deleted", Room(BlogRoom(blogId)), commentId)]
  {
    if io then [Delivery("comment-deleted", Room(BlogRoom(blogId)), commentId)] else []
  }

  /** `emitBlogUpdate` emits to everyone and then again to the post's room. */
  function BlogUpdateEvents(io: bool, blogId: string): (ds: seq<Delivery>)
    ensures !io ==> ds == []
    ensures io ==> ds == [Delivery("blog-updated", Everyone, blogId),
                          Delivery("blog-updated", Room(BlogRoom(blogId)), blogId)]
  {
    if io then [Delivery("blog-updated", Everyone, blogId),
                Delivery("blog-updated", Room(BlogRoom(blogId)), blogId)]
    else []
  }

  function BlogDeleteEvents(io: bool, blogId: string): (ds: seq<Delivery>)
    ensures !io ==> ds == []
    ensures io ==> ds == [Delivery("blog-deleted", Everyone, blogId)]
  {
    if io then [Delivery("blog-deleted", Everyone, blogId)] else []
  }

  function UserActionEvents(io: bool, action: string): (ds: seq<Delivery>)
    ensures !io ==> ds == []
    ensures io ==> ds == [Delivery("user-action", Everyone, action)]
  {
    if io then [Delivery("user-action", Everyone, action)] else []
  }

  /** `notifyUser`: only the socket mapped to the user, and only when
      there is such a mapping and a server. */
  function NotifyEvents(io: bool, users: map<string, SocketId>, userId: string, message: string): (ds: seq<Delivery>)
    ensures !io || userId !in users ==> ds == []
    ensures io && userId in users ==> ds == [Delivery("notification", Single(users[userId]), message)]
  {
    if io && userId in users then [Delivery("notification", Single(users[userId]), message)] else []
  }

  /** A member of a post's room receives a blog update twice; any other
      connected socket receives it once. */
  lemma BlogUpdateCopies(blogId: string, s: SocketId, connected: set<SocketId>, rooms: map<SocketId, set<string>>)
    requires s in connected
    ensures Copies(BlogUpdateEvents(true, blogId), s, connected, rooms)
            == if s in rooms && BlogRoom(blogId) in rooms[s] then 2 else 1
  {
    var ds := BlogUpdateEvents(true, blogId);
    assert ds[1..][1..] == [];
  }

  /** Comment events reach exactly the connected members of the post's room. */
  lemma CommentEventsStayInRoom(blogId: string, commentId: string, s: SocketId,
                                connected: set<SocketId>, rooms: map<SocketId, set<string>>)
    ensures Copies(NewCommentEvents(true, blogId, commentId), s, connected, rooms) == 1
            <==> s in connected && s in rooms && BlogRoom(blogId) in rooms[s]
  {
    var ds := NewCommentEvents(true, blogId, commentId);
    assert ds[1..] == [];
  }

  /** Deliveries add up: the copies of two runs of emits are the sum of
      the copies of each. */
  lemma {:induction false} CopiesAppend(a: seq<Delivery>, b: seq<Delivery>, s: SocketId,
                                        connected: set<SocketId>, rooms: map<SocketId, set<string>>)
    ensures Copies(a + b, s, connected, rooms) == Copies(a, s, connected, rooms) + Copies(b, s, connected, rooms)
  {
    if a == [] {
      assert a + b == b;
    } else {
      assert (a + b)[0] == a[0];
      assert (a + b)[1..] == a[1..] + b;
      CopiesAppend(a[1..], b, s, connected, rooms);
    }
  }

  /** `emitNewBlog` reaches every connected socket once, and nothing else. */
  lemma NewBlogReachesEveryone(title: string, s: SocketId, connected: set<SocketId>, rooms: map<SocketId, set<string>>)
    ensures Copies(NewBlogEvents(true, title), s, connected, rooms) == if s in connected then 1 else 0
  {
    var ds := NewBlogEvents(true, title);
    assert ds[1..] == [];
  }

  /** `emitBlogDelete` reaches every connected socket once, and nothing else. */
  lemma BlogDeleteReachesEveryone(blogId: string, s: SocketId, connected: set<SocketId>, rooms: map<SocketId, set<string>>)
    ensures Copies(BlogDeleteEvents(true, blogId), s, connected, rooms) == if s in connected then 1 else 0
  {
    var ds := BlogDeleteEvents(true, blogId);
    assert ds[1..] == [];
  }

  /** `broadcastUserAction` reaches every connected socket once, and nothing else. */
  lemma UserActionReachesEveryone(action: string, s: SocketId, connected: set<SocketId>, rooms: map<SocketId, set<string>>)
    ensures Copies(UserActionEvents(true, action), s, connected, rooms) == if s in connected then 1 else 0
  {
    var ds := UserActionEvents(true, action);
    assert ds[1..] == [];
  }

  /** `emitCommentUpdate` reaches the connected members of the post's
      room once each, and no other socket. */
  lemma CommentUpdateStaysInRoom(blogId: string, commentId: string, s: SocketId,
                                 connected: set<SocketId>, rooms: map<SocketId, set<string>>)
    ensures Copies(CommentUpdateEvents(true, blogId, commentId), s, connected, rooms)
            == if s in connected && s in rooms && BlogRoom(blogId) in rooms[s] then 1 else 0
  {
    var ds := CommentUpdateEvents(true, blogId, commentId);
    assert ds[1..] == [];
  }

  /** `emitCommentDelete` reaches the connected members of the post's
      room once each, and no other socket. */
  lemma CommentDeleteStaysInRoom(blogId: string, commentId: string, s: SocketId,
                                 connected: set<SocketId>, rooms: map<SocketId, set<string>>)
    ensures Copies(CommentDeleteEvents(true, blogId, commentId), s, connected, rooms)
            == if s in connected && s in rooms && BlogRoom(blogId) in rooms[s] then 1 else 0
  {
    var ds := CommentDeleteEvents(true, blogId, commentId);
    assert ds[1..] == [];
  }

  /** `notifyUser` reaches one socket, once: the one the user is mapped
      to, when there is a server and that socket is still connected. */
  lemma NotifyReachesOnlyMappedSocket(io: bool, users: map<string, SocketId>, userId: string, message: string,
                                      s: SocketId, connected: set<SocketId>, rooms: map<SocketId, set<string>>)
    ensures Copies(NotifyEvents(io, users, userId, message), s, connected, rooms)
            == if io && userId in users && s == users[userId] && s in connected then 1 else 0
  {
    var ds := NotifyEvents(io, users, userId, message);
    if ds != [] {
      assert ds[1..] == [];
    }
  }

  datatype IOResult = Server | NotInitialized(message: string)

  /** The singleton that owns the socket.io server and the registry. */
  class SocketService {
    /** `this.io !== null`: `initialize` has been called. */
    var io: bool
    /** `this.users`: user id to socket id. */
    var users: map<string, SocketId>
    var connected: set<SocketId>
    /** `socket.userId` of each connected socket that has joined. */
    var socketUser: map<SocketId, string>
    /** The blog rooms each connected socket is in. */
    var rooms: map<SocketId, set<string>>
    /** Every delivery emitted so far, oldest first. */
    var sent: seq<Delivery>

    predicate Valid()
      reads this
    {
      socketUser.Keys <= connected && rooms.Keys == connected
      && forall s :: s in socketUser ==> socketUser[s] != ""
    }

    constructor ()
      ensures Valid() && !io && users == map[] && connected == {} && socketUser == map[]
      ensures rooms == map[] && sent == []
    {
      io, users, connected, socketUser, rooms, sent := false, map[], {}, map[], map[], [];
    }

    /** `initialize(server)`: from now on emits reach sockets. */
    method Initialize()
      modifies this
      ensures io
      ensures users == old(users) && connected == old(connected) && socketUser == old(socketUser)
      ensures rooms == old(rooms) && sent == old(sent)
    {
      io := true;
    }

    /** A client connects: a new socket in no blog room. */
    method Connect(s: SocketId)
      requires Valid() && io && s !in connected
      modifies this
      ensures Valid()
      ensures connected == old(connected) + {s} && rooms == old(rooms)[s := {}]
      ensures users == old(users) && socketUser == old(socketUser) && sent == old(sent) && io == old(io)
    {
      connected := connected + {s};
      rooms := rooms[s := {}];
    }

    /** The `join` event: a truthy user id is mapped to this socket,
        replacing any earlier mapping; a falsy one changes nothing. */
    method Join(s: SocketId, userId: string)
      requires Valid() && s in connected
      modifies this
      ensures Valid()
      ensures userId != "" ==> users == old(users)[userId := s] && socketUser == old(socketUser)[s := userId]
      ensures userId == "" ==> users == old(users) && socketUser == old(socketUser)
      ensures connected == old(connected) && rooms == old(rooms) && sent == old(sent) && io == old(io)
    {
      if userId != "" {
        users := users[userId := s];
        socketUser := socketUser[s := userId];
      }
    }

    /** The `join-blog` event. */
    method JoinBlog(s: SocketId, blogId: string)
      requires Valid() && s in connected
      modifies this
      ensures Valid()
      ensures rooms == old(rooms)[s := old(rooms)[s] + {BlogRoom(blogId)}]
      ensures connected == old(connected) && users == old(users) && socketUser == old(socketUser)
      ensures sent == old(sent) && io == old(io)
    {
      rooms := rooms[s := rooms[s] + {BlogRoom(blogId)}];
    }

    /** The `leave-blog` event. */
    method LeaveBlog(s: SocketId, blogId: string)
      requires Valid() && s in connected
      modifies this
      ensures Valid()
      ensures rooms == old(rooms)[s := old(rooms)[s] - {BlogRoom(blogId)}]
      ensures connected == old(connected) && users == old(users) && socketUser == old(socketUser)
      ensures sent == old(sent) && io == old(io)
    {
      rooms := rooms[s := rooms[s] - {BlogRoom(blogId)}];
    }

    /** The `disconnect` event: the entry of `socket.userId` is deleted
        even when that user has since been mapped to another socket. */
    method Disconnect(s: SocketId)
      requires Valid() && s in connected
      modifies this
      ensures Valid()
      ensures s in old(socketUser) ==> users == old(users) - {old(socketUser)[s]}
      ensures s !in old(socketUser) ==> users == old(users)
      ensures connected == old(connected) - {s} && socketUser == old(socketUser) - {s}
      ensures rooms == old(rooms) - {s} && sent == old(sent) && io == old(io)
    {
      if s in socketUser {
        users := users - {socketUser[s]};
      }
      connected := connected - {s};
      socketUser := socketUser - {s};
      rooms := rooms - {s};
    }

    method EmitNewBlog(title: string)
      modifies this
      ensures sent == old(sent) + NewBlogEvents(old(io), title)
      ensures io == old(io) && users == old(users) && connected == old(connected)
      ensures socketUser == old(socketUser) && rooms == old(rooms)
    {
      sent := sent + NewBlogEvents(io, title);
    }

    method EmitNewComment(blogId: string, commentId: string)
      modifies this
      ensures sent == old(sent) + NewCommentEvents(old(io), blogId, commentId)
      ensures io == old(io) && users == old(users) && connected == old(connected)
      ensures socketUser == old(socketUser) && rooms == old(rooms)
    {
      sent := sent + NewCommentEvents(io, blogId, commentId);
    }

    method EmitCommentUpdate(blogId: string, commentId: string)
      modifies this
      ensures sent == old(sent) + CommentUpdateEvents(old(io), blogId, commentId)
      ensures io == old(io) && users == old(users) && connected == old(connected)
      ensures socketUser == old(socketUser) && rooms == old(rooms)
    {
      sent := sent + CommentUpdateEvents(io, blogId, commentId);
    }

    method EmitCommentDelete(blogId: string, commentId: string)
      modifies this
      ensures sent == old(sent) + CommentDeleteEvents(old(io), blogId, commentId)
      ensures io == old(io) && users == old(users) && connected == old(connected)
      ensures socketUser == old(socketUser) && rooms == old(rooms)
    {
      sent := sent + CommentDeleteEvents(io, blogId, commentId);
    }

    method EmitBlogUpdate(blogId: string)
      modifies this
      ensures sent == old(sent) + BlogUpdateEvents(old(io), blogId)
      ensures io == old(io) && users == old(users) && connected == old(connected)
      ensures socketUser == old(socketUser) && rooms == old(rooms)
    {
      sent := sent + BlogUpdateEvents(io, blogId);
    }

    method EmitBlogDelete(blogId: string)
      modifies this
      ensures sent == old(sent) + BlogDeleteEvents(old(io), blogId)
      ensures io == old(io) && users == old(users) && connected == old(connected)
      ensures socketUser == old(socketUser) && rooms == old(rooms)
    {
      sent := sent + BlogDeleteEvents(io, blogId);
    }

    method NotifyUser(userId: string, message: string)
      modifies this
      ensures sent == old(sent) + NotifyEvents(old(io), old(users), userId, message)
      ensures io == old(io) && users == old(users) && connected == old(connected)
      ensures socketUser == old(socketUser) && rooms == old(rooms)
    {
      sent := sent + NotifyEvents(io, users, userId, message);
    }

    method BroadcastUserAction(action: string)
      modifies this
      ensures sent == old(sent) + UserActionEvents(old(io), action)
      ensures io == old(io) && users == old(users) && connected == old(connected)
      ensures socketUser == old(socketUser) && rooms == old(rooms)
    {
      sent := sent + UserActionEvents(io, action);
    }

    /** `getIO()`: throws until `initialize` has run. */
    function GetIO(): (r: IOResult)
      reads this
      ensures r.Server? <==> io
      ensures r.NotInitialized? ==> r.message == "Socket.io not initialized"
    {
      if io then Server else NotInitialized("Socket.io not initialized")
    }
  }

  /** A user who has reconnected on a newer socket before the older
      socket's disconnect arrives: the disconnect deletes the user's
      mapping although the newer socket is still connected, so a
      notification that reached it before reaches nothing after. */
  method StaleDisconnect(svc: SocketService, older: SocketId, message: string)
    requires svc.Valid() && svc.io && older in svc.socketUser
    requires svc.socketUser[older] in svc.users
    requires svc.users[svc.socketUser[older]] != older && svc.users[svc.socketUser[older]] in svc.connected
    modifies svc
    ensures svc.Valid()
    ensures old(svc.users[svc.socketUser[older]]) in svc.connected
    ensures Copies(NotifyEvents(old(svc.io), old(svc.users), old(svc.socketUser[older]), message),
                   old(svc.users[svc.socketUser[older]]), old(svc.connected), old(svc.rooms)) == 1
    ensures old(svc.socketUser[older]) !in svc.users
    ensures forall s :: Copies(NotifyEvents(svc.io, svc.users, old(svc.socketUser[older]), message),
                               s, svc.connected, svc.rooms) == 0
  {
    var u := svc.socketUser[older];
    NotifyReachesOnlyMappedSocket(svc.io, svc.users, u, message, svc.users[u], svc.connected, svc.rooms);
    svc.Disconnect(older);
    forall s ensures Copies(NotifyEvents(svc.io, svc.users, u, message), s, svc.connected, svc.rooms) == 0 {
      NotifyReachesOnlyMappedSocket(svc.io, svc.users, u, message, s, svc.connected, svc.rooms);
    }
  }
}
