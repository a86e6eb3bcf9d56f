/**
 * `ChatConsumer`: one WebSocket connection of one user towards one other user.
 * `Connect` admits or rejects the handshake and joins the room group,
 * `Disconnect` leaves it, `Receive` stores an inbound message and sends it to
 * the room group, and `ChatMessage` turns a group event into an outbound frame.
 * Every effect on the outside world is also appended, in order, to `log`.
 */
module Consumers {
  import opened Wrappers
  import opened Naming
  import opened Layer
  import opened Store

  /** `scope["user"]`: either the anonymous user or a logged-in user with a username. */
  datatype ScopeUser = AnonymousUser | AuthenticatedUser(username: string)

  datatype SessionState = Pending | Open | Closed

  /** The JSON object sent down the socket: keys `sender`, `receiver`, `message`. */
  datatype Frame = Frame(sender: string, receiver: string, message: string)

  /** An effect of the consumer on its transport, the channel layer or the database. */
  datatype Action =
    | Close
    | Accept
    | GroupAdd(group: string)
    | GroupDiscard(group: string)
    | Save(record: Message)
    | GroupSend(group: string, event: GroupEvent)
    | Send(frame: Frame)

  datatype ReceiveOutcome = Delivered | NoReceiver | SaveFailed

  /** The handshake passes: a logged-in user with a non-empty name and a non-empty `room_name`. */
  predicate Admissible(user: ScopeUser, roomName: Option<string>) {
    user.AuthenticatedUser? && user.username != [] && roomName.Some? && roomName.value != []
  }

  /**
   * Admission depends only on the raw names being non-empty, and, since sanitising
   * keeps the length, the same holds of the sanitised tokens.
   */
  lemma AdmissibleIffSanitizedNonEmpty(user: ScopeUser, roomName: Option<string>)
    ensures Admissible(user, roomName) <==>
              user.AuthenticatedUser? && roomName.Some? &&
              Sanitize(user.username) != [] && Sanitize(roomName.value) != []
  {
    if user.AuthenticatedUser? && roomName.Some? {
      SanitizeEmptyIff(user.username);
      SanitizeEmptyIff(roomName.value);
    }
  }

  class ChatConsumer {
    /** This connection's name in the channel layer. */
    const channelName: string
    /** `scope["user"]` and the `room_name` route argument (absent when the route has none). */
    const user: ScopeUser
    const route: Option<string>
    const layer: ChannelLayer
    const db: Database

    var state: SessionState
    /** `self.room_name`, assigned at the start of `connect`. */
    var roomName: Option<string>
    /** `self.room_group_name`, assigned only when the handshake is admitted. */
    var roomGroupName: Option<string>
    /** Frames written to this connection's socket. */
    var sent: seq<Frame>
    /** Every effect of this consumer, in the order it happened. */
    var log: seq<Action>

    ghost predicate Valid()
      reads this, layer
    {
      && layer.Valid()
      && (state == Pending ==> roomGroupName == None && log == [])
      && (state != Pending ==> roomName == route)
      && (roomGroupName.Some? ==>
            Admissible(user, roomName) &&
            roomGroupName.value == RoomGroupName(user.username, roomName.value))
      && (state == Open ==> roomGroupName.Some?)
    }

    constructor (channelName: string, user: ScopeUser, route: Option<string>, layer: ChannelLayer, db: Database)
      requires layer.Valid()
      ensures Valid()
      ensures this.channelName == channelName && this.user == user && this.route == route
      ensures this.layer == layer && this.db == db
      ensures state == Pending && roomName == None && roomGroupName == None && sent == [] && log == []
    {
      this.channelName := channelName;
      this.user := user;
      this.route := route;
      this.layer := layer;
      this.db := db;
      state := Pending;
      roomName := None;
      roomGroupName := None;
      sent := [];
      log := [];
    }

    /**
     * The handshake. An anonymous user, an empty username, or a missing or empty
     * `room_name` closes the connection with nothing joined; otherwise the channel
     * joins the room group `chat_<user>_<room_name>` and then the socket is accepted.
     */
    method Connect()
      requires Valid() && state == Pending
      modifies this, layer
      ensures Valid()
      ensures roomName == route
      ensures sent == old(sent) && layer.queues == old(layer.queues)
      ensures !user.AuthenticatedUser? ==>
                state == Closed && roomGroupName == None &&
                layer.groups == old(layer.groups) && log == old(log) + [Close]
      ensures user.AuthenticatedUser? && (user.username == [] || route.None? || route.value == []) ==>
                state == Closed && roomGroupName == None &&
                layer.groups == old(layer.groups) && log == old(log) + [Close]
      ensures Admissible(user, route) ==>
                var key := RoomGroupName(user.username, route.value);
                state == Open && roomGroupName == Some(key) &&
                layer.groups == AddMember(old(layer.groups), key, channelName) &&
                log == old(log) + [GroupAdd(key), Accept]
    {
      roomName := route;
      if !user.AuthenticatedUser? {
        state := Closed;
        log := log + [Close];
        return;
      }
      var user1 := user.username;
      if user1 == [] || roomName.None? || roomName.value == [] {
        state := Closed;
        log := log + [Close];
        return;
      }
      var user2 := roomName.value;
      var key := RoomGroupName(user1, user2);
      roomGroupName := Some(key);
      layer.GroupAdd(key, channelName);
      log := log + [GroupAdd(key)];
      state := Open;
      log := log + [Accept];
    }

    /** The socket has gone: the channel leaves its room group and no other group changes. */
    method Disconnect(closeCode: int)
      requires Valid() && roomGroupName.Some?
      modifies this, layer
      ensures Valid()
      ensures state == Closed
      ensures roomName == old(roomName) && roomGroupName == old(roomGroupName) && sent == old(sent)
      ensures layer.groups == RemoveMember(old(layer.groups), roomGroupName.value, channelName)
      ensures layer.queues == old(layer.queues)
      ensures log == old(log) + [GroupDiscard(roomGroupName.value)]
    {
      layer.GroupDiscard(roomGroupName.value, channelName);
      log := log + [GroupDiscard(roomGroupName.value)];
      state := Closed;
    }

    /** `get_receiver_user`: the user named `room_name`, searched among all users but the sender. */
    method GetReceiverUser(sender: string) returns (receiver: Option<string>)
      ensures receiver.None? <==> roomName.None? || roomName.value !in db.users || roomName.value == sender
      ensures receiver.Some? ==> receiver == roomName && receiver.value in db.users && receiver.value != sender
    {
      var others := set u | u in db.users && u != sender;
      var matches := set u | u in others && roomName == Some(u);
      if roomName.Some? && roomName.value in others {
        assert roomName.value in matches;
      }
      if matches == {} {
        receiver := None;
      } else {
        var u :| u in matches;
        receiver := Some(u);
      }
    }

    /** `save_message`: one new row at the end of the `Message` table, unless the write fails. */
    method SaveMessage(sender: string, receiver: string, message: string) returns (ok: bool)
      modifies db
      ensures ok == old(db.available)
      ensures db.messages == if ok then old(db.messages) + [Message(sender, receiver, message)] else old(db.messages)
      ensures db.users == old(db.users) && db.available == old(db.available)
    {
      ok := db.available;
      if ok {
        db.messages := db.messages + [Message(sender, receiver, message)];
      }
    }

    /**
     * An inbound chat message. With no receiver (no user named `room_name` other than
     * the sender) nothing happens. Otherwise exactly one message is stored and then
     * exactly one event goes to every channel of the room group; a failed write
     * stops before the send.
     */
    method Receive(message: string) returns (outcome: ReceiveOutcome)
      requires Valid() && state == Open
      modifies this, layer, db
      ensures Valid()
      ensures state == old(state) && roomName == old(roomName) && roomGroupName == old(roomGroupName)
      ensures sent == old(sent) && layer.groups == old(layer.groups)
      ensures db.users == old(db.users) && db.available == old(db.available)
      ensures outcome == NoReceiver <==> roomName.value !in db.users || roomName.value == user.username
      ensures outcome == SaveFailed <==> outcome != NoReceiver && !db.available
      ensures outcome != Delivered ==>
                db.messages == old(db.messages) && layer.queues == old(layer.queues) && log == old(log)
      ensures outcome == Delivered ==>
                var record := Message(user.username, roomName.value, message);
                var event := ChatMessage(user.username, roomName.value, message);
                db.messages == old(db.messages) + [record] &&
                layer.queues == Broadcast(old(layer.queues), Members(layer.groups, roomGroupName.value), event) &&
                log == old(log) + [Save(record), GroupSend(roomGroupName.value, event)]
    {
      var sender := user.username;
      var receiver := GetReceiverUser(sender);
      if receiver.None? {
        return NoReceiver;
      }
      var ok := SaveMessage(sender, receiver.value, message);
      if !ok {
        return SaveFailed;
      }
      log := log + [Save(Message(sender, receiver.value, message))];
      var event := ChatMessage(sender, receiver.value, message);
      layer.GroupSend(roomGroupName.value, event);
      log := log + [GroupSend(roomGroupName.value, event)];
      outcome := Delivered;
    }

    /** `chat_message`: a group event becomes one frame on this socket, carrying the event's fields. */
    method HandleChatMessage(event: GroupEvent)
      requires Valid() && state == Open
      modifies this
      ensures Valid()
      ensures sent == old(sent) + [Frame(event.sender, event.receiver, event.message)]
      ensures log == old(log) + [Send(Frame(event.sender, event.receiver, event.message))]
      ensures state == old(state) && roomName == old(roomName) && roomGroupName == old(roomGroupName)
    {
      var frame := Frame(event.sender, event.receiver, event.message);
      sent := sent + [frame];
      log := log + [Send(frame)];
    }
  }
}
