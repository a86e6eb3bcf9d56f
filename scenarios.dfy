/**
 * Whole-connection scenarios, checked against the consumer's contracts alone:
 * a conversation between alice and bob, a message towards an unknown user or
 * towards oneself, and an anonymous handshake.
 */
module Scenarios {
  import opened Wrappers
  import opened Naming
  import opened Layer
  import opened Store
  import opened Consumers

  /** A logged-in user with a non-empty name opens a socket towards a non-empty target. */
  method OpenSession(layer: ChannelLayer, db: Database, channel: string, name: string, target: string)
    returns (c: ChatConsumer)
    requires layer.Valid() && name != [] && target != []
    modifies layer
    ensures fresh(c) && c.Valid() && c.layer == layer && c.db == db && c.state == Open
    ensures c.user == AuthenticatedUser(name) && c.roomName == Some(target)
    ensures c.channelName == channel && c.sent == []
    ensures c.roomGroupName == Some(RoomGroupName(name, target))
    ensures layer.groups == AddMember(old(layer.groups), RoomGroupName(name, target), channel)
    ensures layer.queues == old(layer.queues)
  {
    c := new ChatConsumer(channel, AuthenticatedUser(name), Some(target), layer, db);
    c.Connect();
  }

  /** alice opens a socket towards bob and bob one towards alice; both are admitted, in two rooms. */
  method OpenAliceAndBob() returns (layer: ChannelLayer, db: Database, alice: ChatConsumer)
    ensures fresh(layer) && fresh(db) && fresh(alice)
    ensures alice.Valid() && alice.layer == layer && alice.db == db && alice.state == Open
    ensures alice.user == AuthenticatedUser("alice") && alice.roomName == Some("bob")
    ensures alice.roomGroupName == Some("chat_alice_bob") && alice.channelName == "chan.alice" && alice.sent == []
    ensures Members(layer.groups, "chat_alice_bob") == {"chan.alice"}
    ensures Members(layer.groups, "chat_bob_alice") == {"chan.bob"}
    ensures layer.queues == map[]
    ensures db.users == {"alice", "bob"} && db.messages == [] && db.available
  {
    RoomKeyAsymmetric();
    layer := new ChannelLayer();
    db := new Database({"alice", "bob"});
    alice := OpenSession(layer, db, "chan.alice", "alice", "bob");
    assert Members(layer.groups, "chat_bob_alice") == {};
    var bob := OpenSession(layer, db, "chan.bob", "bob", "alice");
    assert Members(layer.groups, "chat_alice_bob") == {"chan.alice"};
  }

  /**
   * alice's "hi", sent while alice and bob sit in their two rooms, is stored once and
   * reaches alice's own channel as a frame; bob's channel is in the other room
   * (`chat_bob_alice`) and receives nothing.
   */
  method AliceAndBob() returns (stored: seq<Message>, aliceQueue: seq<GroupEvent>, bobQueue: seq<GroupEvent>, aliceFrames: seq<Frame>)
    ensures stored == [Message("alice", "bob", "hi")]
    ensures aliceQueue == [ChatMessage("alice", "bob", "hi")]
    ensures bobQueue == []
    ensures aliceFrames == [Frame("alice", "bob", "hi")]
  {
    var layer, db, alice := OpenAliceAndBob();
    assert "bob" != "alice";
    var outcome := alice.Receive("hi");
    assert outcome == Delivered;
    var event := ChatMessage("alice", "bob", "hi");
    assert layer.queues == Broadcast(map[], {"chan.alice"}, event);
    assert "chan.bob" !in layer.queues;
    stored := db.messages;
    aliceQueue := Queue(layer.queues, "chan.alice");
    bobQueue := Queue(layer.queues, "chan.bob");
    alice.HandleChatMessage(aliceQueue[0]);
    aliceFrames := alice.sent;
  }

  /**
   * Two unrelated conversations, a→b_c and a_b→c, both land in `chat_a_b_c`, so a's
   * message to b_c is also queued for a_b's channel.
   */
  method CollidingRooms() returns (stored: seq<Message>, strangerQueue: seq<GroupEvent>)
    ensures stored == [Message("a", "b_c", "m")]
    ensures strangerQueue == [ChatMessage("a", "b_c", "m")]
  {
    RoomKeyNotInjective();
    var layer := new ChannelLayer();
    var db := new Database({"a", "b_c", "a_b", "c"});
    var x := OpenSession(layer, db, "chan.x", "a", "b_c");
    assert Members(layer.groups, "chat_a_b_c") == {"chan.x"};
    var y := OpenSession(layer, db, "chan.y", "a_b", "c");
    assert Members(layer.groups, "chat_a_b_c") == {"chan.x", "chan.y"};
    assert layer.queues == map[];
    assert db.users == {"a", "b_c", "a_b", "c"} && db.messages == [] && db.available;
    assert "b_c" != "a";
    var outcome := x.Receive("m");
    assert outcome == Delivered;
    stored := db.messages;
    strangerQueue := Queue(layer.queues, "chan.y");
  }

  /**
   * A target that names no user, and a target that names the sender, are both
   * admitted at the handshake, but their messages are dropped: nothing is stored
   * and nothing is queued.
   */
  method NoReceiverDropped() returns (toEve: ReceiveOutcome, toSelf: ReceiveOutcome, stored: seq<Message>, queues: Queues)
    ensures toEve == NoReceiver && toSelf == NoReceiver
    ensures stored == [] && queues == map[]
  {
    var layer := new ChannelLayer();
    var db := new Database({"alice", "bob"});
    var c1 := new ChatConsumer("chan.1", AuthenticatedUser("alice"), Some("eve"), layer, db);
    var c2 := new ChatConsumer("chan.2", AuthenticatedUser("alice"), Some("alice"), layer, db);
    c1.Connect();
    c2.Connect();
    assert c1.state == Open && c2.state == Open;
    assert layer.queues == map[];
    assert db.users == {"alice", "bob"} && db.messages == [];
    assert "eve" !in db.users;
    toEve := c1.Receive("hello?");
    toSelf := c2.Receive("note to self");
    stored := db.messages;
    queues := layer.queues;
  }

  /** An anonymous handshake, and one without `room_name`, are closed and join no group. */
  method RejectedHandshakes() returns (anonymous: SessionState, noRoute: SessionState, groups: Groups,
                                        anonymousEffects: seq<Action>, noRouteEffects: seq<Action>)
    ensures anonymous == Closed && noRoute == Closed
    ensures groups == map[]
    ensures anonymousEffects == [Close] && noRouteEffects == [Close]
  {
    var layer := new ChannelLayer();
    var db := new Database({"alice", "bob"});
    var c1 := new ChatConsumer("chan.1", AnonymousUser, Some("bob"), layer, db);
    var c2 := new ChatConsumer("chan.2", AuthenticatedUser("alice"), None, layer, db);
    c1.Connect();
    c2.Connect();
    anonymous, noRoute := c1.state, c2.state;
    groups := layer.groups;
    anonymousEffects, noRouteEffects := c1.log, c2.log;
  }
}
