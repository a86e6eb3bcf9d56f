# Direct-message chat consumer, modelled in Dafny

This project models the WebSocket consumer of a two-person chat relay
(`chat/consumers.py`, class `ChatConsumer`). A user opens a socket towards
another user, named by the `room_name` route argument. The consumer checks
the handshake and derives a room group name from the two usernames. It then
joins that group in the channel layer. Each inbound message is stored in the
`Message` table and then sent to every channel of the room group. Each group
event that reaches a socket is written out as a `{sender, receiver, message}`
frame.

Modules:

- `Naming` (`naming.dfy`): the sanitiser (`re.sub(r'[^a-zA-Z0-9_.-]', '_', …)`)
  and the room group name `chat_<user1>_<user2>`. Both are pure functions.
  Lemmas prove idempotence, the exact fixpoints, and the length-preservation
  fact used by the handshake. They also prove what the key does and does not
  determine.
- `Layer` (`layer.dfy`): the channel layer. Its registry maps a group name to
  a set of channel names, and each channel has a queue of group events.
  Pure functions give the meaning of `group_add`, `group_discard` and
  `group_send`. Lemmas about them cover idempotent join, leave-undoes-join,
  the one-group-per-channel invariant, and sends that stay inside their room.
  The class `ChannelLayer` holds the shared state that consumers update in
  place.
- `Store` (`store.dfy`): the `User` table, reduced to a set of usernames, and
  the `Message` table, an append-only sequence.
- `Consumers` (`consumers.dfy`): the class `ChatConsumer`. Its lifecycle is
  Pending → Open or Closed, and Open → Closed. It has the fields
  `room_name` and `room_group_name`, the frames written to its socket, and
  `log`, the ordered list of its effects. `log` states the ordering
  guarantees: the group is joined before the socket is accepted, and the
  message is saved before the group send.
- `Scenarios` (`scenarios.dfy`): whole-connection runs proved from the
  contracts alone. They cover alice and bob talking, a message to an unknown
  user or to oneself, and rejected handshakes.

The room key is asymmetric, as the code builds it. `alice → bob` gives
`chat_alice_bob` and `bob → alice` gives `chat_bob_alice`, so the two users
sit in different groups (`Naming.RoomKeyAsymmetric`, `Scenarios.AliceAndBob`).
The key is not injective either, because `_` is both allowed in names and
used as the separator (`Naming.RoomKeyNotInjective`, `Scenarios.CollidingRooms`).

Behaviour of the code worth knowing:

- The handshake checks that the raw names are non-empty, not the sanitised
  ones. `Consumers.AdmissibleIffSanitizedNonEmpty` shows the two conditions
  agree.
- The receiver is looked up by the raw `room_name`, not by the sanitised
  token.
- A room key is not unique to a pair of users.
- A failed database write is not a handled error. It raises out of
  `receive`, so the group send is never reached.

## Model

| member | source | states |
|---|---|---|
| Naming.Sanitize | chat/consumers.py:27-28 | the output has the input's length; each allowed character is kept, each other one becomes `_`; every output character is in `[a-zA-Z0-9_.-]` |
| Naming.SanitizeFixesExactlyAllowed | chat/consumers.py:27-28 | sanitising leaves a string unchanged exactly when all its characters are allowed |
| Naming.SanitizeIdempotent | chat/consumers.py:27-28 | sanitising twice equals sanitising once |
| Naming.SanitizeEmptyIff | chat/consumers.py:22-28 | a sanitised name is empty exactly when the raw name is |
| Naming.SanitizeEqIff | chat/consumers.py:27-28 | two names of equal length sanitise to the same token if and only if, at every position, the characters are equal or both are disallowed or `_` |
| Naming.SanitizeMergesPunctuation | chat/consumers.py:26-28 | one example: `a b`, `a@b` and `a_b` all give the token `a_b` |
| Naming.RoomGroupName | chat/consumers.py:30-31 | the key is `chat_`, then the sanitised connecting user, then `_`, then the sanitised `room_name`, in that order; every character is allowed |
| Naming.RoomKeyDeterminesPairOfEqualSplit | chat/consumers.py:30-31 | when the first names have equal length, two pairs share a key if and only if both sanitised names agree |
| Naming.RoomKeySwapEqualLength | chat/consumers.py:30-31 | for names of equal length, swapping the two users keeps the key if and only if they sanitise to the same token |
| Naming.RoomKeyOfCleanNames | chat/consumers.py:27-31 | for names made only of allowed characters, the key is exactly `chat_` + user1 + `_` + user2 |
| Naming.RoomKeyNotInjective | chat/consumers.py:30-31 | the distinct pairs `("a_b","c")` and `("a","b_c")` both give `chat_a_b_c` |
| Naming.RoomKeyAsymmetric | chat/consumers.py:30-31 | `alice→bob` gives `chat_alice_bob` and `bob→alice` gives `chat_bob_alice`, two different keys |
| Naming.RoomKeySwapCollision | chat/consumers.py:30-31 | names of different lengths can still collide when swapped: `("x","x_x")` and `("x_x","x")` give one key |
| Layer.AddMember | chat/consumers.py:34 | `group_add`: the group gains the channel; every other group is unchanged; no empty group is created |
| Layer.RemoveMember | chat/consumers.py:39 | `group_discard`: the group loses the channel and disappears when empty; every other group is unchanged |
| Layer.Broadcast | chat/consumers.py:55-63 | `group_send`: the event is appended to the queue of every member, and every other queue is unchanged |
| Layer.AddMemberIdempotent | chat/consumers.py:34 | joining a group twice is the same as joining it once |
| Layer.LeaveUndoesJoin | chat/consumers.py:34-39 | leaving right after joining restores the registry exactly, when the channel was not already a member |
| Layer.LeavingLastMemberDropsGroup | chat/consumers.py:39 | removing the last member removes the group, so later lookups find nothing |
| Layer.JoinKeepsAtMostOneGroup | chat/consumers.py:34 | a channel that is in no group joins one group and stays in at most one |
| Layer.LeaveKeepsAtMostOneGroup | chat/consumers.py:39 | leaving keeps every channel in at most one group |
| Layer.BroadcastStaysInGroup | chat/consumers.py:55-63 | while every channel is in at most one group, a send to one group leaves the queues of another group's channels unchanged |
| Layer.BroadcastToEmptyGroup | chat/consumers.py:55-63 | a send to a group with no members changes no queue |
| Layer.ChannelLayer.GroupAdd | chat/consumers.py:34 | the registry becomes `AddMember` of the old one; queues are unchanged |
| Layer.ChannelLayer.GroupDiscard | chat/consumers.py:39 | the registry becomes `RemoveMember` of the old one; queues are unchanged |
| Layer.ChannelLayer.GroupSend | chat/consumers.py:55-63 | the queues become `Broadcast` of the old ones over the group's members; the registry is unchanged |
| Consumers.AdmissibleIffSanitizedNonEmpty | chat/consumers.py:14-28 | the handshake passes if and only if the user is authenticated, `room_name` is present, and both sanitised names are non-empty |
| Consumers.ChatConsumer.Connect | chat/consumers.py:10-35 | an anonymous user, an empty username, or a missing or empty `room_name` closes the socket with no group joined and the registry unchanged; otherwise the state is Open, `room_group_name` is the derived key, exactly that group gains this channel, and the effects are group join then accept |
| Consumers.ChatConsumer.Disconnect | chat/consumers.py:37-39 | for a session whose room was assigned: the channel leaves only its `room_group_name` group, queues are unchanged, and the state becomes Closed |
| Consumers.ChatConsumer.GetReceiverUser | chat/consumers.py:83-89 | a receiver is found exactly when `room_name` names a user other than the sender, and it is that user |
| Consumers.ChatConsumer.SaveMessage | chat/consumers.py:78-81 | exactly one `Message(sender, receiver, content)` is appended when the write succeeds; nothing changes when it fails |
| Consumers.ChatConsumer.Receive | chat/consumers.py:41-63 | with no receiver (unknown name or the sender's own), nothing is stored, queued or logged; otherwise exactly one message is stored and then one event is queued to each channel of the room group and to no other channel; a failed write stops before the send |
| Consumers.ChatConsumer.HandleChatMessage | chat/consumers.py:65-76 | on an Open session, exactly one frame is written to the socket, carrying the event's sender, receiver and message; the session invariant is kept |
| Scenarios.OpenSession | chat/consumers.py:10-35 | a logged-in user with a non-empty name and target is Open in the room `RoomGroupName(name, target)`, and the registry gains exactly that membership |
| Scenarios.OpenAliceAndBob | chat/consumers.py:10-35 | alice→bob and bob→alice are both admitted, into the two different rooms `chat_alice_bob` and `chat_bob_alice` |
| Scenarios.AliceAndBob | chat/consumers.py:41-76 | with alice and bob in their two rooms, alice's "hi" is stored once, reaches alice's channel as one frame, and never reaches bob's channel |
| Scenarios.CollidingRooms | chat/consumers.py:27-63 | a→b_c and a_b→c share the room `chat_a_b_c`, so a's message to b_c is stored once and also queued for a_b's channel |
| Scenarios.NoReceiverDropped | chat/consumers.py:41-89 | messages towards `eve` (no such user) or towards oneself are dropped: zero writes and no queued events |
| Scenarios.RejectedHandshakes | chat/consumers.py:10-24 | an anonymous handshake and one without `room_name` both end Closed, no group exists, and each consumer's only effect is `close` |

## Left out

- JSON decoding and encoding (`json.loads`, `json.dumps`): `Receive` takes the already-extracted `message` string, and a frame is a record. A malformed payload or a missing `message` key raises in the source and is not modelled.
- The database and ORM, `sync_to_async`, and the authentication middleware are replaced by the username set, the message sequence, the `available` flag and the `ScopeUser` value. Timestamps added on insert are not modelled.
- The asynchronous event loop, the channel-layer transport and concurrency between consumers are left out. Each handler is one atomic sequential step over the shared registry.
- Dispatch of a queued group event to the `chat_message` handler is done by the framework, so it is not modelled. `HandleChatMessage` takes the event directly.
- Group cleanup: removing a group once it is empty follows the channel layer's `group_discard` and is not in the consumer's code. Group expiry and channel capacity are not modelled.
- Consumers.ChatConsumer.Connect: every admissible handshake ends Open. The channel layer's limit on group-name length is not modelled, so a handshake whose room name would be too long for `group_add` is not shown to raise before `accept`.
- Consumers.ChatConsumer.HandleChatMessage: requires an Open session, because the framework delivers group events only to an accepted socket whose channel joined a group.
- Consumers.ChatConsumer.Receive: requires an Open session, because the framework delivers `receive` only on an accepted socket. When the write fails, the model records only that no send happens. It does not model the exception escaping the handler.
- Consumers.ChatConsumer.Disconnect: requires that `room_group_name` was assigned. After a rejected handshake the source raises `AttributeError` there.
- The one-group-per-channel invariant is proved as preservation lemmas over the registry, not as an invariant over a population of consumers.
- `chat/views.py` (history and correspondent listing) is not part of this model.
