/**
 * The channel layer the consumer talks to: a registry from group name to the
 * set of channel names in it (`group_add`, `group_discard`) and, per channel,
 * the queue of group events sent to it (`group_send`). The pure functions
 * give the registry's meaning; the class holds the shared state that every
 * consumer updates in place.
 */
module Layer {

  /** The event put on the group by `receive`; its `type` key names the handler `chat_message`. */
  datatype GroupEvent = ChatMessage(sender: string, receiver: string, message: string)

  type Groups = map<string, set<string>>
  type Queues = map<string, seq<GroupEvent>>

  /** The channels in `group`; an absent group has none. */
  function Members(groups: Groups, group: string): set<string> {
    if group in groups then groups[group] else {}
  }

  /** The events queued for `channel`; an unknown channel has none. */
  function Queue(queues: Queues, channel: string): seq<GroupEvent> {
    if channel in queues then queues[channel] else []
  }

  /** No group is kept with an empty member set. */
  ghost predicate NoEmptyGroups(groups: Groups) {
    forall g :: g in groups ==> groups[g] != {}
  }

  /** Every channel is a member of at most one group. */
  ghost predicate AtMostOneGroup(groups: Groups) {
    forall g, h, c :: g in groups && h in groups && c in groups[g] && c in groups[h] ==> g == h
  }

  /** `group_add`: `channel` joins `group`; every other group is left as it was. */
  function AddMember(groups: Groups, group: string, channel: string): (r: Groups)
    ensures r.Keys == groups.Keys + {group}
    ensures Members(r, group) == Members(groups, group) + {channel}
    ensures forall g :: g in groups && g != group ==> r[g] == groups[g]
    ensures NoEmptyGroups(groups) ==> NoEmptyGroups(r)
  {
    groups[group := Members(groups, group) + {channel}]
  }

  /**
   * `group_discard`: `channel` leaves `group`, and the group is dropped when it
   * becomes empty; every other group is left as it was.
   */
  function RemoveMember(groups: Groups, group: string, channel: string): (r: Groups)
    ensures Members(r, group) == Members(groups, group) - {channel}
    ensures group in r <==> Members(groups, group) - {channel} != {}
    ensures forall g :: g != group ==> (g in r <==> g in groups)
    ensures forall g :: g in groups && g != group ==> r[g] == groups[g]
    ensures NoEmptyGroups(groups) ==> NoEmptyGroups(r)
  {
    if group !in groups then groups
    else
      var rest := groups[group] - {channel};
      if rest == {} then groups - {group} else groups[group := rest]
  }

  /** `group_send`: the event is appended to the queue of each member, and of no one else. */
  function Broadcast(queues: Queues, members: set<string>, event: GroupEvent): (r: Queues)
    ensures r.Keys == queues.Keys + members
    ensures forall c :: c in members ==> r[c] == Queue(queues, c) + [event]
    ensures forall c :: c in queues && c !in members ==> r[c] == queues[c]
  {
    map c | c in queues.Keys + members :: if c in members then Queue(queues, c) + [event] else queues[c]
  }

  /** Joining a group twice is the same as joining it once. */
  lemma AddMemberIdempotent(groups: Groups, group: string, channel: string)
    ensures AddMember(AddMember(groups, group, channel), group, channel) == AddMember(groups, group, channel)
  {
  }

  /** Leaving right after joining restores the registry, when the channel was not already a member. */
  lemma LeaveUndoesJoin(groups: Groups, group: string, channel: string)
    requires NoEmptyGroups(groups)
    requires channel !in Members(groups, group)
    ensures RemoveMember(AddMember(groups, group, channel), group, channel) == groups
  {
    var r := RemoveMember(AddMember(groups, group, channel), group, channel);
    assert Members(r, group) == Members(groups, group);
    assert r.Keys == groups.Keys;
    forall g | g in groups
      ensures r[g] == groups[g]
    {
      if g == group {
        assert Members(r, g) == r[g];
      }
    }
  }

  /** Removing the last member of a group removes the group: later lookups find nothing. */
  lemma LeavingLastMemberDropsGroup(groups: Groups, group: string, channel: string)
    requires Members(groups, group) == {channel}
    ensures group !in RemoveMember(groups, group, channel)
    ensures Members(RemoveMember(groups, group, channel), group) == {}
  {
  }

  /** A channel that is in no group keeps the one-group-per-channel invariant when it joins one. */
  lemma JoinKeepsAtMostOneGroup(groups: Groups, group: string, channel: string)
    requires AtMostOneGroup(groups)
    requires forall g :: g in groups ==> channel !in groups[g]
    ensures AtMostOneGroup(AddMember(groups, group, channel))
  {
    var r := AddMember(groups, group, channel);
    forall g, h, c | g in r && h in r && c in r[g] && c in r[h]
      ensures g == h
    {
      if c == channel {
        assert g == group && h == group;
      } else {
        assert c in Members(groups, g) && c in Members(groups, h);
      }
    }
  }

  /** Leaving a group keeps the one-group-per-channel invariant. */
  lemma LeaveKeepsAtMostOneGroup(groups: Groups, group: string, channel: string)
    requires AtMostOneGroup(groups)
    ensures AtMostOneGroup(RemoveMember(groups, group, channel))
  {
    var r := RemoveMember(groups, group, channel);
    forall g, h, c | g in r && h in r && c in r[g] && c in r[h]
      ensures g == h
    {
      assert c in Members(r, g) && c in Members(r, h);
      assert c in Members(groups, g) && c in Members(groups, h);
    }
  }

  /**
   * A send to one group delivers nothing to the channels of any other group,
   * as long as every channel is in at most one group.
   */
  lemma BroadcastStaysInGroup(groups: Groups, queues: Queues, group: string, other: string, event: GroupEvent)
    requires AtMostOneGroup(groups)
    requires other != group
    ensures forall c :: c in Members(groups, other) ==>
              Queue(Broadcast(queues, Members(groups, group), event), c) == Queue(queues, c)
  {
    var r := Broadcast(queues, Members(groups, group), event);
    forall c | c in Members(groups, other)
      ensures Queue(r, c) == Queue(queues, c)
    {
      assert c !in Members(groups, group);
    }
  }

  /** A send to a group with no members changes no queue. */
  lemma BroadcastToEmptyGroup(queues: Queues, event: GroupEvent)
    ensures Broadcast(queues, {}, event) == queues
  {
  }

  /** The shared channel layer, updated in place by every consumer. */
  class ChannelLayer {
    var groups: Groups
    var queues: Queues

    ghost predicate Valid()
      reads this
    {
      NoEmptyGroups(groups)
    }

    constructor ()
      ensures Valid()
      ensures groups == map[] && queues == map[]
    {
      groups := map[];
      queues := map[];
    }

    method GroupAdd(group: string, channel: string)
      requires Valid()
      modifies this
      ensures Valid()
      ensures groups == AddMember(old(groups), group, channel)
      ensures queues == old(queues)
    {
      groups := groups[group := Members(groups, group) + {channel}];
    }

    method GroupDiscard(group: string, channel: string)
      requires Valid()
      modifies this
      ensures Valid()
      ensures groups == RemoveMember(old(groups), group, channel)
      ensures queues == old(queues)
    {
      if group in groups {
        var rest := groups[group] - {channel};
        if rest == {} {
          groups := groups - {group};
        } else {
          groups := groups[group := rest];
        }
      }
    }

    method GroupSend(group: string, event: GroupEvent)
      requires Valid()
      modifies this
      ensures Valid()
      ensures groups == old(groups)
      ensures queues == Broadcast(old(queues), Members(old(groups), group), event)
    {
      var members := Members(groups, group);
      queues := map c | c in queues.Keys + members :: if c in members then Queue(queues, c) + [event] else queues[c];
    }
  }
}
