/**
 * The channel layer and the sockets, as the application code sees them.
 *
 * `groups` maps a group name to the channel names that joined it. `effects` is the ordered
 * log of every request the application makes: of the layer (`group_add`, `group_discard`,
 * `group_send`) and of its own socket (`accept`, `send`). How the layer then delivers a
 * group message to the members belongs to the library and is not modelled.
 */
module ChannelLayer {
  import opened Json

  datatype Effect =
    | Joined(group: string, channel: string)          // group_add
    | Left(group: string, channel: string)            // group_discard
    | Broadcast(group: string, message: map<string, Json>)  // group_send
    | Accepted(channel: string)                       // accept()
    | Sent(channel: string, frame: Json)              // send(text_data=json.dumps(frame))

  /** The channels in `group`; a group nobody joined has no members. */
  function Members(groups: map<string, set<string>>, group: string): set<string>
  {
    if group in groups then groups[group] else {}
  }

  /** Membership after `group_add(group, channel)`: that group gains the channel, no other changes. */
  function AddMember(groups: map<string, set<string>>, group: string, channel: string): (r: map<string, set<string>>)
    ensures Members(r, group) == Members(groups, group) + {channel}
    ensures forall g :: g != group ==> Members(r, g) == Members(groups, g)
  {
    groups[group := Members(groups, group) + {channel}]
  }

  /** Membership after `group_discard(group, channel)`: that group loses the channel, no other changes. */
  function DiscardMember(groups: map<string, set<string>>, group: string, channel: string): (r: map<string, set<string>>)
    ensures Members(r, group) == Members(groups, group) - {channel}
    ensures forall g :: g != group ==> Members(r, g) == Members(groups, g)
  {
    if group in groups then groups[group := groups[group] - {channel}] else groups
  }

  /** Joining a group and then leaving it restores every group's membership. */
  lemma JoinThenLeave(groups: map<string, set<string>>, group: string, channel: string)
    requires channel !in Members(groups, group)
    ensures forall g :: Members(DiscardMember(AddMember(groups, group, channel), group, channel), g) == Members(groups, g)
  {
  }

  class Runtime {
    var groups: map<string, set<string>>
    var effects: seq<Effect>

    constructor ()
      ensures groups == map[] && effects == []
    {
      groups := map[];
      effects := [];
    }

    method GroupAdd(group: string, channel: string)
      modifies this
      ensures groups == AddMember(old(groups), group, channel)
      ensures effects == old(effects) + [Joined(group, channel)]
    {
      groups := AddMember(groups, group, channel);
      effects := effects + [Joined(group, channel)];
    }

    method GroupDiscard(group: string, channel: string)
      modifies this
      ensures groups == DiscardMember(old(groups), group, channel)
      ensures effects == old(effects) + [Left(group, channel)]
    {
      groups := DiscardMember(groups, group, channel);
      effects := effects + [Left(group, channel)];
    }

    method GroupSend(group: string, message: map<string, Json>)
      modifies this
      ensures groups == old(groups)
      ensures effects == old(effects) + [Broadcast(group, message)]
    {
      effects := effects + [Broadcast(group, message)];
    }

    method Accept(channel: string)
      modifies this
      ensures groups == old(groups)
      ensures effects == old(effects) + [Accepted(channel)]
    {
      effects := effects + [Accepted(channel)];
    }

    method Send(channel: string, frame: Json)
      modifies this
      ensures groups == old(groups)
      ensures effects == old(effects) + [Sent(channel, frame)]
    {
      effects := effects + [Sent(channel, frame)];
    }
  }
}
