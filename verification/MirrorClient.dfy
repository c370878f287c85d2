/**
 * The handlers as they run: methods that update the Channel and User objects in place, proved
 * against the functions of module Mirror.
 */
module MirrorClient {
  import opened Bytes
  import opened Mirror
  import opened MirrorInv
  import opened MirrorTree

  /** How a handler ends, without the state it leaves. */
  datatype Result = Ok(events: seq<Event>) | Err | Blocked | Panicked

  function ResultOf(o: Outcome): (r: Result) {
    match o
    case Done(_, events) => Ok(events)
    case Failed(_) => Err
    case Stuck(_) => Blocked
    case Crashed(_) => Panicked
  }

  /** Ids and sessions lead to objects, and so do the pointers of those. */
  ghost predicate Pointers(s: State) {
    && (forall k :: k in s.channels ==> s.channels[k] in s.chan && ParentExists(s, s.channels[k]) && LinksKnown(s, s.channels[k]))
    && (forall k :: k in s.users ==> UserExists(s, k))
  }

  ghost predicate UserExists(s: State, k: uint32)
    requires k in s.users
  {
    var u := s.users[k];
    u in s.user && Who(s, u).session == k && (Who(s, u).channel == null || Who(s, u).channel in s.chan)
  }

  lemma PointersOfInv(s: State)
    requires Inv(s) && LinksExist(s)
    ensures Pointers(s)
  {
    forall k | k in s.channels ensures s.channels[k] in s.chan && ParentExists(s, s.channels[k]) && LinksKnown(s, s.channels[k]) {
      assert Hung(s, k);
    }
    forall k | k in s.users ensures UserExists(s, k) {
      assert Housed(s, k);
    }
  }

  class Client {
    var channels: map<uint32, Channel>
    var users: map<uint32, User>
    var permissions: map<uint32, uint32>
    var self: User?
    var synced: bool
    var disconnect: Disconnect
    ghost var allChannels: set<Channel>
    ghost var allUsers: set<User>

    constructor ()
      ensures Snapshot() == START && Valid()
      ensures allChannels == {} && allUsers == {}
    {
      channels, users, permissions, self, synced, disconnect := map[], map[], map[], null, false, ByError;
      allChannels, allUsers := {}, {};
    }

    /** The fields of the client and of all objects it ever made. */
    ghost function Snapshot(): (s: State)
      reads this, allChannels, allUsers
    {
      State(map c | c in allChannels :: c.Rec(), map u | u in allUsers :: u.Rec(), channels, users, permissions, self, synced, disconnect)
    }

    ghost predicate Valid()
      reads this, allChannels, allUsers
    {
      Inv(Snapshot()) && LinksExist(Snapshot())
    }

    // ---- Field assignments and what they do to the snapshot ----

    method SetChildren(c: Channel, m: map<uint32, Channel>)
      requires c in allChannels
      modifies c`children
      ensures c.children == m && Snapshot() == Put(old(Snapshot()), c, At(old(Snapshot()), c).(children := m))
    {
      c.children := m;
      assert Snapshot().chan == old(Snapshot()).chan[c := c.Rec()];
    }

    method SetParent(c: Channel, p: Channel?)
      requires c in allChannels
      modifies c`parent
      ensures c.parent == p && Snapshot() == Put(old(Snapshot()), c, At(old(Snapshot()), c).(parent := p))
    {
      c.parent := p;
      assert Snapshot().chan == old(Snapshot()).chan[c := c.Rec()];
    }

    method SetLinks(c: Channel, m: map<uint32, Channel>)
      requires c in allChannels
      modifies c`links
      ensures c.links == m && Snapshot() == Put(old(Snapshot()), c, At(old(Snapshot()), c).(links := m))
    {
      c.links := m;
      assert Snapshot().chan == old(Snapshot()).chan[c := c.Rec()];
    }

    method SetUsers(c: Channel, m: map<uint32, User>)
      requires c in allChannels
      modifies c`users
      ensures c.users == m && Snapshot() == Put(old(Snapshot()), c, At(old(Snapshot()), c).(users := m))
    {
      c.users := m;
      assert Snapshot().chan == old(Snapshot()).chan[c := c.Rec()];
    }

    method SetName(c: Channel, name: string)
      requires c in allChannels
      modifies c`name
      ensures c.name == name && Snapshot() == Put(old(Snapshot()), c, At(old(Snapshot()), c).(name := name))
    {
      c.name := name;
      assert Snapshot().chan == old(Snapshot()).chan[c := c.Rec()];
    }

    method SetInfo(c: Channel, info: ChannelInfo)
      requires c in allChannels
      modifies c`info
      ensures c.info == info && Snapshot() == Put(old(Snapshot()), c, At(old(Snapshot()), c).(info := info))
    {
      c.info := info;
      assert Snapshot().chan == old(Snapshot()).chan[c := c.Rec()];
    }

    method SetUserChannel(u: User, c: Channel?)
      requires u in allUsers
      modifies u`channel
      ensures u.channel == c && Snapshot() == PutUser(old(Snapshot()), u, Who(old(Snapshot()), u).(channel := c))
    {
      u.channel := c;
      assert Snapshot().user == old(Snapshot()).user[u := u.Rec()];
    }

    method SetUserInfo(u: User, info: UserInfo)
      requires u in allUsers
      modifies u`info
      ensures u.info == info && Snapshot() == WithInfo(old(Snapshot()), u, info)
    {
      u.info := info;
      assert Snapshot().user == old(Snapshot()).user[u := u.Rec()];
    }

    // ---- ChannelRemove ----

    /** Taking a channel out of its parent's Children. */
    method Detach(c: Channel)
      requires c in allChannels && (c.parent == null || c.parent in allChannels)
      modifies allChannels`children
      ensures Snapshot() == Detached(old(Snapshot()), c)
    {
      if c.parent != null {
        SetChildren(c.parent, c.parent.children - {c.id});
      }
    }

    /** Every channel that the given one links to drops its id; the map is visited in any order. */
    method ForgetLinksTo(c: Channel, id: uint32)
      requires c in allChannels && forall k :: k in c.links ==> c.links[k] in allChannels
      modifies allChannels`links
      ensures Snapshot() == old(Snapshot()).(chan := ForgetLinks(old(Snapshot()).chan, old(c.links), id))
    {
      ghost var s := Snapshot();
      var links := c.links;
      var keys := links.Keys;
      assert ForgetLinks(s.chan, Visited(links, keys), id) == s.chan;
      while keys != {}
        invariant keys <= links.Keys
        invariant Snapshot() == s.(chan := ForgetLinks(s.chan, Visited(links, keys), id))
      {
        var k :| k in keys;
        var d := links[k];
        ForgetStep(s.chan, links, keys, k, id);
        SetLinks(d, d.links - {id});
        keys := keys - {k};
      }
      assert Visited(links, keys) == links;
    }

    method UnregisterChannel(c: Channel)
      requires c in allChannels
      modifies c`client, `channels, `permissions
      ensures Snapshot() == Put(old(Snapshot()), c, At(old(Snapshot()), c).(client := false))
                            .(channels := old(channels) - {c.id}, permissions := old(permissions) - {c.id})
    {
      ClearChannelClient(c);
      ForgetId(c.id);
    }

    method ForgetId(id: uint32)
      modifies `channels, `permissions
      ensures Snapshot() == old(Snapshot()).(channels := old(channels) - {id}, permissions := old(permissions) - {id})
    {
      channels := channels - {id};
      permissions := permissions - {id};
      assert Snapshot().chan == old(Snapshot()).chan && Snapshot().user == old(Snapshot()).user;
    }

    method ClearChannelClient(c: Channel)
      requires c in allChannels
      modifies c`client
      ensures Snapshot() == Put(old(Snapshot()), c, At(old(Snapshot()), c).(client := false))
    {
      c.client := false;
      assert Snapshot().chan == old(Snapshot()).chan[c := c.Rec()];
    }

    method Remove(c: Channel)
      requires c in allChannels && (c.parent == null || c.parent in allChannels)
      requires forall k :: k in c.links ==> c.links[k] in allChannels
      modifies `channels, `permissions, allChannels
      ensures Snapshot() == RemoveChannel(old(Snapshot()), c)
    {
      UnregisterChannel(c);
      Detach(c);
      ForgetLinksTo(c, c.id);
    }

    method RemoveById(channelId: Option<uint32>) returns (r: Result)
      requires Pointers(Snapshot())
      modifies `channels, `permissions, allChannels
      ensures r == ResultOf(Mirror.HandleChannelRemove(old(Snapshot()), channelId))
      ensures Snapshot() == Mirror.HandleChannelRemove(old(Snapshot()), channelId).state
    {
      if channelId.None? || channelId.value !in channels {
        return Err;
      }
      var c := channels[channelId.value];
      assert ParentExists(Snapshot(), c) && LinksKnown(Snapshot(), c) && At(Snapshot(), c) == c.Rec();
      Remove(c);
      r := Ok(if synced then [ChannelEvent({Removed}, c)] else []);
    }

    method HandleChannelRemove(channelId: Option<uint32>) returns (r: Result)
      requires Valid()
      modifies this, allChannels
      ensures r == ResultOf(Mirror.HandleChannelRemove(old(Snapshot()), channelId))
      ensures Snapshot() == Mirror.HandleChannelRemove(old(Snapshot()), channelId).state
      ensures Valid() && allChannels == old(allChannels) && allUsers == old(allUsers)
    {
      ghost var s := Snapshot();
      PointersOfInv(s);
      r := RemoveById(channelId);
      ChannelRemoveKeepsInv(s, channelId);
      ChannelRemoveKeepsLinks(s, channelId);
    }

    // ---- ChannelState ----

    method CreateChannel(id: uint32) returns (c: Channel)
      modifies `channels, `allChannels
      ensures fresh(c) && c.parent == null && allChannels == old(allChannels) + {c} && channels == old(channels)[id := c]
      ensures Snapshot() == Mirror.CreateChannel(old(Snapshot()), id, c)
    {
      c := MakeChannel(id);
      channels := channels[id := c];
      allChannels := allChannels + {c};
      assert Snapshot().chan == old(Snapshot()).chan[c := c.Rec()];
    }

    method MakeChannel(id: uint32) returns (c: Channel)
      ensures fresh(c) && c.Rec() == NewChannelRec(id).(client := true)
    {
      c := new Channel(id);
      c.client := true;
    }

    method MoveTo(c: Channel, parent: Channel?)
      requires c in allChannels && (c.parent == null || c.parent in allChannels) && (parent == null || parent in allChannels)
      modifies allChannels`children, c`parent
      ensures Snapshot() == Reparent(old(Snapshot()), c, parent)
    {
      Detach(c);
      SetParent(c, parent);
      if parent != null {
        SetChildren(parent, parent.children[c.id := c]);
      }
    }

    method Place(c: Channel, p: ChannelState) returns (e: set<ChannelChange>)
      requires c in allChannels && (c.parent == null || c.parent in allChannels)
      requires forall k :: k in channels ==> channels[k] in allChannels
      modifies allChannels`children, c`parent
      ensures Snapshot() == Placed(old(Snapshot()), c, p)
      ensures e == MoveChange(channels, old(c.parent), p)
    {
      e := {};
      if p.parent.Some? {
        var parent: Channel? := if p.parent.value in channels then channels[p.parent.value] else null;
        if parent != c.parent {
          e := {Moved};
        }
        MoveTo(c, parent);
      }
    }

    /** The full list replaces the channel's own links, one known channel at a time. */
    method Relist(c: Channel, ids: seq<uint32>)
      requires c in allChannels
      modifies c`links
      ensures Snapshot() == ReplaceLinks(old(Snapshot()), c, ids)
    {
      c.links := map[];
      var i := 0;
      while i < |ids|
        invariant 0 <= i <= |ids| && c.links == Resolved(channels, ids[..i])
      {
        ResolvedAppend(channels, ids, i);
        if ids[i] in channels {
          c.links := c.links[ids[i] := channels[ids[i]]];
        }
        i := i + 1;
      }
      assert ids[..i] == ids;
      assert Snapshot().chan == old(Snapshot()).chan[c := c.Rec()];
    }

    method LinkOne(c: Channel, k: uint32) returns (known: bool)
      requires c in allChannels && forall j :: j in channels ==> channels[j] in allChannels
      modifies allChannels`links
      ensures Snapshot() == Link(old(Snapshot()), c, k) && known == (k in channels)
    {
      known := k in channels;
      if known {
        var d := channels[k];
        SetLinks(c, c.links[k := d]);
        SetLinks(d, d.links[c.id := c]);
      }
    }

    method UnlinkOne(c: Channel, k: uint32) returns (known: bool)
      requires c in allChannels && forall j :: j in channels ==> channels[j] in allChannels
      modifies allChannels`links
      ensures Snapshot() == Unlink(old(Snapshot()), c, k) && known == (k in channels)
    {
      known := k in channels;
      if known {
        var d := channels[k];
        SetLinks(c, c.links - {k});
        SetLinks(d, d.links - {c.id});
      }
    }

    method AddLinks(c: Channel, ids: seq<uint32>) returns (any: bool)
      requires c in allChannels && forall k :: k in channels ==> channels[k] in allChannels
      modifies allChannels`links
      ensures Snapshot() == LinkAll(old(Snapshot()), c, ids) && any == Names(channels, ids)
    {
      ghost var s := Snapshot();
      any := false;
      var i := 0;
      while i < |ids|
        invariant 0 <= i <= |ids| && any == Names(channels, ids[..i])
        invariant Snapshot() == LinkAll(s, c, ids[..i])
      {
        NamesAppend(channels, ids, i);
        LinkAllAppend(s, c, ids, i);
        var known := LinkOne(c, ids[i]);
        any := any || known;
        i := i + 1;
      }
      assert ids[..i] == ids;
    }

    method DropLinks(c: Channel, ids: seq<uint32>) returns (any: bool)
      requires c in allChannels && forall k :: k in channels ==> channels[k] in allChannels
      modifies allChannels`links
      ensures Snapshot() == UnlinkAll(old(Snapshot()), c, ids) && any == Names(channels, ids)
    {
      ghost var s := Snapshot();
      any := false;
      var i := 0;
      while i < |ids|
        invariant 0 <= i <= |ids| && any == Names(channels, ids[..i])
        invariant Snapshot() == UnlinkAll(s, c, ids[..i])
      {
        NamesAppend(channels, ids, i);
        LinkAllAppend(s, c, ids, i);
        var known := UnlinkOne(c, ids[i]);
        any := any || known;
        i := i + 1;
      }
      assert ids[..i] == ids;
    }

    method Relink(c: Channel, p: ChannelState) returns (e: set<ChannelChange>)
      requires c in allChannels && forall k :: k in channels ==> channels[k] in allChannels
      modifies allChannels`links
      ensures Snapshot() == Relinked(old(Snapshot()), c, p)
      ensures e == LinkChange(channels, p)
    {
      if p.links != [] {
        Relist(c, p.links);
      }
      var added := AddLinks(c, p.linksAdd);
      var dropped := DropLinks(c, p.linksRemove);
      e := Flag(p.links != [] || added || dropped, Links);
    }

    method Rename(c: Channel, p: ChannelState) returns (e: set<ChannelChange>)
      requires c in allChannels
      modifies c`name
      ensures Snapshot() == Named(old(Snapshot()), c, p)
      ensures e == NameChange(old(c.name), p)
    {
      e := {};
      if p.name.Some? && p.name.value != c.name {
        e := {ChannelName};
      }
      SetName(c, Or(p.name, c.name));
    }

    method Note(c: Channel, p: ChannelState) returns (e: set<ChannelChange>)
      requires c in allChannels
      modifies c`info
      ensures Snapshot() == Noted(old(Snapshot()), c, p)
      ensures e == NoteChanges(old(c.info), p)
    {
      var i;
      i, e := Revise(c.info, p);
      SetInfo(c, i);
    }

    method Update(c: Channel, p: ChannelState) returns (e: set<ChannelChange>)
      requires c in allChannels && (c.parent == null || c.parent in allChannels)
      requires forall k :: k in channels ==> channels[k] in allChannels
      modifies allChannels
      ensures Snapshot() == Noted(Relinked(Named(Placed(old(Snapshot()), c, p), c, p), c, p), c, p)
      ensures e == RecordChanges(channels, old(c.Rec()), p)
    {
      ghost var r := c.Rec();
      var moved := Place(c, p);
      var named := Rename(c, p);
      var linked := Relink(c, p);
      var noted := Note(c, p);
      AllRevisions(channels, r, p, moved, named, linked, noted);
      e := moved + named + linked + noted;
    }

    /** The channel with an id, created if there is none. */
    method Obtain(id: uint32) returns (c: Channel, created: bool)
      requires Pointers(Snapshot())
      modifies `channels, `allChannels
      ensures created == (id !in old(channels)) && (if created then fresh(c) else c == old(channels)[id])
      ensures c in allChannels && old(allChannels) <= allChannels && fresh(allChannels - old(allChannels))
      ensures (c.parent == null || c.parent in allChannels) && forall k :: k in channels ==> channels[k] in allChannels
      ensures Snapshot() == Ensured(old(Snapshot()), id, c) && c == Target(old(Snapshot()), id, c)
    {
      created := id !in channels;
      if created {
        c := CreateChannel(id);
      } else {
        c := channels[id];
        assert ParentExists(Snapshot(), c) && At(Snapshot(), c) == c.Rec();
      }
    }

    method UpdateById(id: uint32, p: ChannelState) returns (r: Result, c: Channel)
      requires Pointers(Snapshot()) && p.channelId == Some(id)
      modifies `channels, `allChannels, allChannels
      ensures if id in old(channels) then c == old(channels)[id] else fresh(c)
      ensures r == ResultOf(Mirror.HandleChannelState(old(Snapshot()), p, c))
      ensures Snapshot() == Mirror.HandleChannelState(old(Snapshot()), p, c).state
      ensures old(allChannels) <= allChannels && fresh(allChannels - old(allChannels))
    {
      var created;
      c, created := Obtain(id);
      ghost var s := Snapshot();
      assert At(s, c) == c.Rec();
      var e := Update(c, p);
      ChannelUpdated(old(Snapshot()), s, Snapshot(), p, id, c, created, e);
      r := Ok(if synced then [ChannelEvent(Flag(created, Created) + e, c)] else []);
    }

    /** The channel that the packet is about is returned, for the event; it is new if its id was unknown. */
    method HandleChannelState(p: ChannelState) returns (r: Result, c: Channel?)
      requires Valid()
      modifies this, allChannels
      ensures p.channelId.None? ==> r == Err && Snapshot() == old(Snapshot())
      ensures p.channelId.Some? ==> c != null && (if p.channelId.value in old(channels) then c == old(channels)[p.channelId.value] else fresh(c))
      ensures c != null ==> r == ResultOf(Mirror.HandleChannelState(old(Snapshot()), p, c))
      ensures c != null ==> Snapshot() == Mirror.HandleChannelState(old(Snapshot()), p, c).state
      ensures Valid() && old(allChannels) <= allChannels && fresh(allChannels - old(allChannels)) && allUsers == old(allUsers)
    {
      if p.channelId.None? {
        return Err, null;
      }
      ghost var s := Snapshot();
      PointersOfInv(s);
      r, c := UpdateById(p.channelId.value, p);
      ChannelStateEnds(s, p, c);
    }

    // ---- UserRemove ----

    method Leave(u: User)
      requires u in allUsers && (u.channel == null || u.channel in allChannels)
      modifies allChannels`users
      ensures Snapshot() == Left(old(Snapshot()), u)
    {
      if u.channel != null {
        SetUsers(u.channel, u.channel.users - {u.session});
      }
    }

    method Enter(u: User)
      requires u in allUsers && (u.channel == null || u.channel in allChannels)
      modifies allChannels`users
      ensures Snapshot() == Entered(old(Snapshot()), u)
    {
      if u.channel != null {
        SetUsers(u.channel, u.channel.users[u.session := u]);
      }
    }

    method ClearClient(u: User)
      requires u in allUsers
      modifies u`client
      ensures Snapshot() == PutUser(old(Snapshot()), u, Who(old(Snapshot()), u).(client := false))
    {
      u.client := false;
      assert Snapshot().user == old(Snapshot()).user[u := u.Rec()];
    }

    method Disconnect(u: User, banned: bool)
      requires u in allUsers && (u.channel == null || u.channel in allChannels)
      modifies `users, `disconnect, allChannels`users, u`client
      ensures Snapshot() == RemoveUser(old(Snapshot()), u, banned)
    {
      ClearClient(u);
      Leave(u);
      Unregister(u, banned);
    }

    method Unregister(u: User, banned: bool)
      modifies `users, `disconnect
      ensures Snapshot() == old(Snapshot()).(users := old(users) - {u.session},
                              disconnect := if self == u then (if banned then ByBan else ByKick) else old(disconnect))
    {
      users := users - {u.session};
      if u == self {
        disconnect := if banned then ByBan else ByKick;
      }
      assert Snapshot().chan == old(Snapshot()).chan;
      assert Snapshot().user == old(Snapshot()).user;
    }

    method DisconnectById(session: Option<uint32>, actor: Option<uint32>, reason: Option<string>, ban: Option<bool>) returns (r: Result)
      requires Pointers(Snapshot())
      modifies `users, `disconnect, allChannels, allUsers
      ensures r == ResultOf(Mirror.HandleUserRemove(old(Snapshot()), session, actor, reason, ban))
      ensures Snapshot() == Mirror.HandleUserRemove(old(Snapshot()), session, actor, reason, ban).state
    {
      if session.None? || session.value !in users {
        return Err;
      }
      var u := users[session.value];
      var bits: set<UserChange>, author: User? := {Disconnected}, null;
      if actor.Some? {
        if actor.value !in users {
          return Err;
        }
        author := users[actor.value];
        bits := bits + {Kicked};
      }
      var banned := ban.Some? && ban.value;
      if banned {
        bits := bits + {Banned};
      }
      assert bits == {Disconnected} + Flag(actor.Some?, Kicked) + Flag(banned, Banned);
      assert UserExists(Snapshot(), session.value) && Who(Snapshot(), u) == u.Rec();
      Disconnect(u, banned);
      r := Ok(if synced then [UserEvent(bits, u, author, Or(reason, ""))] else []);
    }

    method HandleUserRemove(session: Option<uint32>, actor: Option<uint32>, reason: Option<string>, ban: Option<bool>) returns (r: Result)
      requires Valid()
      modifies this, allChannels, allUsers
      ensures r == ResultOf(Mirror.HandleUserRemove(old(Snapshot()), session, actor, reason, ban))
      ensures Snapshot() == Mirror.HandleUserRemove(old(Snapshot()), session, actor, reason, ban).state
      ensures Valid() && allChannels == old(allChannels) && allUsers == old(allUsers)
    {
      ghost var s := Snapshot();
      PointersOfInv(s);
      r := DisconnectById(session, actor, reason, ban);
      UserRemoveKeepsInv(s, session, actor, reason, ban);
      UserRemoveKeepsLinks(s, session, actor, reason, ban);
    }

    // ---- UserState ----

    method CreateUser(session: uint32) returns (u: User)
      modifies `users, `allUsers
      ensures fresh(u) && allUsers == old(allUsers) + {u} && users == old(users)[session := u]
      ensures u.session == session && u.channel == Lookup(channels, 0)
      ensures Snapshot() == Mirror.CreateUser(old(Snapshot()), session, u)
    {
      u := new User(session);
      u.channel := if 0 in channels then channels[0] else null;
      u.client := true;
      Adopt(u);
    }

    method Adopt(u: User)
      requires u !in allUsers
      modifies `users, `allUsers
      ensures allUsers == old(allUsers) + {u} && users == old(users)[u.session := u]
      ensures Snapshot() == PutUser(old(Snapshot()), u, u.Rec()).(users := users)
    {
      users := users[u.session := u];
      allUsers := allUsers + {u};
      assert Snapshot().chan == old(Snapshot()).chan;
      assert Snapshot().user == old(Snapshot()).user[u := u.Rec()];
    }

    method MoveUser(u: User, c: Channel) returns (e: set<UserChange>)
      requires u in allUsers && c in allChannels && (u.channel == null || u.channel in allChannels)
      modifies allChannels`users, u`channel
      ensures Snapshot() == Mirror.MoveUser(old(Snapshot()), u, c)
      ensures e == Flag(c != old(u.channel), InChannel)
    {
      e := {};
      Leave(u);
      if c != u.channel {
        e := {InChannel};
      }
      SetUserChannel(u, c);
      Enter(u);
    }

    method Identify(u: User, p: UserState, connected: bool) returns (e: set<UserChange>)
      requires u in allUsers
      modifies u`info
      ensures Snapshot() == WithInfo(old(Snapshot()), u, Identified(old(u.info), p, connected)) && u.info == Identified(old(u.info), p, connected)
      ensures e == IdentityChanges(old(u.info), p, connected)
    {
      var i;
      i, e := ReviseIdentity(u.info, p, connected);
      SetUserInfo(u, i);
    }

    method Detail(u: User, p: UserState) returns (e: set<UserChange>)
      requires u in allUsers
      modifies u`info
      ensures Snapshot() == WithInfo(old(Snapshot()), u, Detailed(old(u.info), p))
      ensures e == DetailChanges(old(u.info), p)
    {
      var i;
      i, e := ReviseDetails(u.info, p);
      SetUserInfo(u, i);
    }

    method Rehouse(u: User, p: UserState) returns (blocked: bool, e: set<UserChange>)
      requires u in allUsers && (u.channel == null || u.channel in allChannels)
      requires forall k :: k in channels ==> channels[k] in allChannels
      modifies allChannels`users, u`channel
      ensures Snapshot() == Rehoused(old(Snapshot()), u, p)
      ensures blocked == Homeless(channels, p)
      ensures !blocked ==> e == HouseChange(channels, old(u.channel), p)
    {
      blocked, e := false, {};
      if p.channelId.Some? {
        if p.channelId.value in channels {
          e := MoveUser(u, channels[p.channelId.value]);
        } else {
          Leave(u);
          blocked := true;
        }
      }
    }

    /** The part of the handler after the user and the actor are known; it does not come back from an unknown channel. */
    method UpdateUser(u: User, p: UserState, connected: bool) returns (blocked: bool, e: set<UserChange>)
      requires u in allUsers && (u.channel == null || u.channel in allChannels)
      requires forall k :: k in channels ==> channels[k] in allChannels
      modifies allChannels`users, u`info, u`channel
      ensures Snapshot() == Mirror.UpdateUser(old(Snapshot()), u, p, connected)
      ensures blocked == Homeless(channels, p)
      ensures !blocked ==> e == UpdateChanges(channels, old(u.Rec()), p, connected)
    {
      ghost var r := u.Rec();
      var identity := Identify(u, p, connected);
      var moved;
      blocked, moved := Rehouse(u, p);
      e := identity + moved;
      if !blocked {
        var details := Detail(u, p);
        AllChanges(channels, r, p, connected, identity, moved, details);
        e := e + details;
      }
    }

    /** A new user is put in the root channel; without a root it is registered all the same. */
    method Arrive(session: uint32) returns (u: User, connected: bool)
      requires Pointers(Snapshot())
      modifies `users, `allUsers, allChannels`users
      ensures connected == (session !in old(users)) && (if connected then fresh(u) else u == old(users)[session])
      ensures u in allUsers && session in users && users[session] == u && (u.channel == null || u.channel in allChannels)
      ensures connected ==> (u.channel == null <==> 0 !in channels)
      ensures Snapshot() == Arrived(old(Snapshot()), session, u)
      ensures old(allUsers) <= allUsers <= old(allUsers) + {u}
    {
      connected := session !in users;
      if connected {
        u := CreateUser(session);
        Enter(u);
      } else {
        u := users[session];
        assert UserExists(Snapshot(), session) && Who(Snapshot(), u) == u.Rec();
      }
    }

    method Continue(u: User, p: UserState, connected: bool) returns (r: Result)
      requires u in allUsers && (u.channel == null || u.channel in allChannels)
      requires forall k :: k in channels ==> channels[k] in allChannels
      requires connected ==> (u.channel == null <==> 0 !in channels)
      modifies allChannels`users, u`info, u`channel
      ensures r == ResultOf(Continued(old(Snapshot()), u, p, connected))
      ensures Snapshot() == Continued(old(Snapshot()), u, p, connected).state
    {
      if connected && u.channel == null {
        return Err;
      }
      var author: User? := null;
      if p.actor.Some? {
        if p.actor.value !in users {
          return Err;
        }
        author := users[p.actor.value];
      }
      ghost var s := Snapshot();
      assert Who(s, u) == u.Rec();
      var blocked, e := UpdateUser(u, p, connected);
      if blocked {
        r := Blocked;
      } else {
        var bits: set<UserChange> := if connected then {Connected, InChannel} else {};
        r := Ok(if synced then [UserEvent(bits + e, u, author, "")] else []);
      }
    }

    method UpdateBySession(session: uint32, p: UserState) returns (r: Result, u: User)
      requires Pointers(Snapshot()) && p.session == Some(session)
      modifies `users, `allUsers, allChannels, allUsers
      ensures if session in old(users) then u == old(users)[session] else fresh(u)
      ensures r == ResultOf(Mirror.HandleUserState(old(Snapshot()), p, u))
      ensures Snapshot() == Mirror.HandleUserState(old(Snapshot()), p, u).state
      ensures old(allUsers) <= allUsers && fresh(allUsers - old(allUsers))
    {
      var connected;
      u, connected := Arrive(session);
      r := Continue(u, p, connected);
    }

    /**
     * The user the packet is about is returned, for the event; it is new if its session was unknown.
     * `Blocked` stands for the call that waits for the lock it holds.
     */
    method HandleUserState(p: UserState) returns (r: Result, u: User?)
      requires Valid()
      modifies this, allChannels, allUsers
      ensures p.session.None? ==> r == Err && Snapshot() == old(Snapshot())
      ensures p.session.Some? ==> u != null && (if p.session.value in old(users) then u == old(users)[p.session.value] else fresh(u))
      ensures u != null ==> r == ResultOf(Mirror.HandleUserState(old(Snapshot()), p, u))
      ensures u != null ==> Snapshot() == Mirror.HandleUserState(old(Snapshot()), p, u).state
      ensures (!r.Blocked? ==> Valid()) && allChannels == old(allChannels) && old(allUsers) <= allUsers && fresh(allUsers - old(allUsers))
    {
      if p.session.None? {
        return Err, null;
      }
      ghost var s := Snapshot();
      PointersOfInv(s);
      r, u := UpdateBySession(p.session.value, p);
      UserStateEnds(s, p, u);
    }

    // ---- PermissionQuery and ServerSync ----

    /** The channels of the flushed ids, in the order the map iteration takes them. */
    method Flush() returns (changed: seq<Channel?>, ghost order: seq<uint32>)
      modifies `permissions
      ensures Enumerates(order, old(permissions).Keys) && permissions == map[]
      ensures changed == LookupAll(channels, order) && Snapshot() == old(Snapshot()).(permissions := map[])
    {
      var keys := permissions.Keys;
      permissions := map[];
      changed, order := [], [];
      while keys != {}
        invariant keys <= old(permissions).Keys && |changed| == |order|
        invariant forall i :: 0 <= i < |order| ==> order[i] in old(permissions).Keys && order[i] !in keys && changed[i] == Lookup(channels, order[i])
        invariant forall k :: k in old(permissions).Keys ==> k in keys || k in order
        invariant forall i, j :: 0 <= i < j < |order| ==> order[i] != order[j]
      {
        var k :| k in keys;
        keys := keys - {k};
        changed := changed + [if k in channels then channels[k] else null];
        order := order + [k];
      }
      assert Snapshot().chan == old(Snapshot()).chan && Snapshot().user == old(Snapshot()).user;
    }

    method Grant(id: uint32, granted: uint32)
      modifies `permissions
      ensures Snapshot() == old(Snapshot()).(permissions := old(permissions)[id := granted])
    {
      permissions := permissions[id := granted];
      assert Snapshot().chan == old(Snapshot()).chan && Snapshot().user == old(Snapshot()).user;
    }

    method Query(channelId: Option<uint32>, granted: Option<uint32>, flush: bool) returns (r: Result, ghost order: seq<uint32>)
      requires Pointers(Snapshot())
      modifies `permissions
      ensures flush && !r.Err? ==> Enumerates(order, old(permissions).Keys)
      ensures r == ResultOf(Mirror.HandlePermissionQuery(old(Snapshot()), channelId, granted, flush, order))
      ensures Snapshot() == Mirror.HandlePermissionQuery(old(Snapshot()), channelId, granted, flush, order).state
    {
      order := [];
      var single := channelId.Some? && granted.Some?;
      if single && channelId.value !in channels {
        return Err, [];
      }
      var changed: seq<Channel?> := [];
      if flush {
        changed, order := Flush();
      }
      if single {
        var c := channels[channelId.value];
        Grant(c.id, granted.value);
        changed := changed + [c];
      }
      r := Ok(Reported(changed));
    }

    method HandlePermissionQuery(channelId: Option<uint32>, granted: Option<uint32>, flush: Option<bool>) returns (r: Result, ghost order: seq<uint32>)
      requires Valid()
      modifies `permissions
      ensures Or(flush, false) && !r.Err? ==> Enumerates(order, old(permissions).Keys)
      ensures r == ResultOf(Mirror.HandlePermissionQuery(old(Snapshot()), channelId, granted, Or(flush, false), order))
      ensures Snapshot() == Mirror.HandlePermissionQuery(old(Snapshot()), channelId, granted, Or(flush, false), order).state
      ensures Valid()
    {
      ghost var s := Snapshot();
      var flushing := flush.Some? && flush.value;
      PointersOfInv(s);
      r, order := Query(channelId, granted, flushing);
      PermissionQueryKeepsInv(s, channelId, granted, flushing, order);
      PermissionQueryKeepsLinks(s, channelId, granted, flushing, order);
    }

    method Sync(me: Option<uint32>) returns (r: Result)
      modifies `self, `synced
      ensures r == ResultOf(Mirror.HandleServerSync(old(Snapshot()), me))
      ensures Snapshot() == Mirror.HandleServerSync(old(Snapshot()), me).state
    {
      if me.Some? {
        self := if me.value in users then users[me.value] else null;
      }
      r := if synced then Panicked else Ok([]);
      synced := true;
      assert Snapshot().chan == old(Snapshot()).chan && Snapshot().user == old(Snapshot()).user;
    }

    method HandleServerSync(me: Option<uint32>) returns (r: Result)
      requires Valid()
      modifies `self, `synced
      ensures r == ResultOf(Mirror.HandleServerSync(old(Snapshot()), me))
      ensures Snapshot() == Mirror.HandleServerSync(old(Snapshot()), me).state && Valid()
    {
      ghost var s := Snapshot();
      SyncKeepsInv(s, Mirror.HandleServerSync(s, me).state);
      SameLinksExist(s, Mirror.HandleServerSync(s, me).state);
      r := Sync(me);
    }

    // ---- The read loop ----

    /** The objects and the order that a handler did not choose; none of them plays a part. */
    ghost method Spares() returns (c: Channel, u: User, order: seq<uint32>)
      requires Valid()
      ensures fresh(c) && fresh(u) && Enumerates(order, permissions.Keys)
      ensures Snapshot() == old(Snapshot()) && Valid()
    {
      c := new Channel.Spare();
      u := new User.Spare();
      order := SomeOrder(permissions.Keys);
    }

    method ReceiveChannelState(p: ChannelState, ghost c: Channel, ghost u: User, ghost order: seq<uint32>) returns (r: Result, ghost i: Input)
      requires Valid() && c !in allChannels && u !in allUsers && Enumerates(order, permissions.Keys)
      modifies this, allChannels
      ensures i.packet == ChannelUpdate(p) && Admissible(old(Snapshot()), i)
      ensures r == ResultOf(Handle(old(Snapshot()), i)) && Snapshot() == Handle(old(Snapshot()), i).state
      ensures r.Ok? || r.Err? ==> Valid()
      ensures old(allChannels) <= allChannels && fresh(allChannels - old(allChannels))
      ensures old(allUsers) <= allUsers && fresh(allUsers - old(allUsers))
    {
      ghost var s := Snapshot();
      var target;
      r, target := HandleChannelState(p);
      ghost var made := MadeChannel(s, p, target, c, r, Snapshot());
      i := Input(ChannelUpdate(p), made, u, order);
      assert Handle(s, i) == Mirror.HandleChannelState(s, p, made);
    }

    method ReceiveUserState(p: UserState, ghost c: Channel, ghost u: User, ghost order: seq<uint32>) returns (r: Result, ghost i: Input)
      requires Valid() && c !in allChannels && u !in allUsers && Enumerates(order, permissions.Keys)
      modifies this, allChannels, allUsers
      ensures i.packet == UserUpdate(p) && Admissible(old(Snapshot()), i)
      ensures r == ResultOf(Handle(old(Snapshot()), i)) && Snapshot() == Handle(old(Snapshot()), i).state
      ensures r.Ok? || r.Err? ==> Valid()
      ensures old(allChannels) <= allChannels && fresh(allChannels - old(allChannels))
      ensures old(allUsers) <= allUsers && fresh(allUsers - old(allUsers))
    {
      ghost var s := Snapshot();
      var target;
      r, target := HandleUserState(p);
      ghost var made := MadeUser(s, p, target, u, r, Snapshot());
      i := Input(UserUpdate(p), c, made, order);
      assert Handle(s, i) == Mirror.HandleUserState(s, p, made);
    }

    method ReceivePermissionQuery(id: Option<uint32>, granted: Option<uint32>, flush: Option<bool>, ghost c: Channel, ghost u: User, ghost order: seq<uint32>) returns (r: Result, ghost i: Input)
      requires Valid() && c !in allChannels && u !in allUsers && Enumerates(order, permissions.Keys)
      modifies `permissions
      ensures i.packet == PermissionQuery(id, granted, flush) && Admissible(old(Snapshot()), i)
      ensures r == ResultOf(Handle(old(Snapshot()), i)) && Snapshot() == Handle(old(Snapshot()), i).state
      ensures r.Ok? || r.Err? ==> Valid()
      ensures old(allChannels) <= allChannels && fresh(allChannels - old(allChannels))
      ensures old(allUsers) <= allUsers && fresh(allUsers - old(allUsers))
    {
      ghost var s := Snapshot();
      ghost var chosen;
      r, chosen := HandlePermissionQuery(id, granted, flush);
      i := QueryInput(s, id, granted, flush, chosen, order, c, u);
    }

    /** The handlers that make no object and take no order. */
    method ReceiveOther(packet: Packet, ghost c: Channel, ghost u: User, ghost order: seq<uint32>) returns (r: Result, ghost i: Input)
      requires Valid() && c !in allChannels && u !in allUsers && Enumerates(order, permissions.Keys)
      requires (packet.ChannelRemove? || packet.UserRemove? || packet.ServerSync?)
      modifies this, allChannels, allUsers
      ensures i.packet == packet && Admissible(old(Snapshot()), i)
      ensures r == ResultOf(Handle(old(Snapshot()), i)) && Snapshot() == Handle(old(Snapshot()), i).state
      ensures r.Ok? || r.Err? ==> Valid()
      ensures old(allChannels) <= allChannels && fresh(allChannels - old(allChannels))
      ensures old(allUsers) <= allUsers && fresh(allUsers - old(allUsers))
    {
      match packet {
        case ChannelRemove(id) =>
          r := HandleChannelRemove(id);
        case UserRemove(session, actor, reason, ban) =>
          r := HandleUserRemove(session, actor, reason, ban);
        case ServerSync(me) =>
          r := HandleServerSync(me);
      }
      i := Input(packet, c, u, order);
    }

    /** One packet, by the handler of its kind. */
    method Receive(packet: Packet, ghost c: Channel, ghost u: User, ghost order: seq<uint32>) returns (r: Result, ghost i: Input)
      requires Valid() && c !in allChannels && u !in allUsers && Enumerates(order, permissions.Keys)
      modifies this, allChannels, allUsers
      ensures i.packet == packet && Admissible(old(Snapshot()), i)
      ensures r == ResultOf(Handle(old(Snapshot()), i)) && Snapshot() == Handle(old(Snapshot()), i).state
      ensures r.Ok? || r.Err? ==> Valid()
      ensures old(allChannels) <= allChannels && fresh(allChannels - old(allChannels))
      ensures old(allUsers) <= allUsers && fresh(allUsers - old(allUsers))
    {
      match packet {
        case ChannelUpdate(p) =>
          r, i := ReceiveChannelState(p, c, u, order);
        case UserUpdate(p) =>
          r, i := ReceiveUserState(p, c, u, order);
        case PermissionQuery(id, granted, flush) =>
          r, i := ReceivePermissionQuery(id, granted, flush, c, u, order);
        case _ =>
          r, i := ReceiveOther(packet, c, u, order);
      }
    }

    method ReceiveNext(packet: Packet) returns (r: Result, ghost i: Input)
      requires Valid()
      modifies this, allChannels, allUsers
      ensures i.packet == packet && Admissible(old(Snapshot()), i)
      ensures r == ResultOf(Handle(old(Snapshot()), i)) && Snapshot() == Handle(old(Snapshot()), i).state
      ensures r.Ok? || r.Err? ==> Valid()
      ensures old(allChannels) <= allChannels && fresh(allChannels - old(allChannels))
      ensures old(allUsers) <= allUsers && fresh(allUsers - old(allUsers))
    {
      ghost var c, u, order := Spares();
      r, i := Receive(packet, c, u, order);
    }

    /**
     * The read loop, on any packets: it handles them in turn, up to the first whose handler does not
     * return. The states it passes through are a run.
     */
    method ReceiveAll(packets: seq<Packet>) returns (n: nat, ghost ss: seq<State>, ghost ins: seq<Input>)
      requires Valid() && Snapshot() == START
      modifies this, allChannels, allUsers
      ensures n <= |packets| && Handled(ss, ins, packets, n)
      ensures n < |packets| ==> !Returns(ss[n], packets[n])
      ensures n == |packets| ==> Snapshot() == ss[n] && Valid()
    {
      n, ss, ins := 0, [START], [];
      while n < |packets|
        invariant n <= |packets| && Handled(ss, ins, packets, n) && Snapshot() == ss[n] && Valid()
        invariant old(allChannels) <= allChannels && fresh(allChannels - old(allChannels))
        invariant old(allUsers) <= allUsers && fresh(allUsers - old(allUsers))
      {
        ghost var s := Snapshot();
        var r;
        ghost var i;
        r, i := ReceiveNext(packets[n]);
        HandlerReturns(s, i);
        if r.Blocked? || r.Panicked? {
          return;
        }
        HandledNext(ss, ins, packets, n, i, Snapshot());
        ss, ins, n := ss + [Snapshot()], ins + [i], n + 1;
      }
    }

    // ---- Paths ----

    /** The names on the way up, starting with the channel's own. */
    method Climb(channel: Channel) returns (pieces: seq<string>)
      requires Tree(Snapshot()) && channel in allChannels && Ends(Snapshot(), channel)
      ensures Depth(Snapshot(), channel, |pieces|)
      ensures forall j :: 0 <= j < |pieces| ==> pieces[j] == NameOf(Snapshot(), Up(Snapshot(), channel, j))
    {
      ghost var s := Snapshot();
      ghost var top: nat :| Up(s, channel, top) == null;
      pieces := [];
      var c: Channel? := channel;
      while c != null
        invariant c == Up(s, channel, |pieces|) && (c == null || c in allChannels) && |pieces| <= top
        invariant forall j :: 0 <= j < |pieces| ==> Up(s, channel, j) != null && pieces[j] == NameOf(s, Up(s, channel, j))
        decreases top - |pieces|
      {
        assert ParentExists(s, c) && NameOf(s, c) == c.name && At(s, c).parent == c.parent;
        UpAdd(s, channel, |pieces|, 1);
        pieces := pieces + [c.name];
        c := c.parent;
      }
    }

    /** The names on the way from the top to the channel: collected upwards, then reversed in place. */
    method ChannelPath(channel: Channel?) returns (pieces: seq<string>)
      requires Valid() && (channel == null || (channel in allChannels && Ends(Snapshot(), channel)))
      ensures channel == null ==> pieces == []
      ensures channel != null ==> Depth(Snapshot(), channel, |pieces|) && pieces == Path(Snapshot(), channel, |pieces|)
    {
      if channel == null {
        return [];
      }
      pieces := Climb(channel);
      pieces := Reverse(pieces);
    }

    /** Some channel at the end of the given path of names, or null. */
    method Find(c: Channel, names: seq<string>) returns (r: Channel?)
      requires Valid() && c in allChannels
      ensures Finds(Snapshot(), c, names, r)
      decreases |names|
    {
      if names == [] {
        return c;
      }
      PointersOfInv(Snapshot());
      ChildrenExist(Snapshot(), c);
      assert c.children == At(Snapshot(), c).children;
      ghost var k;
      var child;
      child, k := ChildNamed(c, names[0]);
      if child == null {
        r := null;
      } else {
        r := Find(child, names[1..]);
        FindsThrough(Snapshot(), c, k, names, r);
      }
    }

    /** Some child with the given name; the map is visited in any order. */
    method ChildNamed(c: Channel, name: string) returns (child: Channel?, ghost k: uint32)
      requires c in allChannels && forall j :: j in c.children ==> c.children[j] in allChannels
      ensures child != null ==> k in c.children && c.children[k] == child && NameOf(Snapshot(), child) == name
      ensures child == null ==> forall j :: j in c.children ==> NameOf(Snapshot(), c.children[j]) != name
    {
      ghost var s := Snapshot();
      var keys := c.children.Keys;
      while keys != {}
        invariant keys <= c.children.Keys
        invariant forall j :: j in c.children && j !in keys ==> NameOf(s, c.children[j]) != name
      {
        var j :| j in keys;
        if c.children[j].name == name {
          return c.children[j], j;
        }
        keys := keys - {j};
      }
      child, k := null, 0;
    }

    method FindFromRoot(names: seq<string>) returns (r: Channel?)
      requires Valid()
      ensures FindsFromRoot(Snapshot(), names, r)
    {
      if 0 !in channels {
        return null;
      }
      assert Hung(Snapshot(), 0);
      r := Find(channels[0], names);
    }
  }

  // ---- Fields of a packet, one by one ----

  /** Description, hash, position and the rest of a ChannelState. */
  method Revise(was: ChannelInfo, p: ChannelState) returns (i: ChannelInfo, e: set<ChannelChange>)
    ensures i == Described(was, p) && e == NoteChanges(was, p)
    ensures CarriedText(p.description, p.descriptionHash, was.description, was.descriptionHash, i.description, i.descriptionHash)
    ensures Carried(p.maxUsers, was.maxUsers, i.maxUsers) && Carried(p.position, was.position, i.position) && Carried(p.temporary, was.temporary, i.temporary)
  {
    i, e := was, {};
    if p.description.Some? {
      if p.description.value != i.description {
        e := e + {Description};
      }
      i := i.(description := p.description.value, descriptionHash := None);
    }
    assert e == Flag(Changes(p.description, was.description), Description);
    if p.temporary.Some? {
      i := i.(temporary := p.temporary.value);
    }
    if p.position.Some? {
      if p.position.value != i.position {
        e := e + {Position};
      }
      i := i.(position := p.position.value);
    }
    assert e == Flag(Changes(p.description, was.description), Description) + Flag(Changes(p.position, was.position), Position);
    if p.descriptionHash.Some? {
      e := e + {Description};
      i := i.(descriptionHash := p.descriptionHash, description := "");
    }
    if p.maxUsers.Some? {
      e := e + {MaxUsers};
      i := i.(maxUsers := p.maxUsers.value);
    }
  }

  /** Name and registration of a UserState. */
  method ReviseIdentity(was: UserInfo, p: UserState, connected: bool) returns (i: UserInfo, e: set<UserChange>)
    ensures i == Identified(was, p, connected) && e == IdentityChanges(was, p, connected)
    ensures CarriedIdentity(p, was, i, !connected)
  {
    var name, userID := was.name, was.userID;
    e := {};
    if p.name.Some? {
      if p.name.value != name {
        e := {UserName};
      }
      name := p.name.value;
    }
    assert e == Flag(Changes(p.name, was.name), UserName);
    if p.userId.Some? {
      if p.userId.value != userID && !connected {
        if p.userId.value != MAX_UINT32 {
          e := e + {Mirror.Registered};
          userID := p.userId.value;
        } else {
          e := e + {Unregistered};
          userID := 0;
        }
      } else {
        userID := p.userId.value;
      }
    }
    i := was.(name := name, userID := userID);
  }

  method ReviseFlag(x: Option<bool>, was: bool) returns (now: bool, changed: bool)
    ensures now == Or(x, was) && changed == Changes(x, was)
  {
    now, changed := was, false;
    if x.Some? {
      if x.value != now {
        changed := true;
      }
      now := x.value;
    }
  }

  /** The five mute and deaf flags of a UserState. */
  method ReviseAudio(was: AudioFlags, p: UserState) returns (a: AudioFlags, changed: bool)
    ensures a == Heard(was, p) && (changed <==> a != was) && changed == AudioChanges(was, p)
    ensures CarriedAudio(p, was, a)
  {
    var muted, c1 := ReviseFlag(p.mute, was.muted);
    var deafened, c2 := ReviseFlag(p.deaf, was.deafened);
    var suppressed, c3 := ReviseFlag(p.suppress, was.suppressed);
    var selfMuted, c4 := ReviseFlag(p.selfMute, was.selfMuted);
    var selfDeafened, c5 := ReviseFlag(p.selfDeaf, was.selfDeafened);
    a, changed := AudioFlags(muted, deafened, suppressed, selfMuted, selfDeafened), c1 || c2 || c3 || c4 || c5;
  }

  /** Texture and comment, as contents or as hashes, and the certificate hash. */
  method ReviseBlobs(was: Blobs, p: UserState) returns (b: Blobs, newTexture: bool, newComment: bool)
    ensures b == Filed(was, p) && newTexture == TextureChanges(p) && newComment == CommentChanges(was, p)
    ensures CarriedBlobs(p, was, b)
  {
    b, newTexture, newComment := was, false, false;
    if p.texture.Some? {
      newTexture := true;
      b := b.(texture := p.texture, textureHash := None);
    }
    if p.comment.Some? {
      if p.comment.value != b.comment {
        newComment := true;
      }
      b := b.(comment := p.comment.value, commentHash := None);
    }
    if p.hash.Some? {
      b := b.(hash := p.hash.value);
    }
    if p.commentHash.Some? {
      newComment := true;
      b := b.(commentHash := p.commentHash, comment := "");
    }
    if p.textureHash.Some? {
      newTexture := true;
      b := b.(textureHash := p.textureHash, texture := None);
    }
  }

  /** All that follows the channel in a UserState. */
  method ReviseDetails(was: UserInfo, p: UserState) returns (i: UserInfo, e: set<UserChange>)
    ensures i == Detailed(was, p) && e == DetailChanges(was, p)
  {
    var audio, audioChanged := ReviseAudio(was.audio, p);
    var blobs, newTexture, newComment := ReviseBlobs(was.blobs, p);
    var prioritySpeaker, priorityChanged := ReviseFlag(p.prioritySpeaker, was.prioritySpeaker);
    var recording, recordingChanged := ReviseFlag(p.recording, was.recording);
    i := UserInfo(was.name, was.userID, audio, blobs, prioritySpeaker, recording);
    e := Flag(audioChanged, Audio) + Flag(newTexture, Texture) + Flag(newComment, Comment)
         + Flag(priorityChanged, PrioritySpeaker) + Flag(recordingChanged, Recording);
  }

  lemma AllChanges(channels: map<uint32, Channel>, r: UserRec, p: UserState, connected: bool,
                   identity: set<UserChange>, moved: set<UserChange>, details: set<UserChange>)
    requires identity == IdentityChanges(r.info, p, connected) && moved == HouseChange(channels, r.channel, p)
    requires details == DetailChanges(Identified(r.info, p, connected), p)
    ensures identity + moved + details == UpdateChanges(channels, r, p, connected)
  {
  }

  lemma UserStateEnds(s: State, p: UserState, made: User)
    requires Inv(s) && LinksExist(s) && p.session.Some?
    requires p.session.value in s.users || made !in s.user
    ensures var o := Mirror.HandleUserState(s, p, made); !o.Stuck? ==> Inv(o.state) && LinksExist(o.state)
  {
    if !Mirror.HandleUserState(s, p, made).Stuck? {
      UserStateKeepsInv(s, p, made);
      UserStateOnlyUsers(s, p, made);
      FieldsLinksExist(s, Mirror.HandleUserState(s, p, made).state);
    }
  }

  method Reverse(xs: seq<string>) returns (r: seq<string>)
    ensures |r| == |xs| && forall i :: 0 <= i < |xs| ==> r[i] == xs[|xs| - 1 - i]
  {
    r := xs;
    var n, i := |xs|, 0;
    while i < n / 2
      invariant 0 <= i <= n / 2 && |r| == n
      invariant forall k :: 0 <= k < i ==> r[k] == xs[n - 1 - k] && r[n - 1 - k] == xs[k]
      invariant forall k :: i <= k < n - i ==> r[k] == xs[k]
    {
      r := r[n - 1 - i := r[i]][i := r[n - 1 - i]];
      i := i + 1;
    }
  }

  lemma SameLinksExist(s: State, t: State)
    requires LinksExist(s) && t.chan == s.chan
    ensures LinksExist(t)
  {
    FieldsLinksExist(s, t);
  }

  lemma PermissionQueryKeepsLinks(s: State, id: Option<uint32>, granted: Option<uint32>, flush: bool, order: seq<uint32>)
    requires LinksExist(s)
    ensures LinksExist(Mirror.HandlePermissionQuery(s, id, granted, flush, order).state)
  {
    PermissionQueryFrame(s, id, granted, flush, order);
    SameLinksExist(s, Mirror.HandlePermissionQuery(s, id, granted, flush, order).state);
  }

  lemma {:induction false} SomeOrder(keys: set<uint32>) returns (order: seq<uint32>)
    ensures Enumerates(order, keys)
  {
    if keys == {} {
      order := [];
    } else {
      var k :| k in keys;
      var rest := SomeOrder(keys - {k});
      order := rest + [k];
    }
  }

  /** The channel that the handler made, or one that makes no difference to it. */
  lemma MadeChannel(s: State, p: ChannelState, target: Channel?, spare: Channel, r: Result, t: State) returns (c: Channel)
    requires spare !in s.chan && (p.channelId.None? ==> r == Err && t == s)
    requires p.channelId.Some? ==> target != null && (p.channelId.value in s.channels || target !in s.chan)
    requires target != null ==> r == ResultOf(Mirror.HandleChannelState(s, p, target)) && t == Mirror.HandleChannelState(s, p, target).state
    ensures c !in s.chan && r == ResultOf(Mirror.HandleChannelState(s, p, c)) && t == Mirror.HandleChannelState(s, p, c).state
  {
    c := if p.channelId.Some? && p.channelId.value !in s.channels then target else spare;
  }

  lemma MadeUser(s: State, p: UserState, target: User?, spare: User, r: Result, t: State) returns (u: User)
    requires spare !in s.user && (p.session.None? ==> r == Err && t == s)
    requires p.session.Some? ==> target != null && (p.session.value in s.users || target !in s.user)
    requires target != null ==> r == ResultOf(Mirror.HandleUserState(s, p, target)) && t == Mirror.HandleUserState(s, p, target).state
    ensures u !in s.user && r == ResultOf(Mirror.HandleUserState(s, p, u)) && t == Mirror.HandleUserState(s, p, u).state
  {
    u := if p.session.Some? && p.session.value !in s.users then target else spare;
  }

  /** The query as an input, with the order it took or, if it took none, another. */
  lemma QueryInput(s: State, id: Option<uint32>, granted: Option<uint32>, flush: Option<bool>, chosen: seq<uint32>, order: seq<uint32>, c: Channel, u: User)
    returns (i: Input)
    requires c !in s.chan && u !in s.user && Enumerates(order, s.permissions.Keys)
    requires Or(flush, false) && !Mirror.HandlePermissionQuery(s, id, granted, true, chosen).Failed? ==> Enumerates(chosen, s.permissions.Keys)
    ensures i.packet == PermissionQuery(id, granted, flush) && Admissible(s, i)
    ensures Handle(s, i) == Mirror.HandlePermissionQuery(s, id, granted, Or(flush, false), chosen)
  {
    var taken := chosen;
    if !Or(flush, false) || Mirror.HandlePermissionQuery(s, id, granted, true, chosen).Failed? {
      OrderNotUsed(s, id, granted, Or(flush, false), chosen, order);
      taken := order;
    }
    i := Input(PermissionQuery(id, granted, flush), c, u, taken);
  }

  lemma OrderNotUsed(s: State, id: Option<uint32>, granted: Option<uint32>, flush: bool, order: seq<uint32>, other: seq<uint32>)
    requires !flush || Mirror.HandlePermissionQuery(s, id, granted, flush, order).Failed?
    ensures Mirror.HandlePermissionQuery(s, id, granted, flush, order) == Mirror.HandlePermissionQuery(s, id, granted, flush, other)
  {
  }

  /** The first `n` packets were handled, each returned, and the states between are a run. */
  ghost predicate Handled(ss: seq<State>, ins: seq<Input>, packets: seq<Packet>, n: nat) {
    && n == |ins| <= |packets| && Run(ss, ins)
    && forall i :: 0 <= i < n ==> ins[i].packet == packets[i] && Returns(ss[i], packets[i])
  }

  lemma HandledNext(ss: seq<State>, ins: seq<Input>, packets: seq<Packet>, n: nat, i: Input, t: State)
    requires Handled(ss, ins, packets, n) && n < |packets| && i.packet == packets[n] && Returns(ss[n], packets[n]) && StepsTo(ss[n], i, t)
    ensures Handled(ss + [t], ins + [i], packets, n + 1)
  {
    RunExtends(ss, ins, i, t);
  }

  lemma RunExtends(ss: seq<State>, ins: seq<Input>, i: Input, t: State)
    requires Run(ss, ins) && StepsTo(ss[|ins|], i, t)
    ensures Run(ss + [t], ins + [i])
  {
    var longer := ss + [t];
    forall j | 0 <= j < |ins + [i]|
      ensures StepsTo(longer[j], (ins + [i])[j], longer[j + 1])
    {
      assert j < |ins| ==> StepsTo(ss[j], ins[j], ss[j + 1]);
    }
  }

  // ---- Loops over link maps ----

  lemma ChildrenExist(s: State, c: Channel)
    requires Inv(s) && c in s.chan
    ensures forall k :: k in At(s, c).children ==> At(s, c).children[k] in s.chan
  {
    forall k | k in At(s, c).children ensures At(s, c).children[k] in s.chan {
      assert Child(s, c, k) && Hung(s, k);
    }
  }

  lemma FindsThrough(s: State, c: Channel, k: uint32, names: seq<string>, r: Channel?)
    requires names != [] && k in At(s, c).children && NameOf(s, At(s, c).children[k]) == names[0] && Finds(s, At(s, c).children[k], names[1..], r)
    ensures Finds(s, c, names, r)
  {
  }

  /** The steps of the handler make up the specification. */
  lemma ChannelUpdated(s: State, s1: State, t: State, p: ChannelState, id: uint32, c: Channel, created: bool, e: set<ChannelChange>)
    requires p.channelId == Some(id) && s1 == Ensured(s, id, c) && c == Target(s, id, c) && created == (id !in s.channels)
    requires t == Noted(Relinked(Named(Placed(s1, c, p), c, p), c, p), c, p) && e == RecordChanges(s1.channels, At(s1, c), p)
    ensures Mirror.HandleChannelState(s, p, c) == Told(s, t, ChannelEvent(Flag(created, Created) + e, c))
  {
  }

  lemma ChannelStateEnds(s: State, p: ChannelState, made: Channel)
    requires Inv(s) && LinksExist(s) && p.channelId.Some? && (made !in s.chan || p.channelId.value in s.channels)
    ensures var t := Mirror.HandleChannelState(s, p, made).state; Inv(t) && LinksExist(t)
  {
    UpdateChannelKeepsInv(s, p.channelId.value, p, made);
    UpdateLinksExist(s, p.channelId.value, p, made);
  }

  lemma ChannelRemoveKeepsLinks(s: State, id: Option<uint32>)
    requires Inv(s) && LinksExist(s)
    ensures LinksExist(Mirror.HandleChannelRemove(s, id).state)
  {
    if id.Some? && id.value in s.channels {
      assert Hung(s, id.value);
      RemoveLinksExist(s, s.channels[id.value]);
    }
  }

  lemma UserRemoveKeepsLinks(s: State, session: Option<uint32>, actor: Option<uint32>, reason: Option<string>, ban: Option<bool>)
    requires Inv(s) && LinksExist(s)
    ensures LinksExist(Mirror.HandleUserRemove(s, session, actor, reason, ban).state)
  {
    UserRemoveOnlyUsers(s, session, actor, reason, ban);
    FieldsLinksExist(s, Mirror.HandleUserRemove(s, session, actor, reason, ban).state);
  }

  lemma LinkAllAppend(s: State, c: Channel, ids: seq<uint32>, i: nat)
    requires i < |ids|
    ensures LinkAll(s, c, ids[..i + 1]) == Link(LinkAll(s, c, ids[..i]), c, ids[i])
    ensures UnlinkAll(s, c, ids[..i + 1]) == Unlink(UnlinkAll(s, c, ids[..i]), c, ids[i])
  {
    assert ids[..i + 1][..i] == ids[..i];
  }

  lemma AllRevisions(channels: map<uint32, Channel>, r: ChannelRec, p: ChannelState,
                     moved: set<ChannelChange>, named: set<ChannelChange>, linked: set<ChannelChange>, noted: set<ChannelChange>)
    requires moved == MoveChange(channels, r.parent, p) && named == NameChange(r.name, p)
    requires linked == LinkChange(channels, p) && noted == NoteChanges(r.info, p)
    ensures moved + named + linked + noted == RecordChanges(channels, r, p)
  {
  }

  lemma ResolvedAppend(channels: map<uint32, Channel>, ids: seq<uint32>, i: nat)
    requires i < |ids|
    ensures var m := Resolved(channels, ids[..i]);
      Resolved(channels, ids[..i + 1]) == if ids[i] in channels then m[ids[i] := channels[ids[i]]] else m
  {
    assert ids[..i + 1] == ids[..i] + [ids[i]];
  }

  lemma NamesAppend(channels: map<uint32, Channel>, ids: seq<uint32>, i: nat)
    requires i < |ids|
    ensures Names(channels, ids[..i + 1]) <==> Names(channels, ids[..i]) || ids[i] in channels
  {
    if Names(channels, ids[..i]) {
      var j :| 0 <= j < i && ids[..i][j] in channels;
      assert ids[..i + 1][j] in channels;
    }
    assert ids[..i + 1][i] == ids[i];
  }

  /** The part of a map whose keys are no longer pending. */
  function Visited(m: map<uint32, Channel>, pending: set<uint32>): (r: map<uint32, Channel>) {
    map k | k in m && k !in pending :: m[k]
  }

  lemma ForgetStep(chan: map<Channel, ChannelRec>, links: map<uint32, Channel>, keys: set<uint32>, k: uint32, id: uint32)
    requires k in keys && keys <= links.Keys && links[k] in chan
    ensures var was, d := ForgetLinks(chan, Visited(links, keys), id), links[k];
      ForgetLinks(chan, Visited(links, keys - {k}), id) == was[d := was[d].(links := was[d].links - {id})]
  {
    var before, after := Visited(links, keys), Visited(links, keys - {k});
    assert after.Values == before.Values + {links[k]} by {
      assert after == before[k := links[k]];
      forall d | d in after.Values ensures d in before.Values + {links[k]} {
        var j :| j in after && after[j] == d;
        assert j != k ==> before[j] == d;
      }
      forall d | d in before.Values ensures d in after.Values {
        var j :| j in before && before[j] == d;
        assert after[j] == d;
      }
      assert after[k] == links[k];
    }
    forall c | c in chan ensures chan[c].links - {id} - {id} == chan[c].links - {id} {
    }
  }
}
