/**
 * What each packet does to the mirror, said of the packet and the records before and after alone, and
 * what a whole run of packets leaves in every field.
 */
module MirrorPackets {
  import opened Bytes
  import opened Mirror
  import opened MirrorInv
  import opened MirrorLinks
  import opened MirrorEvents

  // ---- What a packet leaves alone ----

  predicate SameClient(s: State, t: State) {
    t.self == s.self && t.synced == s.synced && t.disconnect == s.disconnect
  }

  predicate SamePeople(s: State, t: State) {
    t.user == s.user && t.users == s.users && SameClient(s, t)
  }

  /** Before synchronisation the listeners hear nothing. */
  predicate OneEvent(s: State, events: seq<Event>) {
    |events| == if s.synced then 1 else 0
  }

  // ---- ChannelRemove ----

  ghost predicate ChannelRemoveEffect(s: State, id: Option<uint32>, o: Outcome) {
    if id.None? || id.value !in s.channels then o == Failed(s)
    else o.Done? && ChannelGone(s, o.state, id.value) && OneEvent(s, o.events)
         && (s.synced ==> o.events[0] == ChannelEvent({Removed}, s.channels[id.value]))
  }

  /** The id is unknown and its permissions forgotten; no channel that it linked to links to it. */
  ghost predicate ChannelGone(s: State, t: State, id: uint32)
    requires id in s.channels
  {
    && t.channels == s.channels - {id} && t.permissions == s.permissions - {id} && t.chan.Keys == s.chan.Keys
    && SamePeople(s, t)
    && forall d :: d in s.chan ==> Unhooked(At(s, s.channels[id]), At(s, d), At(t, d), d, id)
  }

  predicate Unhooked(gone: ChannelRec, was: ChannelRec, now: ChannelRec, d: Channel, id: uint32) {
    && now.id == was.id && now.name == was.name && now.info == was.info && now.parent == was.parent
    && now.links == if d in gone.links.Values then was.links - {id} else was.links
  }

  lemma ChannelRemoved(s: State, id: Option<uint32>)
    requires Inv(s)
    ensures ChannelRemoveEffect(s, id, HandleChannelRemove(s, id))
  {
    if id.Some? && id.value in s.channels {
      var c := s.channels[id.value];
      var t := RemoveChannel(s, c);
      assert Hung(s, id.value);
      RemoveChannelRemoves(s, c);
      forall d | d in s.chan ensures Unhooked(At(s, c), At(s, d), At(t, d), d, id.value) {
        RemoveChannelAt(s, c, d);
      }
    }
  }

  // ---- ChannelState ----

  ghost predicate ChannelStateEffect(s: State, p: ChannelState, made: Channel, o: Outcome) {
    match p.channelId
    case None => o == Failed(s)
    case Some(id) =>
      && o.Done? && ChannelSet(s, o.state, id, p, made) && OneEvent(s, o.events)
      && (s.synced ==> ChannelSaid(s, o.state, id, p, o.events[0]))
  }

  /** The packet's channel, made if there was none, has the packet's fields, parent and links. */
  ghost predicate ChannelSet(s: State, t: State, id: uint32, p: ChannelState, made: Channel) {
    var c := if id in s.channels then s.channels[id] else made;
    && t.channels == s.channels[id := c] && t.chan.Keys == s.chan.Keys + {c}
    && t.permissions == s.permissions && SamePeople(s, t)
    && OwnSet(t, Previous(s, id), At(t, c), p)
    && (forall d :: d in s.chan && d != c ==> OtherSet(At(s, d), At(t, d), Live(s, d), c, id, p))
  }

  predicate OwnSet(t: State, was: ChannelRec, now: ChannelRec, p: ChannelState) {
    && now.id == was.id && ChannelFields(p, was, now)
    && now.parent == (if p.parent.Some? then Lookup(t.channels, p.parent.value) else was.parent)
    && forall k :: OwnLink(t.channels, was.links, now.links, p, k)
  }

  /** A full list replaces the links, additions add and removals remove; unknown ids do nothing. */
  predicate OwnLink(channels: map<uint32, Channel>, was: map<uint32, Channel>, now: map<uint32, Channel>, p: ChannelState, k: uint32) {
    var sent := k in channels && (k in p.links || k in p.linksAdd);
    && (k in now <==> (sent || (p.links == [] && k in was)) && !(k in channels && k in p.linksRemove))
    && (k in now ==> now[k] == if sent then channels[k] else was[k])
  }

  predicate OtherSet(was: ChannelRec, now: ChannelRec, live: bool, c: Channel, id: uint32, p: ChannelState) {
    && now.id == was.id && now.name == was.name && now.info == was.info && now.parent == was.parent
    && now.links == if live then OtherEnd(was, c, id, p) else was.links
  }

  /** The other end of a link: only additions and removals reach it. */
  function OtherEnd(was: ChannelRec, c: Channel, id: uint32, p: ChannelState): (m: map<uint32, Channel>) {
    if was.id in p.linksRemove then was.links - {id}
    else if was.id in p.linksAdd then was.links[id := c]
    else was.links
  }

  predicate ChannelSaid(s: State, t: State, id: uint32, p: ChannelState, e: Event)
    requires id in t.channels
  {
    && e.ChannelEvent? && e.channel == t.channels[id]
    && BitsSay(e.ctype, s, id, t.channels, p, Previous(s, id), At(t, t.channels[id]))
  }

  /** Channels that are no longer registered keep their links. */
  ghost predicate DeadLinksStay(s: State, t: State) {
    && t.channels == s.channels && t.chan.Keys == s.chan.Keys
    && forall d :: d in s.chan && d !in s.channels.Values ==> At(t, d).links == At(s, d).links
  }

  lemma PutDeadLinks(s0: State, s: State, c: Channel, r: ChannelRec)
    requires DeadLinksStay(s0, s) && c in s.chan && (c in s.channels.Values || r.links == At(s, c).links)
    ensures DeadLinksStay(s0, Put(s, c, r))
  {
    PutAt(s, c, r);
  }

  lemma LinkDeadLinks(s0: State, s: State, c: Channel, k: uint32)
    requires DeadLinksStay(s0, s) && c in s.chan && c in s.channels.Values && ChannelsExist(s0)
    ensures DeadLinksStay(s0, Link(s, c, k)) && DeadLinksStay(s0, Unlink(s, c, k))
  {
    if k in s.channels {
      var d := s.channels[k];
      assert d in s.channels.Values;
      var r, q := At(s, c).(links := At(s, c).links[k := d]), At(s, c).(links := At(s, c).links - {k});
      PutDeadLinks(s0, s, c, r);
      PutDeadLinks(s0, s, c, q);
      var s1, s2 := Put(s, c, r), Put(s, c, q);
      PutDeadLinks(s0, s1, d, At(s1, d).(links := At(s1, d).links[At(s1, c).id := c]));
      PutDeadLinks(s0, s2, d, At(s2, d).(links := At(s2, d).links - {At(s2, c).id}));
    }
  }

  lemma {:induction false} LinkAllDeadLinks(s0: State, s: State, c: Channel, ids: seq<uint32>)
    requires DeadLinksStay(s0, s) && c in s.chan && c in s.channels.Values && ChannelsExist(s0)
    ensures DeadLinksStay(s0, LinkAll(s, c, ids)) && DeadLinksStay(s0, UnlinkAll(s, c, ids))
  {
    if ids != [] {
      var n := |ids| - 1;
      LinkAllDeadLinks(s0, s, c, ids[..n]);
      LinkDeadLinks(s0, LinkAll(s, c, ids[..n]), c, ids[n]);
      LinkDeadLinks(s0, UnlinkAll(s, c, ids[..n]), c, ids[n]);
    }
  }

  lemma RelinkedDeadLinks(s0: State, s: State, c: Channel, p: ChannelState)
    requires DeadLinksStay(s0, s) && c in s.chan && c in s.channels.Values && ChannelsExist(s0)
    ensures DeadLinksStay(s0, Relinked(s, c, p))
  {
    PutDeadLinks(s0, s, c, At(s, c).(links := Resolved(s.channels, p.links)));
    var s1 := if p.links == [] then s else ReplaceLinks(s, c, p.links);
    LinkAllDeadLinks(s0, s1, c, p.linksAdd);
    LinkAllDeadLinks(s0, LinkAll(s1, c, p.linksAdd), c, p.linksRemove);
  }

  lemma PlacedDeadLinks(s: State, c: Channel, p: ChannelState)
    requires Inv(s) && c in s.chan && Live(s, c)
    ensures DeadLinksStay(s, Placed(s, c, p))
  {
    PlacedMoves(s, c, p);
    if p.parent.Some? {
      var q := ChannelOf(s, p.parent.value);
      assert ParentExists(s, c) && (q != null ==> Hung(s, p.parent.value));
      forall d | d in s.chan ensures At(Placed(s, c, p), d).links == At(s, d).links {
        ReparentAt(s, c, q, d);
      }
    }
  }

  lemma UpdatedDeadLinks(s: State, id: uint32, p: ChannelState, made: Channel)
    requires Inv(s) && id in s.channels
    ensures DeadLinksStay(s, UpdateChannel(s, id, p, made))
  {
    var c := s.channels[id];
    assert Hung(s, id) && c in s.channels.Values;
    PlacedDeadLinks(s, c, p);
    TreeChannelsExist(s);
    var s1 := Placed(s, c, p);
    PutDeadLinks(s, s1, c, At(s1, c).(name := Or(p.name, At(s1, c).name)));
    RelinkedDeadLinks(s, Named(s1, c, p), c, p);
    var s2 := Relinked(Named(s1, c, p), c, p);
    PutDeadLinks(s, s2, c, At(s2, c).(info := Described(At(s2, c).info, p)));
  }

  lemma OwnLinksSet(channels: map<uint32, Channel>, was: map<uint32, Channel>, now: map<uint32, Channel>, p: ChannelState, k: uint32)
    requires now == ((if p.links == [] then was else Resolved(channels, p.links)) + Resolved(channels, p.linksAdd))
                    - Resolved(channels, p.linksRemove).Keys
    ensures OwnLink(channels, was, now, p, k)
  {
  }

  lemma OwnChannelSet(s: State, s1: State, t: State, id: uint32, p: ChannelState, made: Channel)
    requires Inv(s) && (made !in s.chan || id in s.channels) && s1 == Ensured(s, id, made) && t == UpdateChannel(s, id, p, made)
    ensures id in t.channels && OwnSet(t, Previous(s, id), At(t, t.channels[id]), p)
  {
    EnsuredKeepsInv(s, id, made);
    UpdateChannelKeepsInv(s, id, p, made);
    var c := t.channels[id];
    assert Hung(t, id) && Hung(s1, id);
    UpdatedChannel(s, t, id, p, made, c);
    UpdateRelinks(s1, id, p);
    assert LinksOf(t, id) == OwnLinks(s1, id, p);
    forall k ensures OwnLink(t.channels, Previous(s, id).links, At(t, c).links, p, k) {
      OwnLinksSet(t.channels, Previous(s, id).links, At(t, c).links, p, k);
    }
  }

  lemma DeadIsUnregistered(s: State, d: Channel)
    requires Tree(s) && d in s.chan && !Live(s, d)
    ensures d !in s.channels.Values
  {
    forall k | k in s.channels ensures s.channels[k] != d {
      assert Hung(s, k);
    }
  }

  lemma OtherEndIs(s: State, id: uint32, p: ChannelState, j: uint32)
    requires id in s.channels && j in s.channels && At(s, s.channels[j]).id == j
    ensures OtherLinks(s, id, p, j) == OtherEnd(At(s, s.channels[j]), s.channels[id], id, p)
  {
  }

  lemma RelinksOther(s: State, t: State, id: uint32, p: ChannelState, j: uint32)
    requires Relinks(s, t, id, p) && j in s.channels && j != id
    ensures At(t, s.channels[j]).links == OtherLinks(s, id, p, j)
  {
    assert LinksOf(t, j) == OtherLinks(s, id, p, j);
  }

  lemma OtherLiveLinks(s: State, t: State, id: uint32, p: ChannelState, made: Channel, d: Channel)
    requires Inv(s) && id in s.channels && t == UpdateChannel(s, id, p, made) && d in s.chan && Live(s, d) && d != s.channels[id]
    ensures At(t, d).links == OtherEnd(At(s, d), s.channels[id], id, p)
  {
    UpdateRelinks(s, id, p);
    RelinksOther(s, t, id, p, At(s, d).id);
    OtherEndIs(s, id, p, At(s, d).id);
  }

  lemma OtherDeadLinks(s: State, t: State, id: uint32, p: ChannelState, made: Channel, d: Channel)
    requires Inv(s) && id in s.channels && t == UpdateChannel(s, id, p, made) && d in s.chan && !Live(s, d)
    ensures At(t, d).links == At(s, d).links
  {
    UpdatedDeadLinks(s, id, p, made);
    DeadIsUnregistered(s, d);
  }

  lemma OtherId(s: State, t: State, id: uint32, p: ChannelState, made: Channel, d: Channel)
    requires Inv(s) && id in s.channels && t == UpdateChannel(s, id, p, made) && d in s.chan
    ensures At(t, d).id == At(s, d).id
  {
    var c := s.channels[id];
    assert Hung(s, id);
    PlacedMoves(s, c, p);
    UpdateChannelStructure(s, id, p, made);
    assert SameNode(At(Placed(s, c, p), d), At(t, d));
  }

  lemma KnownOtherSet(s: State, t: State, id: uint32, p: ChannelState, made: Channel, d: Channel)
    requires Inv(s) && id in s.channels && t == UpdateChannel(s, id, p, made) && d in s.chan && d != s.channels[id]
    ensures OtherSet(At(s, d), At(t, d), Live(s, d), s.channels[id], id, p)
  {
    OtherId(s, t, id, p, made, d);
    UpdatedChannel(s, t, id, p, made, d);
    if Live(s, d) {
      OtherLiveLinks(s, t, id, p, made, d);
    } else {
      OtherDeadLinks(s, t, id, p, made, d);
    }
  }

  lemma OtherChannelSet(s: State, s1: State, t: State, id: uint32, p: ChannelState, made: Channel, d: Channel)
    requires Inv(s) && (made !in s.chan || id in s.channels) && s1 == Ensured(s, id, made) && t == UpdateChannel(s, id, p, made)
    requires d in s.chan && d != Target(s, id, made)
    ensures OtherSet(At(s, d), At(t, d), Live(s, d), Target(s, id, made), id, p)
  {
    EnsuredKeepsInv(s, id, made);
    assert t == UpdateChannel(s1, id, p, made) && At(s1, d) == At(s, d) && (Live(s1, d) <==> Live(s, d));
    KnownOtherSet(s1, t, id, p, made, d);
  }

  lemma ChannelUpdated(s: State, p: ChannelState, made: Channel)
    requires Inv(s) && made !in s.chan
    ensures ChannelStateEffect(s, p, made, HandleChannelState(s, p, made))
  {
    if p.channelId.Some? {
      var id := p.channelId.value;
      var s1, t := Ensured(s, id, made), UpdateChannel(s, id, p, made);
      ChannelIsSet(s, s1, t, id, p, made);
      ChannelBits(s, t, id, p, made, ChannelChanges(s, id, p, made));
    }
  }

  lemma EnsuredFrame(s: State, id: uint32, made: Channel)
    requires Inv(s)
    ensures var s1, c := Ensured(s, id, made), Target(s, id, made);
      && s1.channels == s.channels[id := c] && s1.chan.Keys == s.chan.Keys + {c}
      && s1.permissions == s.permissions && SamePeople(s, s1)
  {
    if id in s.channels {
      var c := s.channels[id];
      assert Hung(s, id) && s.chan.Keys == s.chan.Keys + {c} && s.channels == s.channels[id := c];
    }
  }

  lemma KnownChannelFrame(s: State, t: State, id: uint32, p: ChannelState, made: Channel)
    requires Inv(s) && id in s.channels && t == UpdateChannel(s, id, p, made)
    ensures t.channels == s.channels && t.chan.Keys == s.chan.Keys && t.permissions == s.permissions && SamePeople(s, t)
  {
    assert Hung(s, id);
    PlacedMoves(s, s.channels[id], p);
    UpdateChannelStructure(s, id, p, made);
  }

  lemma ChannelIsSet(s: State, s1: State, t: State, id: uint32, p: ChannelState, made: Channel)
    requires Inv(s) && made !in s.chan && s1 == Ensured(s, id, made) && t == UpdateChannel(s, id, p, made)
    ensures ChannelSet(s, t, id, p, made)
  {
    var c := Target(s, id, made);
    EnsuredKeepsInv(s, id, made);
    EnsuredFrame(s, id, made);
    KnownChannelFrame(s1, t, id, p, made);
    OwnChannelSet(s, s1, t, id, p, made);
    forall d | d in s.chan && d != c ensures OtherSet(At(s, d), At(t, d), Live(s, d), c, id, p) {
      OtherChannelSet(s, s1, t, id, p, made, d);
    }
  }

  // ---- UserRemove ----

  predicate RemovalRefused(s: State, session: Option<uint32>, actor: Option<uint32>) {
    session.None? || session.value !in s.users || (actor.Some? && actor.value !in s.users)
  }

  ghost predicate UserRemoveEffect(s: State, session: Option<uint32>, actor: Option<uint32>, reason: Option<string>, ban: Option<bool>, o: Outcome) {
    if RemovalRefused(s, session, actor) then o == Failed(s)
    else o.Done? && UserGone(s, o.state, session.value, ban) && OneEvent(s, o.events)
         && (s.synced ==> RemovalSaid(s, session.value, actor, reason, ban, o.events[0]))
  }

  /** The session is unknown; if it was the client's own, the client will say why it was disconnected. */
  ghost predicate UserGone(s: State, t: State, k: uint32, ban: Option<bool>)
    requires k in s.users
  {
    var u := s.users[k];
    && t.users == s.users - {k} && t.user.Keys == s.user.Keys && OnlyUsers(s, t)
    && (forall v :: v in s.user ==> SameButClient(Who(s, v), Who(t, v)))
    && t.self == s.self && t.synced == s.synced
    && t.disconnect == (if s.self != u then s.disconnect else if ban == Some(true) then ByBan else ByKick)
  }

  predicate SameButClient(was: UserRec, now: UserRec) {
    now.session == was.session && now.channel == was.channel && now.info == was.info
  }

  predicate RemovalBit(x: UserChange, actor: Option<uint32>, ban: Option<bool>) {
    match x
    case Disconnected => true
    case Kicked => actor.Some?
    case Banned => ban == Some(true)
    case _ => false
  }

  predicate RemovalSaid(s: State, k: uint32, actor: Option<uint32>, reason: Option<string>, ban: Option<bool>, e: Event)
    requires k in s.users
  {
    && e.UserEvent? && e.user == s.users[k]
    && (forall x :: x in e.utype <==> RemovalBit(x, actor, ban))
    && e.actor == (if actor.Some? then UserOf(s, actor.value) else null)
    && e.text == (if reason.Some? then reason.value else "")
  }

  lemma RemovalIsSaid(s: State, k: uint32, actor: Option<uint32>, reason: Option<string>, ban: Option<bool>, e: Event)
    requires !RemovalRefused(s, Some(k), actor)
    requires e == UserEvent({Disconnected} + Flag(actor.Some?, Kicked) + Flag(ban == Some(true), Banned), s.users[k],
                            if actor.Some? then s.users[actor.value] else null, Or(reason, ""))
    ensures RemovalSaid(s, k, actor, reason, ban, e)
  {
  }

  lemma UserRemoved(s: State, session: Option<uint32>, actor: Option<uint32>, reason: Option<string>, ban: Option<bool>)
    requires Inv(s)
    ensures UserRemoveEffect(s, session, actor, reason, ban, HandleUserRemove(s, session, actor, reason, ban))
  {
    assert Or(ban, false) == (ban == Some(true));
    if !RemovalRefused(s, session, actor) {
      RemovedUser(s, session.value, actor, reason, ban, HandleUserRemove(s, session, actor, reason, ban));
    }
  }

  lemma RemovedUser(s: State, k: uint32, actor: Option<uint32>, reason: Option<string>, ban: Option<bool>, o: Outcome)
    requires Inv(s) && !RemovalRefused(s, Some(k), actor) && o == HandleUserRemove(s, Some(k), actor, reason, ban)
    ensures o.Done? && UserGone(s, o.state, k, ban) && OneEvent(s, o.events)
    ensures s.synced ==> RemovalSaid(s, k, actor, reason, ban, o.events[0])
  {
    assert Or(ban, false) == (ban == Some(true));
    assert Housed(s, k);
    RemoveUserRelocates(s, s.users[k], ban == Some(true));
    UserIsGone(s, RemoveUser(s, s.users[k], ban == Some(true)), k, ban);
    if s.synced {
      RemovalIsSaid(s, k, actor, reason, ban, o.events[0]);
    }
  }

  lemma UserIsGone(s: State, t: State, k: uint32, ban: Option<bool>)
    requires Inv(s) && k in s.users && t == RemoveUser(s, s.users[k], ban == Some(true)) && OnlyUsers(s, t)
    ensures UserGone(s, t, k, ban)
  {
    assert Housed(s, k);
    assert t.user == s.user[s.users[k] := Who(s, s.users[k]).(client := false)];
  }

  // ---- UserState ----

  /** The root is missing for a new user, or the actor is unknown; a user may be its own actor. */
  predicate UpdateRefused(s: State, k: uint32, p: UserState) {
    (k !in s.users && 0 !in s.channels) || (p.actor.Some? && p.actor.value !in s.users && p.actor.value != k)
  }

  /** What the session's user was: itself, or a new user in the root with nothing set. */
  function Former(s: State, k: uint32): (r: UserRec) {
    if k in s.users then Who(s, s.users[k])
    else UserRec(k, Lookup(s.channels, 0),
                 UserInfo("", 0, AudioFlags(false, false, false, false, false), Blobs("", None, None, None, ""), false, false), true)
  }

  ghost predicate UserStateEffect(s: State, p: UserState, made: User, o: Outcome) {
    match p.session
    case None => o == Failed(s)
    case Some(k) =>
      if UpdateRefused(s, k, p) then o.Failed? && UserPut(s, o.state, k, made) && Who(o.state, o.state.users[k]) == Former(s, k)
      else if p.channelId.Some? && p.channelId.value !in s.channels then o.Stuck?
      else && o.Done? && UserPut(s, o.state, k, made) && UserSet(s, Former(s, k), Who(o.state, o.state.users[k]), k, p)
           && OneEvent(s, o.events) && (s.synced ==> UserSaid(s, o.state, k, p, o.events[0]))
  }

  /** The session's user, made if there was none, is registered; no other is touched. */
  ghost predicate UserPut(s: State, t: State, k: uint32, made: User) {
    var u := if k in s.users then s.users[k] else made;
    && t.users == s.users[k := u] && t.user == s.user[u := Who(t, u)] && OnlyUsers(s, t) && SameClient(s, t)
  }

  /** The record of the packet's user: the packet's fields and channel, and otherwise what it was. */
  predicate UserSet(s: State, was: UserRec, now: UserRec, k: uint32, p: UserState) {
    && now.session == k && now.client == was.client && UserFields(p, was.info, now.info, k in s.users)
    && now.channel == (if p.channelId.Some? then Lookup(s.channels, p.channelId.value) else was.channel)
  }

  predicate UserFields(p: UserState, was: UserInfo, now: UserInfo, known: bool) {
    && CarriedIdentity(p, was, now, known) && CarriedAudio(p, was.audio, now.audio) && CarriedBlobs(p, was.blobs, now.blobs)
    && Carried(p.prioritySpeaker, was.prioritySpeaker, now.prioritySpeaker)
    && Carried(p.recording, was.recording, now.recording)
  }

  /** What a bit says of the record before and after; a new user is always in a channel. */
  predicate UserBit(x: UserChange, s: State, k: uint32, p: UserState, was: UserRec, now: UserRec) {
    match x
    case Connected => k !in s.users
    case Disconnected => false
    case Kicked => false
    case Banned => false
    case Registered => k in s.users && p.userId != Some(0xFFFF_FFFF) && now.info.userID != was.info.userID
    case Unregistered => k in s.users && p.userId == Some(0xFFFF_FFFF) && was.info.userID != 0xFFFF_FFFF
    case UserName => now.info.name != was.info.name
    case InChannel => k !in s.users || now.channel != was.channel
    case Comment => p.commentHash.Some? || now.info.blobs.comment != was.info.blobs.comment
    case Audio => now.info.audio != was.info.audio
    case Texture => p.texture.Some? || p.textureHash.Some?
    case PrioritySpeaker => now.info.prioritySpeaker != was.info.prioritySpeaker
    case Recording => now.info.recording != was.info.recording
  }

  predicate UserBitsSay(e: set<UserChange>, s: State, k: uint32, p: UserState, was: UserRec, now: UserRec) {
    forall x :: x in e <==> UserBit(x, s, k, p, was, now)
  }

  predicate UserSaid(s: State, t: State, k: uint32, p: UserState, e: Event)
    requires k in t.users
  {
    && e.UserEvent? && e.user == t.users[k] && e.text == ""
    && e.actor == (if p.actor.Some? then UserOf(t, p.actor.value) else null)
    && UserBitsSay(e.utype, s, k, p, Former(s, k), Who(t, t.users[k]))
  }

  lemma HeardCarries(p: UserState, was: AudioFlags, now: AudioFlags)
    requires now == Heard(was, p)
    ensures CarriedAudio(p, was, now)
  {
  }

  lemma FiledCarries(p: UserState, was: Blobs, now: Blobs)
    requires now == Filed(was, p)
    ensures CarriedBlobs(p, was, now)
  {
  }

  lemma IdentifiedCarries(p: UserState, was: UserInfo, now: UserInfo, known: bool)
    requires now.name == Identified(was, p, !known).name && now.userID == Identified(was, p, !known).userID
    ensures CarriedIdentity(p, was, now, known)
  {
  }

  lemma DetailedCarries(p: UserState, was: UserInfo, now: UserInfo, known: bool)
    requires now == Detailed(Identified(was, p, !known), p)
    ensures UserFields(p, was, now, known)
  {
    IdentifiedCarries(p, was, now, known);
    HeardCarries(p, was.audio, now.audio);
    FiledCarries(p, was.blobs, now.blobs);
  }

  predicate OfIdentity(x: UserChange) {
    x == UserName || x == Registered || x == Unregistered
  }

  lemma IdentityBitIs(x: UserChange, s: State, k: uint32, p: UserState, was: UserRec, now: UserRec)
    requires UserSet(s, was, now, k, p)
    ensures x in IdentityChanges(was.info, p, k !in s.users) <==> OfIdentity(x) && UserBit(x, s, k, p, was, now)
  {
  }

  predicate OfDetail(x: UserChange) {
    x == Comment || x == Audio || x == Texture || x == PrioritySpeaker || x == Recording
  }

  lemma DetailBitIs(x: UserChange, s: State, k: uint32, p: UserState, was: UserRec, now: UserRec)
    requires UserSet(s, was, now, k, p)
    ensures x in DetailChanges(was.info, p) <==> OfDetail(x) && UserBit(x, s, k, p, was, now)
  {
    DetailBits(was.info, p, DetailChanges(was.info, p));
    AudioSays(p, was.info, now.info, k in s.users);
  }

  lemma AudioSays(p: UserState, was: UserInfo, now: UserInfo, known: bool)
    requires UserFields(p, was, now, known)
    ensures AudioChanges(was.audio, p) <==> now.audio != was.audio
  {
  }

  lemma UserBitIs(x: UserChange, s: State, k: uint32, p: UserState, was: UserRec, now: UserRec, bits: set<UserChange>)
    requires UserSet(s, was, now, k, p)
    requires bits == (if k !in s.users then {Connected, InChannel} else {}) + UpdateChanges(s.channels, was, p, k !in s.users)
    ensures x in bits <==> UserBit(x, s, k, p, was, now)
  {
    IdentityBitIs(x, s, k, p, was, now);
    DetailBitIs(x, s, k, p, was, now);
    assert x in HouseChange(s.channels, was.channel, p) <==> x == InChannel && now.channel != was.channel;
  }

  /** The user and the state the rest of the handler starts from. */
  lemma ArrivedPut(s: State, s1: State, k: uint32, made: User)
    requires Inv(s) && made !in s.user && s1 == Arrived(s, k, made)
    ensures Inv(s1) && UserPut(s, s1, k, made) && Who(s1, s1.users[k]) == Former(s, k) && s1.users[k] in s1.user && Known(s1, s1.users[k])
  {
    ArrivedKeepsInv(s, k, made);
    if k in s.users {
      var u := s.users[k];
      assert Housed(s, k) && s.users == s.users[k := u] && s.user == s.user[u := Who(s, u)];
    } else {
      EnteredPut(s, s1, k, made);
    }
  }

  lemma EnteredPut(s: State, s1: State, k: uint32, made: User)
    requires Inv(s) && made !in s.user && k !in s.users && s1 == EnterRoot(s, k, made) && OnlyUsers(s, s1)
    ensures UserPut(s, s1, k, made) && Who(s1, made) == Former(s, k) && made in s1.user
  {
    assert 0 in s.channels ==> Hung(s, 0);
    EnterRootArrives(s, k, made);
  }

  lemma RehousedSameClient(s: State, u: User, p: UserState)
    ensures SameClient(s, Rehoused(s, u, p))
  {
  }

  lemma UpdateSameClient(s: State, u: User, p: UserState, connected: bool)
    ensures SameClient(s, UpdateUser(s, u, p, connected))
  {
    RehousedSameClient(WithInfo(s, u, Identified(Who(s, u).info, p, connected)), u, p);
  }

  lemma UpdatedPut(s: State, s1: State, t: State, k: uint32, u: User, p: UserState, made: User)
    requires Inv(s1) && UserPut(s, s1, k, made) && u == s1.users[k] && u in s1.user && Known(s1, u)
    requires !Homeless(s.channels, p) && t == UpdateUser(s1, u, p, k !in s.users)
    ensures UserPut(s, t, k, made)
  {
    UpdatedUser(s1, t, u, p, k !in s.users);
    UpdateUserOnlyUsers(s1, u, p, k !in s.users);
    UpdateSameClient(s1, u, p, k !in s.users);
    OnlyUsersTwice(s, s1, t);
    assert t.user == s.user[u := Who(t, u)];
  }

  lemma UpdatedSet(s: State, s1: State, t: State, k: uint32, u: User, p: UserState)
    requires u in s1.user && Who(s1, u) == Former(s, k) && Former(s, k).session == k && s1.channels == s.channels
    requires !Homeless(s.channels, p) && t == UpdateUser(s1, u, p, k !in s.users)
    ensures UserSet(s, Former(s, k), Who(t, u), k, p)
  {
    UpdatedUser(s1, t, u, p, k !in s.users);
    DetailedCarries(p, Former(s, k).info, Who(t, u).info, k in s.users);
    UpdateKeepsFlag(s1, u, p, k !in s.users);
  }

  lemma UpdateKeepsFlag(s: State, u: User, p: UserState, connected: bool)
    requires u in s.user && !Homeless(s.channels, p)
    ensures Who(UpdateUser(s, u, p, connected), u).client == Who(s, u).client
  {
    var s1 := WithInfo(s, u, Identified(Who(s, u).info, p, connected));
    RehousedUser(s1, Rehoused(s1, u, p), u, p);
  }

  lemma BitsOfUser(s: State, k: uint32, p: UserState, was: UserRec, now: UserRec, bits: set<UserChange>)
    requires UserSet(s, was, now, k, p)
    requires bits == (if k !in s.users then {Connected, InChannel} else {}) + UpdateChanges(s.channels, was, p, k !in s.users)
    ensures UserBitsSay(bits, s, k, p, was, now)
  {
    forall x ensures x in bits <==> UserBit(x, s, k, p, was, now) {
      UserBitIs(x, s, k, p, was, now, bits);
    }
  }

  lemma UserUpdated(s: State, p: UserState, made: User)
    requires Inv(s) && made !in s.user
    ensures UserStateEffect(s, p, made, HandleUserState(s, p, made))
  {
    if p.session.Some? {
      var k := p.session.value;
      var s1 := Arrived(s, k, made);
      ArrivedPut(s, s1, k, made);
      RefusedOrNot(s, s1, k, s1.users[k], p, made);
      if !UpdateRefused(s, k, p) && !Homeless(s.channels, p) {
        AcceptedUpdate(s, s1, k, s1.users[k], p, made, HandleUserState(s, p, made));
      }
    }
  }

  lemma RefusedOrNot(s: State, s1: State, k: uint32, u: User, p: UserState, made: User)
    requires UserPut(s, s1, k, made)
    ensures var o := Continued(s1, u, p, k !in s.users);
      if UpdateRefused(s, k, p) then o == Failed(s1) else Homeless(s.channels, p) ==> o.Stuck?
  {
  }

  lemma AcceptedUpdate(s: State, s1: State, k: uint32, u: User, p: UserState, made: User, o: Outcome)
    requires Inv(s1) && UserPut(s, s1, k, made) && u == s1.users[k] && u in s1.user && Known(s1, u)
    requires Who(s1, u) == Former(s, k) && Former(s, k).session == k
    requires !UpdateRefused(s, k, p) && !Homeless(s.channels, p) && o == Continued(s1, u, p, k !in s.users)
    ensures o.Done? && UserPut(s, o.state, k, made) && UserSet(s, Former(s, k), Who(o.state, u), k, p)
    ensures OneEvent(s, o.events) && (s.synced ==> UserSaid(s, o.state, k, p, o.events[0]))
  {
    var t, bits := UpdateUser(s1, u, p, k !in s.users), UserChanges(s1, u, p, k !in s.users);
    UpdatedPut(s, s1, t, k, u, p, made);
    UpdatedSet(s, s1, t, k, u, p);
    BitsOfUser(s, k, p, Former(s, k), Who(t, u), bits);
  }

  // ---- PermissionQuery ----

  /** The ids whose channels are reported: those a flush drops, in the order of its iteration, then the packet's. */
  function ReportedIds(id: Option<uint32>, granted: Option<uint32>, flush: Option<bool>, order: seq<uint32>): (ids: seq<uint32>) {
    (if flush == Some(true) then order else []) + (if id.Some? && granted.Some? then [id.value] else [])
  }

  ghost predicate PermissionQueryEffect(s: State, id: Option<uint32>, granted: Option<uint32>, flush: Option<bool>, order: seq<uint32>, o: Outcome) {
    if id.Some? && granted.Some? && id.value !in s.channels then o == Failed(s)
    else && o.Done? && o.state == s.(permissions := o.state.permissions)
         && (forall k :: Cached(s.permissions, o.state.permissions, id, granted, flush, k))
         && PermissionsSaid(s, ReportedIds(id, granted, flush, order), o.events)
  }

  /** The cache under an id: the packet's value, or what it was unless flushed. */
  predicate Cached(was: map<uint32, uint32>, now: map<uint32, uint32>, id: Option<uint32>, granted: Option<uint32>, flush: Option<bool>, k: uint32) {
    if granted.Some? && id == Some(k) then k in now && now[k] == granted.value
    else (k in now <==> k in was && flush != Some(true)) && (k in now ==> now[k] == was[k])
  }

  /** One event for each id, on the live channel with it, synchronised or not. */
  ghost predicate PermissionsSaid(s: State, ids: seq<uint32>, events: seq<Event>) {
    && |events| == |ids|
    && forall i :: 0 <= i < |ids| ==> ids[i] in s.channels && events[i] == ChannelEvent({PermissionChanged}, s.channels[ids[i]])
  }

  lemma PermissionsQueried(s: State, id: Option<uint32>, granted: Option<uint32>, flush: Option<bool>, order: seq<uint32>)
    requires Inv(s) && Enumerates(order, s.permissions.Keys)
    ensures PermissionQueryEffect(s, id, granted, flush, order, HandlePermissionQuery(s, id, granted, Or(flush, false), order))
  {
    assert Or(flush, false) == (flush == Some(true));
    if !(id.Some? && granted.Some? && id.value !in s.channels) {
      QueryCached(s, id, granted, flush, order);
      QuerySaid(s, id, granted, flush, order);
    }
  }

  lemma CacheIs(was: map<uint32, uint32>, now: map<uint32, uint32>, id: Option<uint32>, granted: Option<uint32>, flush: Option<bool>, k: uint32)
    requires var kept := if flush == Some(true) then map[] else was;
      now == if id.Some? && granted.Some? then kept[id.value := granted.value] else kept
    ensures Cached(was, now, id, granted, flush, k)
  {
  }

  lemma QueryOutcome(s: State, id: Option<uint32>, granted: Option<uint32>, flush: bool, order: seq<uint32>)
    requires Inv(s) && (id.Some? && granted.Some? ==> id.value in s.channels)
    ensures var o, kept := HandlePermissionQuery(s, id, granted, flush, order), if flush then map[] else s.permissions;
      o.Done? && o.state == s.(permissions := if id.Some? && granted.Some? then kept[id.value := granted.value] else kept)
  {
    assert id.Some? && granted.Some? ==> Hung(s, id.value);
  }

  lemma QueryCached(s: State, id: Option<uint32>, granted: Option<uint32>, flush: Option<bool>, order: seq<uint32>)
    requires Inv(s) && (id.Some? && granted.Some? ==> id.value in s.channels)
    ensures var o := HandlePermissionQuery(s, id, granted, flush == Some(true), order);
      o.Done? && o.state == s.(permissions := o.state.permissions) && forall k :: Cached(s.permissions, o.state.permissions, id, granted, flush, k)
  {
    QueryOutcome(s, id, granted, flush == Some(true), order);
    var now := HandlePermissionQuery(s, id, granted, flush == Some(true), order).state.permissions;
    forall k ensures Cached(s.permissions, now, id, granted, flush, k) {
      CacheIs(s.permissions, now, id, granted, flush, k);
    }
  }

  lemma QuerySaid(s: State, id: Option<uint32>, granted: Option<uint32>, flush: Option<bool>, order: seq<uint32>)
    requires Inv(s) && Enumerates(order, s.permissions.Keys) && (id.Some? && granted.Some? ==> id.value in s.channels)
    ensures PermissionsSaid(s, ReportedIds(id, granted, flush, order), HandlePermissionQuery(s, id, granted, flush == Some(true), order).events)
  {
    var ids := ReportedIds(id, granted, flush, order);
    forall i | 0 <= i < |ids|
      ensures ids[i] in s.channels
    {
      assert i < |order| && flush == Some(true) ==> order[i] in s.permissions.Keys;
    }
  }

  // ---- ServerSync ----

  /** A first ServerSync makes the user of the packet's session the client's own, or none if it is unknown. */
  predicate ServerSyncEffect(s: State, me: Option<uint32>, o: Outcome) {
    && o.state == s.(self := o.state.self, synced := true)
    && (me.None? ==> o.state.self == s.self)
    && (me.Some? && me.value in s.users ==> o.state.self == s.users[me.value])
    && (me.Some? && me.value !in s.users ==> o.state.self == null)
    && (if s.synced then o.Crashed? else o.Done? && o.events == [])
  }

  // ---- Every packet ----

  ghost predicate Effect(s: State, i: Input, o: Outcome) {
    match i.packet
    case ChannelRemove(id) => ChannelRemoveEffect(s, id, o)
    case ChannelUpdate(p) => ChannelStateEffect(s, p, i.channel, o)
    case UserRemove(session, actor, reason, ban) => UserRemoveEffect(s, session, actor, reason, ban, o)
    case UserUpdate(p) => UserStateEffect(s, p, i.user, o)
    case PermissionQuery(id, granted, flush) => PermissionQueryEffect(s, id, granted, flush, i.order, o)
    case ServerSync(me) => ServerSyncEffect(s, me, o)
  }

  /** Every handler has the effect of its packet. */
  lemma StepEffect(s: State, i: Input)
    requires Inv(s) && Admissible(s, i)
    ensures Effect(s, i, Handle(s, i))
  {
    match i.packet
    case ChannelRemove(id) => ChannelRemoved(s, id);
    case ChannelUpdate(p) => ChannelUpdated(s, p, i.channel);
    case UserRemove(session, actor, reason, ban) => UserRemoved(s, session, actor, reason, ban);
    case UserUpdate(p) => UserUpdated(s, p, i.user);
    case PermissionQuery(id, granted, flush) => PermissionsQueried(s, id, granted, flush, i.order);
    case ServerSync(me) =>
  }

  /** Before synchronisation only permissions are reported; after it every other packet that changes something is, once. */
  lemma SilentUntilSynced(s: State, i: Input)
    requires Inv(s) && Admissible(s, i) && Handle(s, i).Done? && !i.packet.PermissionQuery? && !i.packet.ServerSync?
    ensures |Handle(s, i).events| == if s.synced then 1 else 0
  {
    StepEffect(s, i);
  }
}
