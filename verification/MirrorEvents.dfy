/** What the change events tell a listener, and the permission cache. */
module MirrorEvents {
  import opened Bytes
  import opened Mirror
  import opened MirrorInv
  import opened MirrorLinks

  /** The fields of a user that the event bits speak about. */
  datatype View = View(name: string, userID: uint32, channel: Channel?, audio: AudioFlags,
                       comment: string, texture: Option<seq<byte>>, textureHash: Option<seq<byte>>,
                       prioritySpeaker: bool, recording: bool)

  function ViewOf(s: State, u: User): (v: View) {
    Seen(Who(s, u))
  }

  function Seen(r: UserRec): (v: View) {
    var i := r.info;
    View(i.name, i.userID, r.channel, i.audio, i.blobs.comment, i.blobs.texture, i.blobs.textureHash, i.prioritySpeaker, i.recording)
  }

  /** Of the fields of `now`, those that the bits name; the rest stay as they were. */
  function Copied(was: View, now: View, bits: set<UserChange>): (v: View) {
    View(if UserName in bits then now.name else was.name,
         if Mirror.Registered in bits || Unregistered in bits then now.userID else was.userID,
         if InChannel in bits then now.channel else was.channel,
         if Audio in bits then now.audio else was.audio,
         if Comment in bits then now.comment else was.comment,
         if Texture in bits then now.texture else was.texture,
         if Texture in bits then now.textureHash else was.textureHash,
         if PrioritySpeaker in bits then now.prioritySpeaker else was.prioritySpeaker,
         if Recording in bits then now.recording else was.recording)
  }

  /** A listener's shadow of the users, by session. */
  type Shadow = map<uint32, View>

  function Observe(shadow: Shadow, t: State, e: Event): (r: Shadow) {
    match e
    case ChannelEvent(_, _) => shadow
    case UserEvent(bits, u, _, _) =>
      var k := Who(t, u).session;
      if Disconnected in bits then shadow - {k}
      else if Connected in bits then shadow[k := ViewOf(t, u)]
      else if k in shadow then shadow[k := Copied(shadow[k], ViewOf(t, u), bits)]
      else shadow
  }

  function ObserveAll(shadow: Shadow, t: State, events: seq<Event>): (r: Shadow) {
    if events == [] then shadow else Observe(ObserveAll(shadow, t, events[..|events| - 1]), t, events[|events| - 1])
  }

  /** The shadow has every connected user, and each as it is. */
  ghost predicate Faithful(s: State, shadow: Shadow) {
    && shadow.Keys == s.users.Keys
    && forall k :: k in s.users ==> shadow[k] == ViewOf(s, s.users[k])
  }

  lemma IdentityBits(i: UserInfo, p: UserState, bits: set<UserChange>)
    requires bits == IdentityChanges(i, p, false)
    ensures UserName in bits <==> Changes(p.name, i.name)
    ensures Mirror.Registered in bits || Unregistered in bits <==> Changes(p.userId, i.userID)
    ensures bits <= {UserName, Mirror.Registered, Unregistered}
  {
  }

  lemma DetailBits(i: UserInfo, p: UserState, bits: set<UserChange>)
    requires bits == DetailChanges(i, p)
    ensures Audio in bits <==> AudioChanges(i.audio, p)
    ensures Texture in bits <==> TextureChanges(p)
    ensures Comment in bits <==> CommentChanges(i.blobs, p)
    ensures PrioritySpeaker in bits <==> Changes(p.prioritySpeaker, i.prioritySpeaker)
    ensures Recording in bits <==> Changes(p.recording, i.recording)
    ensures bits <= {Audio, Texture, Comment, PrioritySpeaker, Recording}
  {
  }

  predicate IdentityAgrees(was: UserInfo, now: UserInfo, bits: set<UserChange>) {
    && (UserName !in bits ==> now.name == was.name)
    && (Mirror.Registered !in bits && Unregistered !in bits ==> now.userID == was.userID)
  }

  predicate DetailAgrees(was: UserInfo, now: UserInfo, bits: set<UserChange>) {
    && (Audio !in bits ==> now.audio == was.audio)
    && (Texture !in bits ==> now.blobs.texture == was.blobs.texture && now.blobs.textureHash == was.blobs.textureHash)
    && (Comment !in bits ==> now.blobs.comment == was.blobs.comment)
    && (PrioritySpeaker !in bits ==> now.prioritySpeaker == was.prioritySpeaker)
    && (Recording !in bits ==> now.recording == was.recording)
  }

  lemma InfoBitsComplete(i: UserInfo, p: UserState, now: UserInfo)
    requires now == Detailed(Identified(i, p, false), p)
    ensures IdentityAgrees(i, now, IdentityChanges(i, p, false)) && DetailAgrees(i, now, DetailChanges(i, p))
  {
    IdentityBits(i, p, IdentityChanges(i, p, false));
    DetailBits(i, p, DetailChanges(i, p));
  }

  lemma CopiedWhenAgrees(was: View, now: View, i: UserInfo, j: UserInfo, bits: set<UserChange>, s: State, t: State, u: User)
    requires was == ViewOf(s, u) && now == ViewOf(t, u) && i == Who(s, u).info && j == Who(t, u).info
    requires IdentityAgrees(i, j, bits) && DetailAgrees(i, j, bits) && (InChannel !in bits ==> now.channel == was.channel)
    ensures Copied(was, now, bits) == now
  {
  }

  /** The bits of an update name every viewed field it changes. */
  lemma BitsAreComplete(s: State, t: State, u: User, p: UserState)
    requires u in s.user && t == UpdateUser(s, u, p, false) && !Homeless(s.channels, p)
    ensures Copied(ViewOf(s, u), ViewOf(t, u), UserChanges(s, u, p, false)) == ViewOf(t, u)
  {
    UpdatedUser(s, t, u, p, false);
    InfoBitsComplete(Who(s, u).info, p, Who(t, u).info);
    CopiedWhenAgrees(ViewOf(s, u), ViewOf(t, u), Who(s, u).info, Who(t, u).info, UserChanges(s, u, p, false), s, t, u);
  }

  /** Bits of an update to a connected user are set exactly when the field they name changes. */
  lemma BitsAreExact(s: State, t: State, u: User, p: UserState, bits: set<UserChange>)
    requires u in s.user && t == UpdateUser(s, u, p, false) && !Homeless(s.channels, p) && bits == UserChanges(s, u, p, false)
    ensures InfoExact(Who(s, u).info, Who(t, u).info, bits)
    ensures InChannel in bits <==> Who(t, u).channel != Who(s, u).channel
  {
    UpdatedUser(s, t, u, p, false);
    RecordBitsExact(s.channels, Who(s, u), p, Who(t, u).info, bits);
  }

  predicate InfoExact(was: UserInfo, now: UserInfo, bits: set<UserChange>) {
    && (UserName in bits <==> now.name != was.name)
    && (Audio in bits <==> now.audio != was.audio)
    && (PrioritySpeaker in bits <==> now.prioritySpeaker != was.prioritySpeaker)
    && (Recording in bits <==> now.recording != was.recording)
  }

  lemma RecordBitsExact(channels: map<uint32, Channel>, r: UserRec, p: UserState, now: UserInfo, bits: set<UserChange>)
    requires now == Detailed(Identified(r.info, p, false), p) && bits == UpdateChanges(channels, r, p, false)
    ensures InfoExact(r.info, now, bits)
    ensures InChannel in bits <==> p.channelId.Some? && Lookup(channels, p.channelId.value) != r.channel
  {
    IdentityBits(r.info, p, IdentityChanges(r.info, p, false));
    DetailBits(r.info, p, DetailChanges(r.info, p));
    AllBits(channels, r, p, bits);
    assert AudioChanges(r.info.audio, p) <==> Heard(r.info.audio, p) != r.info.audio;
  }

  lemma AllBits(channels: map<uint32, Channel>, r: UserRec, p: UserState, bits: set<UserChange>)
    requires bits == UpdateChanges(channels, r, p, false)
    ensures UserName in bits <==> UserName in IdentityChanges(r.info, p, false)
    ensures InChannel in bits <==> p.channelId.Some? && Lookup(channels, p.channelId.value) != r.channel
    ensures forall x :: x in {Audio, PrioritySpeaker, Recording} ==> (x in bits <==> x in DetailChanges(r.info, p))
  {
    DetailBits(r.info, p, DetailChanges(r.info, p));
  }

  // ---- Channel events ----

  /** Of the channels, only links may differ. */
  ghost predicate OnlyLinks(s: State, t: State) {
    t.chan.Keys == s.chan.Keys && t.channels == s.channels && forall d :: d in s.chan ==> At(t, d) == At(s, d).(links := At(t, d).links)
  }

  lemma PutOnlyLinks(s0: State, s: State, c: Channel, m: map<uint32, Channel>)
    requires OnlyLinks(s0, s) && c in s.chan
    ensures OnlyLinks(s0, Put(s, c, At(s, c).(links := m)))
  {
    PutAt(s, c, At(s, c).(links := m));
  }

  lemma LinkOnlyLinks(s0: State, s: State, c: Channel, k: uint32)
    requires OnlyLinks(s0, s) && c in s.chan && ChannelsExist(s0)
    ensures OnlyLinks(s0, Link(s, c, k))
  {
    if k in s.channels {
      var d := s.channels[k];
      var m := At(s, c).links[k := d];
      PutOnlyLinks(s0, s, c, m);
      var s1 := Put(s, c, At(s, c).(links := m));
      PutOnlyLinks(s0, s1, d, At(s1, d).links[At(s1, c).id := c]);
    }
  }

  lemma UnlinkOnlyLinks(s0: State, s: State, c: Channel, k: uint32)
    requires OnlyLinks(s0, s) && c in s.chan && ChannelsExist(s0)
    ensures OnlyLinks(s0, Unlink(s, c, k))
  {
    if k in s.channels {
      var d := s.channels[k];
      var m := At(s, c).links - {k};
      PutOnlyLinks(s0, s, c, m);
      var s1 := Put(s, c, At(s, c).(links := m));
      PutOnlyLinks(s0, s1, d, At(s1, d).links - {At(s1, c).id});
    }
  }

  lemma {:induction false} LinkAllOnlyLinks(s0: State, s: State, c: Channel, ids: seq<uint32>)
    requires OnlyLinks(s0, s) && c in s.chan && ChannelsExist(s0)
    ensures OnlyLinks(s0, LinkAll(s, c, ids)) && OnlyLinks(s0, UnlinkAll(s, c, ids))
  {
    if ids != [] {
      var n := |ids| - 1;
      LinkAllOnlyLinks(s0, s, c, ids[..n]);
      LinkOnlyLinks(s0, LinkAll(s, c, ids[..n]), c, ids[n]);
      UnlinkOnlyLinks(s0, UnlinkAll(s, c, ids[..n]), c, ids[n]);
    }
  }

  lemma RelinkedOnlyLinks(s: State, c: Channel, p: ChannelState)
    requires c in s.chan && ChannelsExist(s)
    ensures OnlyLinks(s, Relinked(s, c, p))
  {
    PutOnlyLinks(s, s, c, Resolved(s.channels, p.links));
    var s1 := if p.links == [] then s else ReplaceLinks(s, c, p.links);
    LinkAllOnlyLinks(s, s1, c, p.linksAdd);
    LinkAllOnlyLinks(s, LinkAll(s1, c, p.linksAdd), c, p.linksRemove);
  }

  /** The fields of the packet's own channel. */
  predicate ChannelFields(p: ChannelState, was: ChannelRec, now: ChannelRec) {
    && Carried(p.name, was.name, now.name)
    && CarriedText(p.description, p.descriptionHash, was.info.description, was.info.descriptionHash,
                   now.info.description, now.info.descriptionHash)
    && Carried(p.maxUsers, was.info.maxUsers, now.info.maxUsers)
    && Carried(p.position, was.info.position, now.info.position)
    && Carried(p.temporary, was.info.temporary, now.info.temporary)
  }

  lemma DescribedCarries(p: ChannelState, was: ChannelRec, now: ChannelRec)
    requires now.name == Or(p.name, was.name) && now.info == Described(was.info, p)
    ensures ChannelFields(p, was, now)
  {
  }

  /** Name and description after a ChannelState: the packet's on its own channel, unchanged on all others. */
  lemma UpdatedNotes(s: State, t: State, c: Channel, p: ChannelState, d: Channel)
    requires c in s.chan && d in s.chan && ChannelsExist(s) && t == Noted(Relinked(Named(s, c, p), c, p), c, p)
    ensures d in t.chan
    ensures if d == c then ChannelFields(p, At(s, c), At(t, c)) else At(t, d).name == At(s, d).name && At(t, d).info == At(s, d).info
  {
    PutAt(s, c, At(s, c).(name := Or(p.name, At(s, c).name)));
    var s1 := Named(s, c, p);
    RelinkedOnlyLinks(s1, c, p);
    var s2 := Relinked(s1, c, p);
    PutAt(s2, c, At(s2, c).(info := Described(At(s2, c).info, p)));
    if d == c {
      DescribedCarries(p, At(s, c), At(t, c));
    }
  }

  /** The same, and the parent, for a channel that exists. */
  lemma KnownChannelUpdated(s: State, t: State, id: uint32, p: ChannelState, made: Channel, d: Channel)
    requires Inv(s) && id in s.channels && t == UpdateChannel(s, id, p, made) && d in s.chan
    ensures d in t.chan && s.channels[id] in s.chan
    ensures var c := s.channels[id];
      && (if d == c then ChannelFields(p, At(s, c), At(t, c)) else At(t, d).name == At(s, d).name && At(t, d).info == At(s, d).info)
      && At(t, d).parent == (if d == c && p.parent.Some? then ChannelOf(s, p.parent.value) else At(s, d).parent)
  {
    var c := s.channels[id];
    assert Hung(s, id) && (p.parent.Some? && p.parent.value in s.channels ==> Hung(s, p.parent.value)) && ParentExists(s, c);
    var s1 := Placed(s, c, p);
    if p.parent.Some? {
      ReparentAt(s, c, ChannelOf(s, p.parent.value), c);
      ReparentAt(s, c, ChannelOf(s, p.parent.value), d);
    }
    PlacedMoves(s, c, p);
    TreeChannelsExist(s1);
    UpdatedNotes(s1, t, c, p, d);
    UpdateChannelStructure(s, id, p, made);
    assert SameNode(At(s1, d), At(t, d));
  }

  /** What a channel of the packet's id was: itself, or a new channel with nothing set. */
  function Previous(s: State, id: uint32): (r: ChannelRec) {
    if id in s.channels then At(s, s.channels[id])
    else ChannelRec(id, "", null, map[], map[], map[], ChannelInfo("", None, 0, 0, false), true)
  }

  /**
   * After a ChannelState the packet's channel, which is created if there was none, has the packet's
   * fields and parent; every other has what it had.
   */
  lemma UpdatedChannel(s: State, t: State, id: uint32, p: ChannelState, made: Channel, d: Channel)
    requires Inv(s) && (made !in s.chan || id in s.channels) && t == UpdateChannel(s, id, p, made)
    requires d in s.chan || (d == made && id !in s.channels)
    ensures id in t.channels && d in t.chan
    ensures var c := t.channels[id];
      && c == (if id in s.channels then s.channels[id] else made)
      && (if d == c then ChannelFields(p, Previous(s, id), At(t, c))
          else d in s.chan && At(t, d).name == At(s, d).name && At(t, d).info == At(s, d).info)
      && (if d == c then At(t, d).parent == (if p.parent.Some? then Lookup(t.channels, p.parent.value) else Previous(s, id).parent)
          else At(t, d).parent == At(s, d).parent)
  {
    var s1 := Ensured(s, id, made);
    EnsuredKeepsInv(s, id, made);
    UpdateChannelKeepsInv(s, id, p, made);
    KnownChannelUpdated(s1, t, id, p, made, d);
  }

  predicate Mentions(channels: map<uint32, Channel>, p: ChannelState) {
    exists k :: k in channels && (k in p.linksAdd || k in p.linksRemove)
  }

  /** What a bit says of the record before and after: moves, names and positions are reported exactly when they change. */
  predicate ChannelBit(x: ChannelChange, s: State, id: uint32, channels: map<uint32, Channel>, p: ChannelState, was: ChannelRec, now: ChannelRec) {
    match x
    case Created => id !in s.channels
    case Removed => false
    case Moved => now.parent != was.parent
    case ChannelName => now.name != was.name
    case Links => p.links != [] || Mentions(channels, p)
    case Description => p.descriptionHash.Some? || now.info.description != was.info.description
    case Position => now.info.position != was.info.position
    case PermissionChanged => false
    case MaxUsers => p.maxUsers.Some?
  }

  predicate BitsSay(e: set<ChannelChange>, s: State, id: uint32, channels: map<uint32, Channel>, p: ChannelState, was: ChannelRec, now: ChannelRec) {
    forall x :: x in e <==> ChannelBit(x, s, id, channels, p, was, now)
  }

  lemma RecordBitsSay(e: set<ChannelChange>, s: State, id: uint32, channels: map<uint32, Channel>, p: ChannelState, was: ChannelRec, now: ChannelRec)
    requires e == Flag(id !in s.channels, Created) + RecordChanges(channels, was, p) && ChannelFields(p, was, now)
    requires now.parent == if p.parent.Some? then Lookup(channels, p.parent.value) else was.parent
    ensures BitsSay(e, s, id, channels, p, was, now)
  {
    forall x ensures x in e <==> ChannelBit(x, s, id, channels, p, was, now) {
      if x != Created {
        RecordBit(x, s, id, channels, p, was, now);
      } else {
        RecordBits(channels, was, p, RecordChanges(channels, was, p));
      }
    }
  }

  lemma RecordBit(x: ChannelChange, s: State, id: uint32, channels: map<uint32, Channel>, p: ChannelState, was: ChannelRec, now: ChannelRec)
    requires ChannelFields(p, was, now) && x != Created
    requires now.parent == if p.parent.Some? then Lookup(channels, p.parent.value) else was.parent
    ensures x in RecordChanges(channels, was, p) <==> ChannelBit(x, s, id, channels, p, was, now)
  {
    RecordBits(channels, was, p, RecordChanges(channels, was, p));
    assert Names(channels, p.linksAdd) || Names(channels, p.linksRemove) <==> Mentions(channels, p) by {
      NamesIsMembership(channels, p.linksAdd);
      NamesIsMembership(channels, p.linksRemove);
    }
  }

  lemma NamesIsMembership(channels: map<uint32, Channel>, ids: seq<uint32>)
    ensures Names(channels, ids) <==> exists k :: k in channels && k in ids
  {
    if k :| k in channels && k in ids {
      var i :| 0 <= i < |ids| && ids[i] == k;
      assert ids[i] in channels;
    }
  }

  /**
   * The bits of a channel update, for a known channel and for one just created: exact for parent,
   * name and position; and no link, description or user limit changes without its bit.
   */
  lemma ChannelBits(s: State, t: State, id: uint32, p: ChannelState, made: Channel, e: set<ChannelChange>)
    requires Inv(s) && (made !in s.chan || id in s.channels) && t == UpdateChannel(s, id, p, made)
    requires e == ChannelChanges(s, id, p, made)
    ensures id in t.channels
    ensures var was, now := Previous(s, id), At(t, t.channels[id]);
      && BitsSay(e, s, id, t.channels, p, was, now)
      && (Description !in e ==> now.info.description == was.info.description)
      && (MaxUsers !in e ==> now.info.maxUsers == was.info.maxUsers)
      && (Links !in e ==> now.links == was.links)
  {
    EnsuredKeepsInv(s, id, made);
    UpdateChannelKeepsInv(s, id, p, made);
    var s1, was, now := Ensured(s, id, made), Previous(s, id), At(t, t.channels[id]);
    assert t == UpdateChannel(s1, id, p, made);
    UpdatedChannel(s, t, id, p, made, t.channels[id]);
    UnlinkedPacket(s1, t, id, p, made);
    RecordBitsSay(e, s, id, t.channels, p, was, now);
    RecordBits(t.channels, was, p, RecordChanges(t.channels, was, p));
  }

  /** A packet that names no known channel in its link lists leaves the links. */
  lemma UnlinkedPacket(s: State, t: State, id: uint32, p: ChannelState, made: Channel)
    requires Inv(s) && id in s.channels && t == UpdateChannel(s, id, p, made)
    ensures p.links == [] && !Names(s.channels, p.linksAdd) && !Names(s.channels, p.linksRemove) ==>
            At(t, s.channels[id]).links == At(s, s.channels[id]).links
  {
    UpdateRelinks(s, id, p);
    assert LinksOf(t, id) == OwnLinks(s, id, p);
    NoneResolved(s.channels, p.linksAdd);
    NoneResolved(s.channels, p.linksRemove);
  }

  lemma NoneResolved(channels: map<uint32, Channel>, ids: seq<uint32>)
    ensures !Names(channels, ids) ==> Resolved(channels, ids) == map[]
  {
    if k :| k in Resolved(channels, ids) {
      var i :| 0 <= i < |ids| && ids[i] == k;
      assert ids[i] in channels;
    }
  }

  /** A description hash changes unreported exactly when the packet repeats the description and a hash was set. */
  lemma DescriptionHashBit(i: ChannelInfo, p: ChannelState)
    ensures (Description in NoteChanges(i, p) || Described(i, p).descriptionHash == i.descriptionHash)
            <==> !(p.description == Some(i.description) && p.descriptionHash.None? && i.descriptionHash.Some?)
  {
  }

  lemma RecordBits(channels: map<uint32, Channel>, r: ChannelRec, p: ChannelState, e: set<ChannelChange>)
    requires e == RecordChanges(channels, r, p)
    ensures Moved in e <==> p.parent.Some? && Lookup(channels, p.parent.value) != r.parent
    ensures ChannelName in e <==> Changes(p.name, r.name)
    ensures Position in e <==> Changes(p.position, r.info.position)
    ensures Description in e <==> Changes(p.description, r.info.description) || p.descriptionHash.Some?
    ensures MaxUsers in e <==> p.maxUsers.Some?
    ensures Links in e <==> p.links != [] || Names(channels, p.linksAdd) || Names(channels, p.linksRemove)
    ensures Created !in e && Removed !in e
  {
  }

  // ---- Every step ----

  function EventsOf(o: Outcome): (e: seq<Event>) {
    if o.Done? then o.events else []
  }

  /** A user that the handler creates without telling the listeners. */
  predicate Unannounced(s: State, packet: Packet) {
    && packet.UserUpdate? && packet.user.session.Some? && packet.user.session.value !in s.users
    && (0 !in s.channels || (packet.user.actor.Some? && packet.user.actor.value !in s.users && packet.user.actor != packet.user.session))
  }

  lemma {:induction false} ChannelEventsUnseen(shadow: Shadow, t: State, events: seq<Event>)
    requires forall i :: 0 <= i < |events| ==> events[i].ChannelEvent?
    ensures ObserveAll(shadow, t, events) == shadow
  {
    if events != [] {
      ChannelEventsUnseen(shadow, t, events[..|events| - 1]);
    }
  }

  /** The shadow only has to follow the one session that a step touches. */
  lemma FaithfulExcept(s: State, t: State, shadow: Shadow, r: Shadow, k: uint32)
    requires Faithful(s, shadow) && r - {k} == shadow - {k} && t.users - {k} == s.users - {k}
    requires forall j :: j in s.users && j != k ==> Who(t, s.users[j]) == Who(s, s.users[j])
    requires if k in t.users then k in r && r[k] == ViewOf(t, t.users[k]) else k !in r
    ensures Faithful(t, r)
  {
    forall j ensures j in r <==> j in t.users {
      assert j != k ==> (j in r - {k} <==> j in shadow) && (j in t.users - {k} <==> j in s.users);
    }
    forall j | j in t.users ensures r[j] == ViewOf(t, t.users[j]) {
      if j != k {
        assert j in t.users - {k} && (r - {k})[j] == (shadow - {k})[j] && (t.users - {k})[j] == (s.users - {k})[j];
      }
    }
  }

  lemma SingleEvent(shadow: Shadow, t: State, e: Event)
    ensures ObserveAll(shadow, t, [e]) == Observe(shadow, t, e)
  {
    assert ObserveAll(shadow, t, [e][..0]) == shadow;
  }

  lemma UserRemovedFaithful(s: State, t: State, u: User, banned: bool, shadow: Shadow, e: Event)
    requires Inv(s) && u in s.user && Known(s, u) && t == RemoveUser(s, u, banned) && Faithful(s, shadow)
    requires e.UserEvent? && e.user == u && Disconnected in e.utype
    ensures Faithful(t, Observe(shadow, t, e))
  {
    var k := Who(s, u).session;
    assert t.users == s.users - {k} && t.user == s.user[u := Who(s, u).(client := false)];
    forall j | j in s.users && j != k ensures Who(t, s.users[j]) == Who(s, s.users[j]) {
      assert Housed(s, j);
    }
    FaithfulExcept(s, t, shadow, shadow - {k}, k);
  }

  lemma UserUpdatedFaithful(s: State, t: State, u: User, p: UserState, shadow: Shadow, e: Event)
    requires Inv(s) && u in s.user && Known(s, u) && t == UpdateUser(s, u, p, false) && Faithful(s, shadow)
    requires !Homeless(s.channels, p)
    requires e.UserEvent? && e.user == u && e.utype == UserChanges(s, u, p, false)
    ensures Faithful(t, Observe(shadow, t, e))
  {
    UpdatedUser(s, t, u, p, false);
    BitsAreComplete(s, t, u, p);
    NeverDisconnected(s, u, p, false);
    FaithfulUpdate(s, t, u, shadow, e);
  }

  lemma FaithfulUpdate(s: State, t: State, u: User, shadow: Shadow, e: Event)
    requires Inv(s) && u in s.user && Known(s, u) && Faithful(s, shadow)
    requires t.users == s.users && Who(t, u).session == Who(s, u).session && forall v :: v in s.user && v != u ==> Who(t, v) == Who(s, v)
    requires e.UserEvent? && e.user == u && Disconnected !in e.utype && Connected !in e.utype
    requires Copied(ViewOf(s, u), ViewOf(t, u), e.utype) == ViewOf(t, u)
    ensures Faithful(t, Observe(shadow, t, e))
  {
    var k := Who(s, u).session;
    ObservedUpdate(shadow, t, e);
    forall j | j in s.users && j != k ensures Who(t, s.users[j]) == Who(s, s.users[j]) {
      assert Housed(s, j);
    }
    FaithfulExcept(s, t, shadow, shadow[k := ViewOf(t, u)], k);
  }

  lemma UserArrivedFaithful(s: State, s1: State, t: State, k: uint32, p: UserState, shadow: Shadow, made: User, e: Event)
    requires Inv(s) && made !in s.user && k !in s.users && Faithful(s, shadow)
    requires s1 == EnterRoot(s, k, made) && t == UpdateUser(s1, made, p, true)
    requires !Homeless(s.channels, p)
    requires e.UserEvent? && e.user == made && e.utype == UserChanges(s1, made, p, true)
    ensures Faithful(t, Observe(shadow, t, e))
  {
    ArrivedUser(s, s1, t, k, p, made);
    NeverDisconnected(s1, made, p, true);
    FaithfulArrival(s, t, k, made, shadow, e);
  }

  lemma FaithfulArrival(s: State, t: State, k: uint32, made: User, shadow: Shadow, e: Event)
    requires Faithful(s, shadow) && k !in s.users && t.users == s.users[k := made] && Who(t, made).session == k
    requires forall j :: j in s.users ==> Who(t, s.users[j]) == Who(s, s.users[j])
    requires e.UserEvent? && e.user == made && Disconnected !in e.utype && Connected in e.utype
    ensures Faithful(t, Observe(shadow, t, e))
  {
    ObservedArrival(shadow, t, e);
    FaithfulExcept(s, t, shadow, shadow[k := ViewOf(t, made)], k);
  }

  lemma ObservedArrival(shadow: Shadow, t: State, e: Event)
    requires e.UserEvent? && Disconnected !in e.utype && Connected in e.utype
    ensures Observe(shadow, t, e) == shadow[Who(t, e.user).session := ViewOf(t, e.user)]
  {
  }

  lemma ObservedUpdate(shadow: Shadow, t: State, e: Event)
    requires e.UserEvent? && Disconnected !in e.utype && Connected !in e.utype && Who(t, e.user).session in shadow
    ensures var k := Who(t, e.user).session; Observe(shadow, t, e) == shadow[k := Copied(shadow[k], ViewOf(t, e.user), e.utype)]
  {
  }

  lemma ArrivedUser(s: State, s1: State, t: State, k: uint32, p: UserState, made: User)
    requires Inv(s) && made !in s.user && k !in s.users
    requires s1 == EnterRoot(s, k, made) && t == UpdateUser(s1, made, p, true)
    requires !Homeless(s.channels, p)
    ensures t.users == s.users[k := made] && Who(t, made).session == k
    ensures forall j :: j in s.users ==> Who(t, s.users[j]) == Who(s, s.users[j])
  {
    assert 0 in s.channels ==> Hung(s, 0);
    EnterRootArrives(s, k, made);
    UpdatedUser(s1, t, made, p, true);
    forall j | j in s.users ensures Who(t, s.users[j]) == Who(s, s.users[j]) {
      assert Housed(s, j);
      assert Who(s1, s.users[j]) == Who(s, s.users[j]);
    }
  }

  lemma NeverDisconnected(s: State, u: User, p: UserState, connected: bool)
    ensures Disconnected !in UserChanges(s, u, p, connected) && (Connected in UserChanges(s, u, p, connected) <==> connected)
  {
    UpdateBits(s.channels, Who(s, u), p, connected);
  }

  lemma UpdateBits(channels: map<uint32, Channel>, r: UserRec, p: UserState, connected: bool)
    ensures Disconnected !in UpdateChanges(channels, r, p, connected) && Connected !in UpdateChanges(channels, r, p, connected)
  {
    DetailBits(r.info, p, DetailChanges(r.info, p));
    IdentityOnly(r.info, p, connected);
    NoArrivalIn(IdentityChanges(r.info, p, connected), HouseChange(channels, r.channel, p), DetailChanges(r.info, p));
  }

  lemma NoArrivalIn(identity: set<UserChange>, house: set<UserChange>, details: set<UserChange>)
    requires identity <= {UserName, Mirror.Registered, Unregistered} && house <= {InChannel}
    requires details <= {Audio, Texture, Comment, PrioritySpeaker, Recording}
    ensures Disconnected !in identity + house + details && Connected !in identity + house + details
  {
  }

  lemma IdentityOnly(i: UserInfo, p: UserState, connected: bool)
    ensures IdentityChanges(i, p, connected) <= {UserName, Mirror.Registered, Unregistered}
  {
  }

  /** A user created unannounced is in the mirror and in no shadow. */
  lemma UnannouncedUnfaithful(s: State, k: uint32, made: User, shadow: Shadow)
    requires k !in s.users && Faithful(s, shadow)
    ensures !Faithful(EnterRoot(s, k, made), shadow)
  {
    assert k in EnterRoot(s, k, made).users.Keys;
  }

  lemma UserStateFaithful(s: State, o: Outcome, p: UserState, made: User, shadow: Shadow)
    requires Inv(s) && s.synced && Faithful(s, shadow) && made !in s.user && o == HandleUserState(s, p, made) && !o.Stuck?
    ensures Faithful(o.state, ObserveAll(shadow, o.state, EventsOf(o))) <==> !Unannounced(s, UserUpdate(p))
  {
    if p.session.Some? {
      var k := p.session.value;
      if k in s.users {
        KnownUserFaithful(s, o, p, made, shadow);
      } else {
        NewUserFaithful(s, o, p, made, shadow);
      }
    }
  }

  lemma KnownUserFaithful(s: State, o: Outcome, p: UserState, made: User, shadow: Shadow)
    requires Inv(s) && s.synced && Faithful(s, shadow) && made !in s.user && o == HandleUserState(s, p, made) && !o.Stuck?
    requires p.session.Some? && p.session.value in s.users
    ensures Faithful(o.state, ObserveAll(shadow, o.state, EventsOf(o)))
  {
    assert Housed(s, p.session.value);
    if o.Done? {
      SingleEvent(shadow, o.state, o.events[0]);
      UserUpdatedFaithful(s, o.state, s.users[p.session.value], p, shadow, o.events[0]);
    }
  }

  lemma NewUserFaithful(s: State, o: Outcome, p: UserState, made: User, shadow: Shadow)
    requires Inv(s) && s.synced && Faithful(s, shadow) && made !in s.user && o == HandleUserState(s, p, made) && !o.Stuck?
    requires p.session.Some? && p.session.value !in s.users
    ensures Faithful(o.state, ObserveAll(shadow, o.state, EventsOf(o))) <==> !Unannounced(s, UserUpdate(p))
  {
    var k := p.session.value;
    var s1 := EnterRoot(s, k, made);
    assert 0 in s.channels ==> Hung(s, 0);
    EnterRootArrives(s, k, made);
    if o.Done? {
      SingleEvent(shadow, o.state, o.events[0]);
      UserArrivedFaithful(s, s1, o.state, k, p, shadow, made, o.events[0]);
    } else {
      UnannouncedUnfaithful(s, k, made, shadow);
    }
  }

  lemma UserRemoveFaithful(s: State, o: Outcome, session: Option<uint32>, actor: Option<uint32>, reason: Option<string>, ban: Option<bool>, shadow: Shadow)
    requires Inv(s) && s.synced && Faithful(s, shadow) && o == HandleUserRemove(s, session, actor, reason, ban)
    ensures Faithful(o.state, ObserveAll(shadow, o.state, EventsOf(o)))
  {
    if o.Done? {
      assert Housed(s, session.value);
      SingleEvent(shadow, o.state, o.events[0]);
      UserRemovedFaithful(s, o.state, s.users[session.value], Or(ban, false), shadow, o.events[0]);
    }
  }

  lemma ChannelPacketFaithful(s: State, o: Outcome, shadow: Shadow)
    requires Faithful(s, shadow) && o.state.users == s.users && o.state.user == s.user
    requires forall i :: 0 <= i < |EventsOf(o)| ==> EventsOf(o)[i].ChannelEvent?
    ensures Faithful(o.state, ObserveAll(shadow, o.state, EventsOf(o)))
  {
    ChannelEventsUnseen(shadow, o.state, EventsOf(o));
  }

  /**
   * After a step of a synchronised client, a shadow kept up to date by the event bits alone is still
   * faithful, except exactly when a user was created without an event.
   */
  lemma StepFaithful(s: State, i: Input, shadow: Shadow)
    requires Inv(s) && s.synced && Faithful(s, shadow) && Admissible(s, i) && !Handle(s, i).Stuck?
    ensures Faithful(Handle(s, i).state, ObserveAll(shadow, Handle(s, i).state, EventsOf(Handle(s, i)))) <==> !Unannounced(s, i.packet)
  {
    match i.packet
    case ChannelRemove(id) =>
      ChannelRemoveFaithful(s, Handle(s, i), id, shadow);
    case ChannelUpdate(p) =>
      ChannelStateFaithful(s, Handle(s, i), p, i.channel, shadow);
    case UserRemove(session, actor, reason, ban) =>
      UserRemoveFaithful(s, Handle(s, i), session, actor, reason, ban, shadow);
    case UserUpdate(p) =>
      UserStateFaithful(s, Handle(s, i), p, i.user, shadow);
    case PermissionQuery(id, granted, flush) =>
      PermissionQueryFaithful(s, Handle(s, i), id, granted, Or(flush, false), i.order, shadow);
    case ServerSync(_) =>
      ChannelPacketFaithful(s, Handle(s, i), shadow);
  }

  /** In a mirror synchronised without a root, the first user is created without an event. */
  lemma SilentUser(me: Option<uint32>, s: State, i: Input)
    requires s == HandleServerSync(START, me).state && Admissible(s, i)
    requires i.packet.UserUpdate? && i.packet.user.session.Some?
    ensures !Handle(s, i).Stuck?
    ensures !Faithful(Handle(s, i).state, ObserveAll(map[], Handle(s, i).state, EventsOf(Handle(s, i))))
  {
    assert s == START.(synced := true);
    StuckHandler(s, i);
    StepFaithful(s, i, map[]);
  }

  lemma ChannelRemoveFaithful(s: State, o: Outcome, id: Option<uint32>, shadow: Shadow)
    requires Faithful(s, shadow) && o == HandleChannelRemove(s, id)
    ensures Faithful(o.state, ObserveAll(shadow, o.state, EventsOf(o)))
  {
    ChannelPacketFaithful(s, o, shadow);
  }

  lemma ChannelStateFaithful(s: State, o: Outcome, p: ChannelState, made: Channel, shadow: Shadow)
    requires Inv(s) && made !in s.chan && Faithful(s, shadow) && o == HandleChannelState(s, p, made)
    ensures Faithful(o.state, ObserveAll(shadow, o.state, EventsOf(o)))
  {
    UpdateSameUsers(s, p, made);
    ChannelPacketFaithful(s, o, shadow);
  }

  lemma PermissionQueryFaithful(s: State, o: Outcome, id: Option<uint32>, granted: Option<uint32>, flush: bool, order: seq<uint32>, shadow: Shadow)
    requires Faithful(s, shadow) && o == HandlePermissionQuery(s, id, granted, flush, order)
    ensures Faithful(o.state, ObserveAll(shadow, o.state, EventsOf(o)))
  {
    PermissionQueryFrame(s, id, granted, flush, order);
    ChannelPacketFaithful(s, o, shadow);
  }

  lemma UpdateSameUsers(s: State, p: ChannelState, made: Channel)
    requires Inv(s) && made !in s.chan
    ensures var t := HandleChannelState(s, p, made).state; t.users == s.users && t.user == s.user && t.synced == s.synced
  {
    if p.channelId.Some? {
      var id := p.channelId.value;
      EnsuredKeepsInv(s, id, made);
      PlacedMoves(Ensured(s, id, made), Target(s, id, made), p);
      UpdateChannelStructure(s, id, p, made);
    }
  }

  // ---- Every run ----

  lemma RehousedKeepsSynced(s: State, u: User, p: UserState)
    ensures Rehoused(s, u, p).synced == s.synced
  {
  }

  lemma UpdateUserKeepsSynced(s: State, u: User, p: UserState, connected: bool)
    ensures UpdateUser(s, u, p, connected).synced == s.synced
  {
    RehousedKeepsSynced(WithInfo(s, u, Identified(Who(s, u).info, p, connected)), u, p);
  }

  lemma UserStateKeepsSynced(s: State, p: UserState, made: User)
    ensures HandleUserState(s, p, made).state.synced == s.synced
  {
    if p.session.Some? {
      var s1 := Arrived(s, p.session.value, made);
      UpdateUserKeepsSynced(s1, s1.users[p.session.value], p, p.session.value !in s.users);
    }
  }

  lemma StepKeepsSynced(s: State, i: Input)
    requires Inv(s) && s.synced && Admissible(s, i)
    ensures Handle(s, i).state.synced
  {
    match i.packet
    case ChannelRemove(id) =>
    case ChannelUpdate(p) =>
      UpdateSameUsers(s, p, i.channel);
    case UserRemove(session, actor, reason, ban) =>
    case UserUpdate(p) =>
      UserStateKeepsSynced(s, p, i.user);
    case PermissionQuery(id, granted, flush) =>
      PermissionQueryFrame(s, id, granted, Or(flush, false), i.order);
    case ServerSync(_) =>
  }

  /** A shadow for each state from `m` on, each made from the last by the events of the step between. */
  predicate Follows(ss: seq<State>, ins: seq<Input>, shadows: seq<Shadow>, m: nat) {
    && |ss| == |ins| + 1 && |shadows| == |ss|
    && forall i :: m <= i < |ins| ==> Updates(ss[i], ins[i], ss[i + 1], shadows[i], shadows[i + 1])
  }

  predicate Updates(s: State, i: Input, t: State, shadow: Shadow, next: Shadow) {
    next == ObserveAll(shadow, t, EventsOf(Handle(s, i)))
  }

  lemma StepStaysFaithful(s: State, i: Input, t: State, shadow: Shadow, next: Shadow)
    requires Inv(s) && s.synced && Faithful(s, shadow) && StepsTo(s, i, t) && Updates(s, i, t, shadow, next) && !Unannounced(s, i.packet)
    ensures t.synced && Faithful(t, next)
  {
    StepKeepsSynced(s, i);
    StepFaithful(s, i, shadow);
  }

  /** From synchronisation on, a listener that copies only what the bits name never falls behind. */
  lemma {:induction false} RunFaithful(ss: seq<State>, ins: seq<Input>, shadows: seq<Shadow>, m: nat, n: nat)
    requires Run(ss, ins) && m <= n <= |ins| && Follows(ss, ins, shadows, m)
    requires ss[m].synced && Faithful(ss[m], shadows[m])
    requires forall i :: m <= i < n ==> !Unannounced(ss[i], ins[i].packet)
    ensures ss[n].synced && Faithful(ss[n], shadows[n])
  {
    if n > m {
      var j := n - 1;
      RunFaithful(ss, ins, shadows, m, j);
      RunKeepsInv(ss, ins, j);
      StepStaysFaithful(ss[j], ins[j], ss[j + 1], shadows[j], shadows[j + 1]);
    }
  }

  /** The hash of a comment is the one related field the bits can miss. */
  lemma CommentHashBit(i: UserInfo, p: UserState)
    ensures (Comment in DetailChanges(i, p) || Detailed(i, p).blobs.commentHash == i.blobs.commentHash)
            <==> !(p.comment == Some(i.blobs.comment) && p.commentHash.None? && i.blobs.commentHash.Some?)
  {
    DetailBits(i, p, DetailChanges(i, p));
  }

  // ---- The permission cache ----

  /** One event per id of `order`, on its channel, then one on the single channel; all of them live. */
  ghost predicate Reports(s: State, order: seq<uint32>, single: Option<uint32>, events: seq<Event>) {
    && |events| == |order| + (if single.Some? then 1 else 0)
    && (forall i :: 0 <= i < |events| ==> events[i].ChannelEvent? && events[i].ctype == {PermissionChanged})
    && (forall i :: 0 <= i < |order| ==> order[i] in s.channels && events[i].channel == s.channels[order[i]])
    && (single.Some? ==> single.value in s.channels && events[|order|].channel == s.channels[single.value])
    && (forall i :: 0 <= i < |events| ==> events[i].channel != null && Live(s, events[i].channel))
  }

  /**
   * A flush reports exactly the channels that were cached, each once and each live, in the order the
   * iteration takes, and then the packet's own channel; afterwards the cache holds that channel or nothing.
   */
  lemma FlushReportsLiveChannels(s: State, o: Outcome, id: Option<uint32>, granted: Option<uint32>, order: seq<uint32>)
    requires Inv(s) && Enumerates(order, s.permissions.Keys)
    requires o == HandlePermissionQuery(s, id, granted, true, order) && o.Done?
    ensures |order| == |s.permissions|
    ensures Reports(s, order, if granted.Some? then id else None, o.events)
    ensures o.state.permissions == if id.Some? && granted.Some? then map[id.value := granted.value] else map[]
  {
    OrderSize(order, s.permissions.Keys);
    var single := if granted.Some? then id else None;
    var changed := LookupAll(s.channels, order) + if single.Some? then [ChannelOf(s, single.value)] else [];
    FlushOutcome(s, o, id, granted, order, changed);
    ChangedAreLive(s, order, single, changed);
    ReportsChanged(s, order, single, changed);
  }

  lemma ReportsChanged(s: State, order: seq<uint32>, single: Option<uint32>, changed: seq<Channel?>)
    requires |changed| == |order| + (if single.Some? then 1 else 0)
    requires forall i :: 0 <= i < |order| ==> order[i] in s.channels && changed[i] == s.channels[order[i]]
    requires single.Some? ==> single.value in s.channels && changed[|order|] == s.channels[single.value]
    requires forall i :: 0 <= i < |changed| ==> changed[i] != null && Live(s, changed[i])
    ensures Reports(s, order, single, Reported(changed))
  {
    forall i | 0 <= i < |changed|
      ensures Reported(changed)[i] == ChannelEvent({PermissionChanged}, changed[i])
    {
    }
  }

  lemma FlushOutcome(s: State, o: Outcome, id: Option<uint32>, granted: Option<uint32>, order: seq<uint32>, changed: seq<Channel?>)
    requires Inv(s) && o == HandlePermissionQuery(s, id, granted, true, order) && o.Done?
    requires changed == LookupAll(s.channels, order) + if id.Some? && granted.Some? then [ChannelOf(s, id.value)] else []
    ensures o.events == Reported(changed) && (id.Some? && granted.Some? ==> id.value in s.channels)
    ensures o.state.permissions == if id.Some? && granted.Some? then map[id.value := granted.value] else map[]
  {
    if id.Some? && granted.Some? {
      assert Hung(s, id.value);
    } else {
      assert changed == LookupAll(s.channels, order);
    }
  }

  lemma ChangedAreLive(s: State, order: seq<uint32>, single: Option<uint32>, changed: seq<Channel?>)
    requires Inv(s) && Enumerates(order, s.permissions.Keys) && (single.Some? ==> single.value in s.channels)
    requires changed == LookupAll(s.channels, order) + if single.Some? then [ChannelOf(s, single.value)] else []
    ensures forall i :: 0 <= i < |order| ==> order[i] in s.channels && changed[i] == s.channels[order[i]]
    ensures forall i :: 0 <= i < |changed| ==> changed[i] != null && Live(s, changed[i])
  {
    forall i | 0 <= i < |order|
      ensures order[i] in s.channels && changed[i] == s.channels[order[i]] && Live(s, s.channels[order[i]])
    {
      assert order[i] in s.permissions.Keys && Hung(s, order[i]);
    }
    if single.Some? {
      assert Hung(s, single.value);
    }
  }

  /** An enumeration has as many entries as there are keys. */
  lemma {:induction false} OrderSize(order: seq<uint32>, keys: set<uint32>)
    requires Enumerates(order, keys)
    ensures |order| == |keys|
  {
    if order == [] {
      assert forall k :: k in keys ==> k in order;
      assert keys == {};
    } else {
      var n := |order| - 1;
      var rest := keys - {order[n]};
      forall k | k in rest ensures k in order[..n] {
        assert k in order;
      }
      OrderSize(order[..n], rest);
    }
  }
}
