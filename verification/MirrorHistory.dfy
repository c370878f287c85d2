/** Over a whole run, each field of a user or channel is the latest that the server has sent for it. */
module MirrorHistory {
  import opened Bytes
  import opened Mirror
  import opened MirrorInv
  import opened MirrorEvents
  import opened MirrorPackets

  // ---- Users ----

  const UNSET_USER := UserInfo("", 0, AudioFlags(false, false, false, false, false), Blobs("", None, None, None, ""), false, false)

  /** The client takes the packet as an update of session `k`. */
  predicate TakesUpdate(s: State, packet: Packet, k: uint32) {
    packet.UserUpdate? && packet.user.session == Some(k) && !UpdateRefused(s, k, packet.user)
  }

  predicate WritesUser<T>(s: State, packet: Packet, sent: UserState -> Option<T>, k: uint32) {
    TakesUpdate(s, packet, k) && sent(packet.user).Some?
  }

  /** What was last sent for session `k` since its user connected, or `unset`. */
  ghost function LatestOfUser<T>(ss: seq<State>, ins: seq<Input>, sent: UserState -> Option<T>, unset: T, k: uint32, n: nat): T
    requires n <= |ins| <= |ss|
  {
    if n == 0 then unset
    else if WritesUser(ss[n - 1], ins[n - 1].packet, sent, k) then sent(ins[n - 1].packet.user).value
    else if k in ss[n - 1].users then LatestOfUser(ss, ins, sent, unset, k, n - 1)
    else unset
  }

  /** A field that every accepted packet overwrites with what `sent` finds in it, and leaves otherwise. */
  ghost predicate UserField<T(!new)>(field: UserInfo -> T, sent: UserState -> Option<T>) {
    forall p: UserState, was: UserInfo, now: UserInfo, known: bool ::
      UserFields(p, was, now, known) ==> Carried(sent(p), field(was), field(now))
  }

  /** The info of session `k`, or an unset one if there is no such user. */
  function InfoOf(s: State, k: uint32): (i: UserInfo) {
    if k in s.users then Who(s, s.users[k]).info else UNSET_USER
  }

  lemma PeopleSameInfo(s: State, t: State, k: uint32)
    requires t.user == s.user && t.users == s.users
    ensures InfoOf(t, k) == InfoOf(s, k)
  {
  }

  lemma RemovalSameInfo(s: State, t: State, j: uint32, ban: Option<bool>, k: uint32)
    requires Inv(s) && j in s.users && UserGone(s, t, j, ban) && k in t.users
    ensures InfoOf(t, k) == InfoOf(s, k)
  {
    assert Housed(s, k) && SameButClient(Who(s, s.users[k]), Who(t, s.users[k]));
  }

  lemma OtherSameInfo(s: State, t: State, j: uint32, made: User, k: uint32)
    requires Inv(s) && made !in s.user && UserPut(s, t, j, made) && k != j && k in t.users
    ensures InfoOf(t, k) == InfoOf(s, k)
  {
    assert Housed(s, k) && (j in s.users ==> Housed(s, j));
  }

  lemma OwnInfo(s: State, p: UserState, made: User, o: Outcome, k: uint32)
    requires UserStateEffect(s, p, made, o) && (o.Done? || o.Failed?) && p.session == Some(k)
    ensures if UpdateRefused(s, k, p) then InfoOf(o.state, k) == InfoOf(s, k) else UserFields(p, InfoOf(s, k), InfoOf(o.state, k), k in s.users)
  {
  }

  lemma UpdateOfOther(s: State, p: UserState, made: User, o: Outcome, k: uint32)
    requires Inv(s) && made !in s.user && UserStateEffect(s, p, made, o) && (o.Done? || o.Failed?) && p.session != Some(k) && k in o.state.users
    ensures InfoOf(o.state, k) == InfoOf(s, k)
  {
    if p.session.Some? {
      OtherSameInfo(s, o.state, p.session.value, made, k);
    }
  }

  lemma UpdateOfUser(s: State, p: UserState, made: User, o: Outcome, k: uint32)
    requires Inv(s) && made !in s.user && o == HandleUserState(s, p, made) && (o.Done? || o.Failed?) && k in o.state.users
    ensures if TakesUpdate(s, UserUpdate(p), k) then UserFields(p, InfoOf(s, k), InfoOf(o.state, k), k in s.users)
            else InfoOf(o.state, k) == InfoOf(s, k)
  {
    UserUpdated(s, p, made);
    if p.session == Some(k) {
      OwnInfo(s, p, made, o, k);
    } else {
      UpdateOfOther(s, p, made, o, k);
    }
  }

  lemma RemovalOfOther(s: State, session: Option<uint32>, actor: Option<uint32>, reason: Option<string>, ban: Option<bool>, o: Outcome, k: uint32)
    requires Inv(s) && UserRemoveEffect(s, session, actor, reason, ban, o) && k in o.state.users
    ensures InfoOf(o.state, k) == InfoOf(s, k)
  {
    if !RemovalRefused(s, session, actor) {
      RemovalSameInfo(s, o.state, session.value, ban, k);
    }
  }

  lemma ChannelPacketSameInfo(s: State, i: Input, o: Outcome, k: uint32)
    requires Effect(s, i, o) && !i.packet.UserUpdate? && !i.packet.UserRemove?
    ensures InfoOf(o.state, k) == InfoOf(s, k)
  {
    match i.packet
    case ChannelRemove(id) => PeopleSameInfo(s, o.state, k);
    case ChannelUpdate(p) => PeopleSameInfo(s, o.state, k);
    case PermissionQuery(id, granted, flush) => PeopleSameInfo(s, o.state, k);
    case ServerSync(me) => PeopleSameInfo(s, o.state, k);
  }

  lemma OtherPacketOfUser(s: State, i: Input, t: State, k: uint32)
    requires Inv(s) && Admissible(s, i) && t == Handle(s, i).state && k in t.users && !i.packet.UserUpdate?
    ensures InfoOf(t, k) == InfoOf(s, k)
  {
    StepEffect(s, i);
    if i.packet.UserRemove? {
      RemovalOfOther(s, i.packet.session, i.packet.actor, i.packet.reason, i.packet.ban, Handle(s, i), k);
    } else {
      ChannelPacketSameInfo(s, i, Handle(s, i), k);
    }
  }

  /** A step changes the info of a session only by an accepted update of that session. */
  lemma StepOfUser(s: State, i: Input, t: State, k: uint32)
    requires Inv(s) && StepsTo(s, i, t) && k in t.users
    ensures if TakesUpdate(s, i.packet, k) then UserFields(i.packet.user, InfoOf(s, k), InfoOf(t, k), k in s.users)
            else InfoOf(t, k) == InfoOf(s, k)
  {
    if i.packet.UserUpdate? {
      UpdateOfUser(s, i.packet.user, i.user, Handle(s, i), k);
    } else {
      OtherPacketOfUser(s, i, t, k);
    }
  }

  lemma StepOfField<T(!new)>(s: State, i: Input, t: State, field: UserInfo -> T, sent: UserState -> Option<T>, k: uint32)
    requires Inv(s) && StepsTo(s, i, t) && k in t.users && UserField(field, sent)
    ensures field(InfoOf(t, k)) == if WritesUser(s, i.packet, sent, k) then sent(i.packet.user).value else field(InfoOf(s, k))
  {
    StepOfUser(s, i, t, k);
    if TakesUpdate(s, i.packet, k) {
      FieldCarried(field, sent, i.packet.user, InfoOf(s, k), InfoOf(t, k), k in s.users);
    }
  }

  lemma FieldCarried<T(!new)>(field: UserInfo -> T, sent: UserState -> Option<T>, p: UserState, was: UserInfo, now: UserInfo, known: bool)
    requires UserField(field, sent) && UserFields(p, was, now, known)
    ensures Carried(sent(p), field(was), field(now))
  {
  }

  lemma RunStep(ss: seq<State>, ins: seq<Input>, j: nat, n: nat)
    requires Run(ss, ins) && j < n == j + 1 <= |ins|
    ensures Inv(ss[j]) && StepsTo(ss[j], ins[j], ss[n])
  {
    RunKeepsInv(ss, ins, j);
    assert StepsTo(ss[j], ins[j], ss[j + 1]);
  }

  lemma {:induction false} FieldIsLatest<T(!new)>(ss: seq<State>, ins: seq<Input>, field: UserInfo -> T, sent: UserState -> Option<T>, k: uint32, n: nat)
    requires Run(ss, ins) && n <= |ins| && k in ss[n].users && UserField(field, sent)
    ensures field(InfoOf(ss[n], k)) == LatestOfUser(ss, ins, sent, field(UNSET_USER), k, n)
  {
    if n > 0 {
      var j := n - 1;
      if k in ss[j].users {
        FieldIsLatest(ss, ins, field, sent, k, j);
      }
      NextField(ss, ins, field, sent, k, j, n);
    }
  }

  lemma NextField<T(!new)>(ss: seq<State>, ins: seq<Input>, field: UserInfo -> T, sent: UserState -> Option<T>, k: uint32, j: nat, n: nat)
    requires Run(ss, ins) && j < n == j + 1 <= |ins| && k in ss[n].users && UserField(field, sent)
    requires k in ss[j].users ==> field(InfoOf(ss[j], k)) == LatestOfUser(ss, ins, sent, field(UNSET_USER), k, j)
    ensures field(InfoOf(ss[n], k)) == LatestOfUser(ss, ins, sent, field(UNSET_USER), k, n)
  {
    RunStep(ss, ins, j, n);
    StepOfField(ss[j], ins[j], ss[n], field, sent, k);
  }

  // The value a packet has for a field; a hash empties its contents and contents unset the hash.
  function SentName(p: UserState): Option<string> { p.name }
  function SentMute(p: UserState): Option<bool> { p.mute }
  function SentDeaf(p: UserState): Option<bool> { p.deaf }
  function SentSuppress(p: UserState): Option<bool> { p.suppress }
  function SentSelfMute(p: UserState): Option<bool> { p.selfMute }
  function SentSelfDeaf(p: UserState): Option<bool> { p.selfDeaf }
  function SentPriority(p: UserState): Option<bool> { p.prioritySpeaker }
  function SentRecording(p: UserState): Option<bool> { p.recording }
  function SentHash(p: UserState): Option<string> { p.hash }

  function SentComment(p: UserState): Option<string> {
    if p.commentHash.Some? then Some("") else p.comment
  }

  function SentCommentHash(p: UserState): Option<Option<seq<byte>>> {
    if p.commentHash.Some? then Some(p.commentHash) else if p.comment.Some? then Some(None) else None
  }

  function SentTexture(p: UserState): Option<Option<seq<byte>>> {
    if p.textureHash.Some? then Some(None) else if p.texture.Some? then Some(p.texture) else None
  }

  function SentTextureHash(p: UserState): Option<Option<seq<byte>>> {
    if p.textureHash.Some? then Some(p.textureHash) else if p.texture.Some? then Some(None) else None
  }

  function NameOf(i: UserInfo): string { i.name }
  function Muted(i: UserInfo): bool { i.audio.muted }
  function Deafened(i: UserInfo): bool { i.audio.deafened }
  function Suppressed(i: UserInfo): bool { i.audio.suppressed }
  function SelfMuted(i: UserInfo): bool { i.audio.selfMuted }
  function SelfDeafened(i: UserInfo): bool { i.audio.selfDeafened }
  function HasPriority(i: UserInfo): bool { i.prioritySpeaker }
  function IsRecording(i: UserInfo): bool { i.recording }
  function HashOf(i: UserInfo): string { i.blobs.hash }
  function CommentOf(i: UserInfo): string { i.blobs.comment }
  function CommentHashOf(i: UserInfo): Option<seq<byte>> { i.blobs.commentHash }
  function TextureOf(i: UserInfo): Option<seq<byte>> { i.blobs.texture }
  function TextureHashOf(i: UserInfo): Option<seq<byte>> { i.blobs.textureHash }

  /** In every state of every run, what a connected user shows is the latest sent for its session since it connected. */
  lemma UserIsLatest(ss: seq<State>, ins: seq<Input>, k: uint32, n: nat)
    requires Run(ss, ins) && n <= |ins| && k in ss[n].users
    ensures var i := Who(ss[n], ss[n].users[k]).info;
      && i.name == LatestOfUser(ss, ins, SentName, "", k, n)
      && i.audio.muted == LatestOfUser(ss, ins, SentMute, false, k, n)
      && i.audio.deafened == LatestOfUser(ss, ins, SentDeaf, false, k, n)
      && i.audio.suppressed == LatestOfUser(ss, ins, SentSuppress, false, k, n)
      && i.audio.selfMuted == LatestOfUser(ss, ins, SentSelfMute, false, k, n)
      && i.audio.selfDeafened == LatestOfUser(ss, ins, SentSelfDeaf, false, k, n)
  {
    FieldIsLatest(ss, ins, NameOf, SentName, k, n);
    FieldIsLatest(ss, ins, Muted, SentMute, k, n);
    FieldIsLatest(ss, ins, Deafened, SentDeaf, k, n);
    FieldIsLatest(ss, ins, Suppressed, SentSuppress, k, n);
    FieldIsLatest(ss, ins, SelfMuted, SentSelfMute, k, n);
    FieldIsLatest(ss, ins, SelfDeafened, SentSelfDeaf, k, n);
  }

  lemma UserDetailsAreLatest(ss: seq<State>, ins: seq<Input>, k: uint32, n: nat)
    requires Run(ss, ins) && n <= |ins| && k in ss[n].users
    ensures var i := Who(ss[n], ss[n].users[k]).info;
      && i.prioritySpeaker == LatestOfUser(ss, ins, SentPriority, false, k, n)
      && i.recording == LatestOfUser(ss, ins, SentRecording, false, k, n)
      && i.blobs.hash == LatestOfUser(ss, ins, SentHash, "", k, n)
      && i.blobs.comment == LatestOfUser(ss, ins, SentComment, "", k, n)
      && i.blobs.commentHash == LatestOfUser(ss, ins, SentCommentHash, None, k, n)
      && i.blobs.texture == LatestOfUser(ss, ins, SentTexture, None, k, n)
      && i.blobs.textureHash == LatestOfUser(ss, ins, SentTextureHash, None, k, n)
  {
    FieldIsLatest(ss, ins, HasPriority, SentPriority, k, n);
    FieldIsLatest(ss, ins, IsRecording, SentRecording, k, n);
    FieldIsLatest(ss, ins, HashOf, SentHash, k, n);
    FieldIsLatest(ss, ins, CommentOf, SentComment, k, n);
    FieldIsLatest(ss, ins, CommentHashOf, SentCommentHash, k, n);
    FieldIsLatest(ss, ins, TextureOf, SentTexture, k, n);
    FieldIsLatest(ss, ins, TextureHashOf, SentTextureHash, k, n);
  }

  // ---- Where users are, and their ids ----

  /** The channel of session `k`, or where a new user would be. */
  function PlaceOf(s: State, k: uint32): (c: Channel?) {
    Former(s, k).channel
  }

  lemma OthersStay(s: State, i: Input, o: Outcome, k: uint32)
    requires Inv(s) && Effect(s, i, o) && k in o.state.users && !i.packet.UserUpdate?
    ensures PlaceOf(o.state, k) == PlaceOf(s, k)
  {
    if i.packet.UserRemove? {
      RemovalStays(s, i.packet.session, i.packet.actor, i.packet.reason, i.packet.ban, o, k);
    } else {
      ChannelPacketStays(s, i, o, k);
    }
  }

  lemma RemovalStays(s: State, session: Option<uint32>, actor: Option<uint32>, reason: Option<string>, ban: Option<bool>, o: Outcome, k: uint32)
    requires Inv(s) && UserRemoveEffect(s, session, actor, reason, ban, o) && k in o.state.users
    ensures PlaceOf(o.state, k) == PlaceOf(s, k)
  {
    if !RemovalRefused(s, session, actor) {
      assert Housed(s, k) && SameButClient(Who(s, s.users[k]), Who(o.state, s.users[k]));
    }
  }

  lemma ChannelPacketStays(s: State, i: Input, o: Outcome, k: uint32)
    requires Effect(s, i, o) && !i.packet.UserUpdate? && !i.packet.UserRemove? && k in o.state.users
    ensures PlaceOf(o.state, k) == PlaceOf(s, k)
  {
    assert o.state.user == s.user && o.state.users == s.users;
  }

  lemma UpdatePlaces(s: State, p: UserState, made: User, o: Outcome, k: uint32)
    requires Inv(s) && made !in s.user && UserStateEffect(s, p, made, o) && (o.Done? || o.Failed?) && k in o.state.users
    ensures PlaceOf(o.state, k) ==
            if TakesUpdate(s, UserUpdate(p), k) && p.channelId.Some? then ChannelOf(s, p.channelId.value) else PlaceOf(s, k)
  {
    if p.session.Some? && p.session.value != k {
      assert Housed(s, k) && (p.session.value in s.users ==> Housed(s, p.session.value));
    }
  }

  lemma StepPlaces(s: State, i: Input, t: State, k: uint32)
    requires Inv(s) && StepsTo(s, i, t) && k in t.users
    ensures PlaceOf(t, k) == if TakesUpdate(s, i.packet, k) && i.packet.user.channelId.Some? then ChannelOf(s, i.packet.user.channelId.value)
                             else PlaceOf(s, k)
  {
    StepEffect(s, i);
    if i.packet.UserUpdate? {
      UpdatePlaces(s, i.packet.user, i.user, Handle(s, i), k);
    } else {
      OthersStay(s, i, Handle(s, i), k);
    }
  }

  /** The channel that the latest packet with a channel for session `k` named, or the root as it was when the user came. */
  ghost function LatestPlace(ss: seq<State>, ins: seq<Input>, k: uint32, n: nat): Channel?
    requires n <= |ins| <= |ss|
  {
    if n == 0 then null
    else
      var s, packet := ss[n - 1], ins[n - 1].packet;
      if TakesUpdate(s, packet, k) && packet.user.channelId.Some? then ChannelOf(s, packet.user.channelId.value)
      else if k in s.users then LatestPlace(ss, ins, k, n - 1)
      else ChannelOf(s, 0)
  }

  /** In every state of every run, a user is in the channel that was last sent for it, even if that has been removed since. */
  lemma {:induction false} UserIsWhereSent(ss: seq<State>, ins: seq<Input>, k: uint32, n: nat)
    requires Run(ss, ins) && n <= |ins| && k in ss[n].users
    ensures PlaceOf(ss[n], k) == LatestPlace(ss, ins, k, n)
  {
    if n > 0 {
      var j := n - 1;
      if k in ss[j].users {
        UserIsWhereSent(ss, ins, k, j);
      }
      NextPlace(ss, ins, k, j, n);
    }
  }

  lemma NextPlace(ss: seq<State>, ins: seq<Input>, k: uint32, j: nat, n: nat)
    requires Run(ss, ins) && j < n == j + 1 <= |ins| && k in ss[n].users
    requires k in ss[j].users ==> PlaceOf(ss[j], k) == LatestPlace(ss, ins, k, j)
    ensures PlaceOf(ss[n], k) == LatestPlace(ss, ins, k, n)
  {
    RunStep(ss, ins, j, n);
    StepPlaces(ss[j], ins[j], ss[n], k);
  }

  /** The latest id sent for session `k`; the greatest one, sent for a user that had another, is zero. */
  ghost function LatestId(ss: seq<State>, ins: seq<Input>, k: uint32, n: nat): uint32
    requires n <= |ins| <= |ss|
  {
    if n == 0 then 0
    else IdAfter(ss[n - 1], ins[n - 1].packet, k, if k in ss[n - 1].users then LatestId(ss, ins, k, n - 1) else 0)
  }

  lemma {:induction false} UserIdIsLatest(ss: seq<State>, ins: seq<Input>, k: uint32, n: nat)
    requires Run(ss, ins) && n <= |ins| && k in ss[n].users
    ensures InfoOf(ss[n], k).userID == LatestId(ss, ins, k, n)
  {
    if n > 0 {
      var j := n - 1;
      if k in ss[j].users {
        UserIdIsLatest(ss, ins, k, j);
      }
      NextId(ss, ins, k, j, n);
    }
  }

  /** The id that a packet leaves for session `k`, from the one before. */
  function IdAfter(s: State, packet: Packet, k: uint32, was: uint32): (id: uint32) {
    if !TakesUpdate(s, packet, k) || packet.user.userId.None? then was
    else if k in s.users && packet.user.userId.value == 0xFFFF_FFFF && was != 0xFFFF_FFFF then 0
    else packet.user.userId.value
  }

  lemma StepOfId(s: State, i: Input, t: State, k: uint32)
    requires Inv(s) && StepsTo(s, i, t) && k in t.users
    ensures InfoOf(t, k).userID == IdAfter(s, i.packet, k, InfoOf(s, k).userID)
  {
    StepOfUser(s, i, t, k);
  }

  lemma NextId(ss: seq<State>, ins: seq<Input>, k: uint32, j: nat, n: nat)
    requires Run(ss, ins) && j < n == j + 1 <= |ins| && k in ss[n].users
    requires k in ss[j].users ==> InfoOf(ss[j], k).userID == LatestId(ss, ins, k, j)
    ensures InfoOf(ss[n], k).userID == LatestId(ss, ins, k, n)
  {
    RunStep(ss, ins, j, n);
    StepOfId(ss[j], ins[j], ss[n], k);
  }

  // ---- Channels ----

  predicate WritesChannel<T>(packet: Packet, sent: ChannelState -> Option<T>, id: uint32) {
    packet.ChannelUpdate? && packet.channel.channelId == Some(id) && sent(packet.channel).Some?
  }

  /** What was last sent for channel `id` since it was created, or `unset`. */
  ghost function LatestOfChannel<T>(ss: seq<State>, ins: seq<Input>, sent: ChannelState -> Option<T>, unset: T, id: uint32, n: nat): T
    requires n <= |ins| <= |ss|
  {
    if n == 0 then unset
    else if WritesChannel(ins[n - 1].packet, sent, id) then sent(ins[n - 1].packet.channel).value
    else if id in ss[n - 1].channels then LatestOfChannel(ss, ins, sent, unset, id, n - 1)
    else unset
  }

  /** Name and description of a channel. */
  datatype Label = Label(name: string, info: ChannelInfo)

  const UNSET_CHANNEL := Label("", ChannelInfo("", None, 0, 0, false))

  function LabelOf(s: State, id: uint32): (l: Label) {
    if id in s.channels then Label(At(s, s.channels[id]).name, At(s, s.channels[id]).info) else UNSET_CHANNEL
  }

  predicate LabelFields(p: ChannelState, was: Label, now: Label) {
    ChannelFields(p, Labelled(was), Labelled(now))
  }

  function Labelled(l: Label): (r: ChannelRec) {
    NewChannelRec(0).(name := l.name, info := l.info)
  }

  ghost predicate ChannelField<T(!new)>(field: Label -> T, sent: ChannelState -> Option<T>) {
    forall p: ChannelState, was: Label, now: Label :: LabelFields(p, was, now) ==> Carried(sent(p), field(was), field(now))
  }

  lemma OwnLabel(s: State, t: State, id: uint32, p: ChannelState, made: Channel)
    requires ChannelSet(s, t, id, p, made)
    ensures LabelFields(p, LabelOf(s, id), LabelOf(t, id))
  {
  }

  lemma OtherLabel(s: State, t: State, j: uint32, p: ChannelState, made: Channel, id: uint32)
    requires Inv(s) && made !in s.chan && ChannelSet(s, t, j, p, made) && id != j
    ensures LabelOf(t, id) == LabelOf(s, id)
  {
    if id in s.channels {
      var c, d := (if j in s.channels then s.channels[j] else made), s.channels[id];
      assert Hung(s, id) && (j in s.channels ==> Hung(s, j));
      assert OtherSet(At(s, d), At(t, d), Live(s, d), c, j, p);
    }
  }

  lemma RemovalSameLabel(s: State, t: State, j: uint32, id: uint32)
    requires Inv(s) && j in s.channels && ChannelGone(s, t, j) && id in t.channels
    ensures LabelOf(t, id) == LabelOf(s, id)
  {
    assert Hung(s, id);
    assert Unhooked(At(s, s.channels[j]), At(s, s.channels[id]), At(t, s.channels[id]), s.channels[id], j);
  }

  lemma OnlyUsersSameLabel(s: State, t: State, id: uint32)
    requires Inv(s) && OnlyUsers(s, t)
    ensures LabelOf(t, id) == LabelOf(s, id)
  {
    if id in s.channels {
      assert Hung(s, id);
    }
  }

  lemma RemovalOfLabel(s: State, j: Option<uint32>, t: State, id: uint32)
    requires Inv(s) && t == HandleChannelRemove(s, j).state && id in t.channels
    ensures LabelOf(t, id) == LabelOf(s, id)
  {
    ChannelRemoved(s, j);
    if j.Some? && j.value in s.channels {
      RemovalSameLabel(s, t, j.value, id);
    }
  }

  lemma UpdateOfLabel(s: State, p: ChannelState, made: Channel, t: State, id: uint32)
    requires Inv(s) && made !in s.chan && t == HandleChannelState(s, p, made).state
    ensures if p.channelId == Some(id) then LabelFields(p, LabelOf(s, id), LabelOf(t, id)) else LabelOf(t, id) == LabelOf(s, id)
  {
    ChannelUpdated(s, p, made);
    if p.channelId.Some? {
      LabelAfter(s, t, p, made, id);
    }
  }

  lemma UserPacketSameLabel(s: State, i: Input, t: State, id: uint32)
    requires Inv(s) && Admissible(s, i) && t == Handle(s, i).state && (i.packet.UserRemove? || i.packet.UserUpdate?)
    ensures LabelOf(t, id) == LabelOf(s, id)
  {
    match i.packet
    case UserRemove(session, actor, reason, ban) =>
      UserRemoveOnlyUsers(s, session, actor, reason, ban);
      OnlyUsersSameLabel(s, t, id);
    case UserUpdate(p) =>
      UserStateOnlyUsers(s, p, i.user);
      OnlyUsersSameLabel(s, t, id);
  }

  lemma ClientPacketSameLabel(s: State, i: Input, t: State, id: uint32)
    requires t == Handle(s, i).state && (i.packet.PermissionQuery? || i.packet.ServerSync?)
    ensures LabelOf(t, id) == LabelOf(s, id)
  {
    if i.packet.PermissionQuery? {
      PermissionQueryFrame(s, i.packet.queried, i.packet.granted, Or(i.packet.flush, false), i.order);
    }
    assert t.chan == s.chan && t.channels == s.channels;
  }

  lemma StepOfLabel(s: State, i: Input, t: State, id: uint32)
    requires Inv(s) && Admissible(s, i) && t == Handle(s, i).state && id in t.channels
    ensures if i.packet.ChannelUpdate? && i.packet.channel.channelId == Some(id)
            then LabelFields(i.packet.channel, LabelOf(s, id), LabelOf(t, id)) else LabelOf(t, id) == LabelOf(s, id)
  {
    match i.packet {
      case ChannelRemove(j) => RemovalOfLabel(s, j, t, id);
      case ChannelUpdate(p) => UpdateOfLabel(s, p, i.channel, t, id);
      case UserRemove(_, _, _, _) => UserPacketSameLabel(s, i, t, id);
      case UserUpdate(_) => UserPacketSameLabel(s, i, t, id);
      case PermissionQuery(_, _, _) => ClientPacketSameLabel(s, i, t, id);
      case ServerSync(_) => ClientPacketSameLabel(s, i, t, id);
    }
  }

  lemma LabelAfter(s: State, t: State, p: ChannelState, made: Channel, id: uint32)
    requires Inv(s) && made !in s.chan && p.channelId.Some? && ChannelSet(s, t, p.channelId.value, p, made)
    ensures if p.channelId == Some(id) then LabelFields(p, LabelOf(s, id), LabelOf(t, id)) else LabelOf(t, id) == LabelOf(s, id)
  {
    if p.channelId == Some(id) {
      OwnLabel(s, t, id, p, made);
    } else {
      OtherLabel(s, t, p.channelId.value, p, made, id);
    }
  }

  lemma LabelCarried<T(!new)>(field: Label -> T, sent: ChannelState -> Option<T>, p: ChannelState, was: Label, now: Label)
    requires ChannelField(field, sent) && LabelFields(p, was, now)
    ensures Carried(sent(p), field(was), field(now))
  {
  }

  lemma StepOfChannelField<T(!new)>(s: State, i: Input, t: State, field: Label -> T, sent: ChannelState -> Option<T>, id: uint32)
    requires Inv(s) && StepsTo(s, i, t) && id in t.channels && ChannelField(field, sent)
    ensures field(LabelOf(t, id)) == if WritesChannel(i.packet, sent, id) then sent(i.packet.channel).value else field(LabelOf(s, id))
  {
    StepOfLabel(s, i, t, id);
    if i.packet.ChannelUpdate? && i.packet.channel.channelId == Some(id) {
      LabelCarried(field, sent, i.packet.channel, LabelOf(s, id), LabelOf(t, id));
    }
  }

  lemma {:induction false} ChannelFieldIsLatest<T(!new)>(ss: seq<State>, ins: seq<Input>, field: Label -> T, sent: ChannelState -> Option<T>, id: uint32, n: nat)
    requires Run(ss, ins) && n <= |ins| && id in ss[n].channels && ChannelField(field, sent)
    ensures field(LabelOf(ss[n], id)) == LatestOfChannel(ss, ins, sent, field(UNSET_CHANNEL), id, n)
  {
    if n > 0 {
      var j := n - 1;
      if id in ss[j].channels {
        ChannelFieldIsLatest(ss, ins, field, sent, id, j);
      }
      NextChannelField(ss, ins, field, sent, id, j, n);
    }
  }

  lemma NextChannelField<T(!new)>(ss: seq<State>, ins: seq<Input>, field: Label -> T, sent: ChannelState -> Option<T>, id: uint32, j: nat, n: nat)
    requires Run(ss, ins) && j < n == j + 1 <= |ins| && id in ss[n].channels && ChannelField(field, sent)
    requires id in ss[j].channels ==> field(LabelOf(ss[j], id)) == LatestOfChannel(ss, ins, sent, field(UNSET_CHANNEL), id, j)
    ensures field(LabelOf(ss[n], id)) == LatestOfChannel(ss, ins, sent, field(UNSET_CHANNEL), id, n)
  {
    RunStep(ss, ins, j, n);
    StepOfChannelField(ss[j], ins[j], ss[n], field, sent, id);
  }

  function SentChannelName(p: ChannelState): Option<string> { p.name }
  function SentMaxUsers(p: ChannelState): Option<uint32> { p.maxUsers }
  function SentPosition(p: ChannelState): Option<int> { p.position }
  function SentTemporary(p: ChannelState): Option<bool> { p.temporary }

  function SentDescription(p: ChannelState): Option<string> {
    if p.descriptionHash.Some? then Some("") else p.description
  }

  function SentDescriptionHash(p: ChannelState): Option<Option<seq<byte>>> {
    if p.descriptionHash.Some? then Some(p.descriptionHash) else if p.description.Some? then Some(None) else None
  }

  function LabelName(l: Label): string { l.name }
  function MaxUsersOf(l: Label): uint32 { l.info.maxUsers }
  function PositionOf(l: Label): int { l.info.position }
  function TemporaryOf(l: Label): bool { l.info.temporary }
  function DescriptionOf(l: Label): string { l.info.description }
  function DescriptionHashOf(l: Label): Option<seq<byte>> { l.info.descriptionHash }

  /** In every state of every run, what a channel shows is the latest sent for its id since it was created. */
  lemma ChannelIsLatest(ss: seq<State>, ins: seq<Input>, id: uint32, n: nat)
    requires Run(ss, ins) && n <= |ins| && id in ss[n].channels
    ensures var r := At(ss[n], ss[n].channels[id]);
      && r.name == LatestOfChannel(ss, ins, SentChannelName, "", id, n)
      && r.info.description == LatestOfChannel(ss, ins, SentDescription, "", id, n)
      && r.info.descriptionHash == LatestOfChannel(ss, ins, SentDescriptionHash, None, id, n)
      && r.info.maxUsers == LatestOfChannel(ss, ins, SentMaxUsers, 0, id, n)
      && r.info.position == LatestOfChannel(ss, ins, SentPosition, 0, id, n)
      && r.info.temporary == LatestOfChannel(ss, ins, SentTemporary, false, id, n)
  {
    ChannelFieldIsLatest(ss, ins, LabelName, SentChannelName, id, n);
    ChannelFieldIsLatest(ss, ins, DescriptionOf, SentDescription, id, n);
    ChannelFieldIsLatest(ss, ins, DescriptionHashOf, SentDescriptionHash, id, n);
    ChannelFieldIsLatest(ss, ins, MaxUsersOf, SentMaxUsers, id, n);
    ChannelFieldIsLatest(ss, ins, PositionOf, SentPosition, id, n);
    ChannelFieldIsLatest(ss, ins, TemporaryOf, SentTemporary, id, n);
  }
}
