/**
 * The client's mirror of the server: channels, users, links and cached permissions, as values.
 *
 * A State records the fields of every Channel and User object that exists, live or removed, so
 * pointers left behind in removed objects are part of it. Each handler of gumble/handlers.go is a
 * function on states; module MirrorClient proves the methods that update the objects against them.
 */
module Mirror {
  import opened Bytes

  class Channel {
    const id: uint32
    var name: string
    var parent: Channel?
    var children: map<uint32, Channel>
    var links: map<uint32, Channel>
    var users: map<uint32, User>
    var info: ChannelInfo
    var client: bool            // the pointer back to the Client is set

    constructor (id: uint32)
      ensures this.id == id && Rec() == NewChannelRec(id)
    {
      this.id := id;
      name, parent, children, links, users, info, client := "", null, map[], map[], map[], NO_CHANNEL_INFO, false;
    }

    /** An object that no handler knows. */
    ghost constructor Spare() {
      id := 0;
      name, parent, children, links, users, info, client := "", null, map[], map[], map[], NO_CHANNEL_INFO, false;
    }

    ghost function Rec(): ChannelRec
      reads this
    {
      ChannelRec(id, name, parent, children, links, users, info, client)
    }
  }

  class User {
    const session: uint32
    var channel: Channel?
    var info: UserInfo
    var client: bool

    constructor (session: uint32)
      ensures this.session == session && Rec() == NewUserRec(session)
    {
      this.session := session;
      channel, info, client := null, NO_USER_INFO, false;
    }

    ghost constructor Spare() {
      session := 0;
      channel, info, client := null, NO_USER_INFO, false;
    }

    ghost function Rec(): UserRec
      reads this
    {
      UserRec(session, channel, info, client)
    }
  }

  datatype ChannelInfo = ChannelInfo(description: string, descriptionHash: Option<seq<byte>>, maxUsers: uint32, position: int, temporary: bool)

  const NO_CHANNEL_INFO := ChannelInfo("", None, 0, 0, false)

  datatype AudioFlags = AudioFlags(muted: bool, deafened: bool, suppressed: bool, selfMuted: bool, selfDeafened: bool)

  datatype Blobs = Blobs(comment: string, commentHash: Option<seq<byte>>, texture: Option<seq<byte>>, textureHash: Option<seq<byte>>, hash: string)

  datatype UserInfo = UserInfo(name: string, userID: uint32, audio: AudioFlags, blobs: Blobs, prioritySpeaker: bool, recording: bool)

  const NO_USER_INFO := UserInfo("", 0, AudioFlags(false, false, false, false, false), Blobs("", None, None, None, ""), false, false)

  datatype ChannelRec = ChannelRec(id: uint32, name: string, parent: Channel?, children: map<uint32, Channel>,
                                   links: map<uint32, Channel>, users: map<uint32, User>, info: ChannelInfo, client: bool)

  datatype UserRec = UserRec(session: uint32, channel: Channel?, info: UserInfo, client: bool)

  function NewChannelRec(id: uint32): (r: ChannelRec) {
    ChannelRec(id, "", null, map[], map[], map[], NO_CHANNEL_INFO, false)
  }

  function NewUserRec(session: uint32): (r: UserRec) {
    UserRec(session, null, NO_USER_INFO, false)
  }

  datatype Disconnect = ByError | ByKick | ByBan

  /** `chan` and `user` hold the fields of every object; `channels` and `users` are the client's maps. */
  datatype State = State(chan: map<Channel, ChannelRec>, user: map<User, UserRec>,
                         channels: map<uint32, Channel>, users: map<uint32, User>,
                         permissions: map<uint32, uint32>, self: User?, synced: bool, disconnect: Disconnect)

  const START := State(map[], map[], map[], map[], map[], null, false, ByError)

  // ---- Packets ----

  datatype ChannelState = ChannelState(channelId: Option<uint32>, parent: Option<uint32>, name: Option<string>,
                                       links: seq<uint32>, linksAdd: seq<uint32>, linksRemove: seq<uint32>,
                                       description: Option<string>, temporary: Option<bool>, position: Option<int>,
                                       descriptionHash: Option<seq<byte>>, maxUsers: Option<uint32>)

  datatype UserState = UserState(session: Option<uint32>, actor: Option<uint32>, name: Option<string>, userId: Option<uint32>,
                                 channelId: Option<uint32>, mute: Option<bool>, deaf: Option<bool>, suppress: Option<bool>,
                                 selfMute: Option<bool>, selfDeaf: Option<bool>, texture: Option<seq<byte>>, comment: Option<string>,
                                 hash: Option<string>, commentHash: Option<seq<byte>>, textureHash: Option<seq<byte>>,
                                 prioritySpeaker: Option<bool>, recording: Option<bool>)

  datatype Packet =
    | ChannelRemove(channelId: Option<uint32>)
    | ChannelUpdate(channel: ChannelState)
    | UserRemove(session: Option<uint32>, actor: Option<uint32>, reason: Option<string>, ban: Option<bool>)
    | UserUpdate(user: UserState)
    | PermissionQuery(queried: Option<uint32>, granted: Option<uint32>, flush: Option<bool>)
    | ServerSync(me: Option<uint32>)

  // ---- What a packet's fields ask for ----

  /** A field after a packet: the packet's value if it has one, otherwise what it was. */
  predicate Carried<T(==)>(sent: Option<T>, was: T, now: T) {
    match sent
    case Some(v) => now == v
    case None => now == was
  }

  /** Contents and their hash: a hash in the packet empties the contents, contents alone unset the hash. */
  predicate CarriedText(sent: Option<string>, sentHash: Option<seq<byte>>, was: string, wasHash: Option<seq<byte>>,
                        now: string, nowHash: Option<seq<byte>>) {
    match (sentHash, sent)
    case (Some(h), _) => now == "" && nowHash == Some(h)
    case (None, Some(v)) => now == v && nowHash == None
    case (None, None) => now == was && nowHash == wasHash
  }

  /** The greatest id unregisters a known user that has another; a new user keeps it. */
  predicate CarriedId(sent: Option<uint32>, was: uint32, now: uint32, known: bool) {
    match sent
    case None => now == was
    case Some(v) => now == if known && v == 0xFFFF_FFFF && was != v then 0 else v
  }

  predicate CarriedTexture(p: UserState, was: Blobs, now: Blobs) {
    match (p.textureHash, p.texture)
    case (Some(h), _) => now.texture == None && now.textureHash == Some(h)
    case (None, Some(v)) => now.texture == Some(v) && now.textureHash == None
    case (None, None) => now.texture == was.texture && now.textureHash == was.textureHash
  }

  predicate CarriedIdentity(p: UserState, was: UserInfo, now: UserInfo, known: bool) {
    Carried(p.name, was.name, now.name) && CarriedId(p.userId, was.userID, now.userID, known)
  }

  predicate CarriedAudio(p: UserState, was: AudioFlags, now: AudioFlags) {
    && Carried(p.mute, was.muted, now.muted) && Carried(p.deaf, was.deafened, now.deafened)
    && Carried(p.suppress, was.suppressed, now.suppressed)
    && Carried(p.selfMute, was.selfMuted, now.selfMuted) && Carried(p.selfDeaf, was.selfDeafened, now.selfDeafened)
  }

  predicate CarriedBlobs(p: UserState, was: Blobs, now: Blobs) {
    && CarriedText(p.comment, p.commentHash, was.comment, was.commentHash, now.comment, now.commentHash)
    && CarriedTexture(p, was, now) && Carried(p.hash, was.hash, now.hash)
  }

  // ---- Events ----

  datatype ChannelChange = Created | Removed | Moved | ChannelName | Links | Description | Position | PermissionChanged | MaxUsers

  datatype UserChange = Connected | Disconnected | Kicked | Banned | Registered | Unregistered | UserName | InChannel | Comment | Audio | Texture | PrioritySpeaker | Recording

  datatype Event =
    | ChannelEvent(ctype: set<ChannelChange>, channel: Channel?)
    | UserEvent(utype: set<UserChange>, user: User, actor: User?, text: string)

  /**
   * A handler returns without or with an error, or never: it waits for the lock it already holds, or
   * panics, which ends the program.
   */
  datatype Outcome = Done(state: State, events: seq<Event>) | Failed(state: State) | Stuck(state: State) | Crashed(state: State)

  function Flag<T>(c: bool, x: T): (s: set<T>) {
    if c then {x} else {}
  }

  function Or<T>(x: Option<T>, y: T): (r: T) {
    if x.Some? then x.value else y
  }

  /** The packet has the field and it differs from the current value. */
  predicate Changes<T(==)>(x: Option<T>, y: T) {
    x.Some? && x.value != y
  }

  // ---- Fields of objects ----

  function At(s: State, c: Channel): (r: ChannelRec) {
    if c in s.chan then s.chan[c] else NewChannelRec(0)
  }

  function Who(s: State, u: User): (r: UserRec) {
    if u in s.user then s.user[u] else NewUserRec(0)
  }

  function Put(s: State, c: Channel, r: ChannelRec): (t: State) {
    s.(chan := s.chan[c := r])
  }

  function PutUser(s: State, u: User, r: UserRec): (t: State) {
    s.(user := s.user[u := r])
  }

  function Lookup(channels: map<uint32, Channel>, k: uint32): (c: Channel?) {
    if k in channels then channels[k] else null
  }

  function ChannelOf(s: State, k: uint32): (c: Channel?) {
    Lookup(s.channels, k)
  }

  function UserOf(s: State, k: uint32): (u: User?) {
    if k in s.users then s.users[k] else null
  }

  // ---- ChannelRemove ----

  /** Every channel the removed one links to forgets its id. */
  function ForgetLinks(chan: map<Channel, ChannelRec>, links: map<uint32, Channel>, id: uint32): (r: map<Channel, ChannelRec>) {
    map c | c in chan :: if c in links.Values then chan[c].(links := chan[c].links - {id}) else chan[c]
  }

  function Detached(s: State, c: Channel): (t: State) {
    var p := At(s, c).parent;
    if p == null then s else Put(s, p, At(s, p).(children := At(s, p).children - {At(s, c).id}))
  }

  function RemoveChannel(s: State, c: Channel): (t: State) {
    var id := At(s, c).id;
    var s1 := Put(s, c, At(s, c).(client := false)).(channels := s.channels - {id}, permissions := s.permissions - {id});
    var s2 := Detached(s1, c);
    s2.(chan := ForgetLinks(s2.chan, At(s2, c).links, id))
  }

  // ---- ChannelState ----

  function CreateChannel(s: State, id: uint32, c: Channel): (t: State) {
    Put(s, c, NewChannelRec(id).(client := true)).(channels := s.channels[id := c])
  }

  function Reparent(s: State, c: Channel, p: Channel?): (t: State) {
    var s1 := Detached(s, c);
    var s2 := Put(s1, c, At(s1, c).(parent := p));
    if p == null then s2 else Put(s2, p, At(s2, p).(children := At(s2, p).children[At(s2, c).id := c]))
  }

  /** The ids that name a channel, each with that channel. */
  function Resolved(channels: map<uint32, Channel>, ids: seq<uint32>): (r: map<uint32, Channel>) {
    map k | k in ids && k in channels :: channels[k]
  }

  function ReplaceLinks(s: State, c: Channel, ids: seq<uint32>): (t: State) {
    Put(s, c, At(s, c).(links := Resolved(s.channels, ids)))
  }

  function Link(s: State, c: Channel, k: uint32): (t: State) {
    if k !in s.channels then s else
      var d := s.channels[k];
      var s1 := Put(s, c, At(s, c).(links := At(s, c).links[k := d]));
      Put(s1, d, At(s1, d).(links := At(s1, d).links[At(s1, c).id := c]))
  }

  function Unlink(s: State, c: Channel, k: uint32): (t: State) {
    if k !in s.channels then s else
      var d := s.channels[k];
      var s1 := Put(s, c, At(s, c).(links := At(s, c).links - {k}));
      Put(s1, d, At(s1, d).(links := At(s1, d).links - {At(s1, c).id}))
  }

  function LinkAll(s: State, c: Channel, ids: seq<uint32>): (t: State) {
    if ids == [] then s else Link(LinkAll(s, c, ids[..|ids| - 1]), c, ids[|ids| - 1])
  }

  function UnlinkAll(s: State, c: Channel, ids: seq<uint32>): (t: State) {
    if ids == [] then s else Unlink(UnlinkAll(s, c, ids[..|ids| - 1]), c, ids[|ids| - 1])
  }

  function Described(i: ChannelInfo, p: ChannelState): (r: ChannelInfo) {
    ChannelInfo(
      if p.descriptionHash.Some? then "" else Or(p.description, i.description),
      if p.descriptionHash.Some? then p.descriptionHash else if p.description.Some? then None else i.descriptionHash,
      Or(p.maxUsers, i.maxUsers), Or(p.position, i.position), Or(p.temporary, i.temporary))
  }

  function Relinked(s: State, c: Channel, p: ChannelState): (t: State) {
    var s1 := if p.links == [] then s else ReplaceLinks(s, c, p.links);
    UnlinkAll(LinkAll(s1, c, p.linksAdd), c, p.linksRemove)
  }

  /** The channel with an id, created if there is none: the state, and the channel. */
  function Ensured(s: State, id: uint32, made: Channel): (t: State) {
    if id in s.channels then s else CreateChannel(s, id, made)
  }

  function Target(s: State, id: uint32, made: Channel): (c: Channel) {
    if id in s.channels then s.channels[id] else made
  }

  function Named(s: State, c: Channel, p: ChannelState): (t: State) {
    Put(s, c, At(s, c).(name := Or(p.name, At(s, c).name)))
  }

  function Noted(s: State, c: Channel, p: ChannelState): (t: State) {
    Put(s, c, At(s, c).(info := Described(At(s, c).info, p)))
  }

  function Placed(s: State, c: Channel, p: ChannelState): (t: State) {
    if p.parent.None? then s else Reparent(s, c, ChannelOf(s, p.parent.value))
  }

  function UpdateChannel(s: State, id: uint32, p: ChannelState, made: Channel): (t: State) {
    var s1, c := Ensured(s, id, made), Target(s, id, made);
    Noted(Relinked(Named(Placed(s1, c, p), c, p), c, p), c, p)
  }

  predicate Names(channels: map<uint32, Channel>, ids: seq<uint32>) {
    exists i :: 0 <= i < |ids| && ids[i] in channels
  }

  function ChannelChanges(s: State, id: uint32, p: ChannelState, made: Channel): (e: set<ChannelChange>) {
    var s1 := Ensured(s, id, made);
    Flag(id !in s.channels, Created) + RecordChanges(s1.channels, At(s1, Target(s, id, made)), p)
  }

  function RecordChanges(channels: map<uint32, Channel>, r: ChannelRec, p: ChannelState): (e: set<ChannelChange>) {
    MoveChange(channels, r.parent, p) + NameChange(r.name, p) + LinkChange(channels, p) + NoteChanges(r.info, p)
  }

  function MoveChange(channels: map<uint32, Channel>, was: Channel?, p: ChannelState): (e: set<ChannelChange>) {
    Flag(p.parent.Some? && Lookup(channels, p.parent.value) != was, Moved)
  }

  function NameChange(was: string, p: ChannelState): (e: set<ChannelChange>) {
    Flag(Changes(p.name, was), ChannelName)
  }

  function LinkChange(channels: map<uint32, Channel>, p: ChannelState): (e: set<ChannelChange>) {
    Flag(p.links != [] || Names(channels, p.linksAdd) || Names(channels, p.linksRemove), Links)
  }

  function NoteChanges(i: ChannelInfo, p: ChannelState): (e: set<ChannelChange>) {
    Flag(Changes(p.description, i.description) || p.descriptionHash.Some?, Description)
    + Flag(Changes(p.position, i.position), Position)
    + Flag(p.maxUsers.Some?, MaxUsers)
  }

  // ---- UserRemove ----

  function Left(s: State, u: User): (t: State) {
    var c := Who(s, u).channel;
    if c == null then s else Put(s, c, At(s, c).(users := At(s, c).users - {Who(s, u).session}))
  }

  function RemoveUser(s: State, u: User, banned: bool): (t: State) {
    var s1 := Left(PutUser(s, u, Who(s, u).(client := false)), u);
    s1.(users := s1.users - {Who(s, u).session},
        disconnect := if s.self == u then (if banned then ByBan else ByKick) else s.disconnect)
  }

  // ---- UserState ----

  function CreateUser(s: State, session: uint32, u: User): (t: State) {
    PutUser(s, u, NewUserRec(session).(channel := ChannelOf(s, 0), client := true)).(users := s.users[session := u])
  }

  /** Entering the channel the user is in: `user.Channel.Users[session] = user`. */
  function Entered(s: State, u: User): (t: State) {
    var c := Who(s, u).channel;
    if c == null then s else Put(s, c, At(s, c).(users := At(s, c).users[Who(s, u).session := u]))
  }

  function MoveUser(s: State, u: User, c: Channel): (t: State) {
    var s1 := Left(s, u);
    Entered(PutUser(s1, u, Who(s1, u).(channel := c)), u)
  }

  const MAX_UINT32: uint32 := 0xFFFF_FFFF

  function Identified(i: UserInfo, p: UserState, connected: bool): (r: UserInfo) {
    i.(name := Or(p.name, i.name),
       userID := if p.userId == Some(MAX_UINT32) && i.userID != MAX_UINT32 && !connected then 0 else Or(p.userId, i.userID))
  }

  function IdentityChanges(i: UserInfo, p: UserState, connected: bool): (e: set<UserChange>) {
    Flag(Changes(p.name, i.name), UserName)
    + Flag(Changes(p.userId, i.userID) && !connected, if p.userId == Some(MAX_UINT32) then Unregistered else Registered)
  }

  function Heard(a: AudioFlags, p: UserState): (r: AudioFlags) {
    AudioFlags(Or(p.mute, a.muted), Or(p.deaf, a.deafened), Or(p.suppress, a.suppressed), Or(p.selfMute, a.selfMuted), Or(p.selfDeaf, a.selfDeafened))
  }

  /** Contents and hash of the comment and of the texture displace each other; a hash in the packet wins. */
  function Filed(b: Blobs, p: UserState): (r: Blobs) {
    Blobs(
      if p.commentHash.Some? then "" else Or(p.comment, b.comment),
      if p.commentHash.Some? then p.commentHash else if p.comment.Some? then None else b.commentHash,
      if p.textureHash.Some? then None else if p.texture.Some? then p.texture else b.texture,
      if p.textureHash.Some? then p.textureHash else if p.texture.Some? then None else b.textureHash,
      Or(p.hash, b.hash))
  }

  function Detailed(i: UserInfo, p: UserState): (r: UserInfo) {
    UserInfo(i.name, i.userID, Heard(i.audio, p), Filed(i.blobs, p), Or(p.prioritySpeaker, i.prioritySpeaker), Or(p.recording, i.recording))
  }

  predicate AudioChanges(a: AudioFlags, p: UserState) {
    Changes(p.mute, a.muted) || Changes(p.deaf, a.deafened) || Changes(p.suppress, a.suppressed) || Changes(p.selfMute, a.selfMuted) || Changes(p.selfDeaf, a.selfDeafened)
  }

  predicate TextureChanges(p: UserState) {
    p.texture.Some? || p.textureHash.Some?
  }

  predicate CommentChanges(b: Blobs, p: UserState) {
    Changes(p.comment, b.comment) || p.commentHash.Some?
  }

  function DetailChanges(i: UserInfo, p: UserState): (e: set<UserChange>) {
    Flag(AudioChanges(i.audio, p), Audio) + Flag(TextureChanges(p), Texture) + Flag(CommentChanges(i.blobs, p), Comment)
    + Flag(Changes(p.prioritySpeaker, i.prioritySpeaker), PrioritySpeaker)
    + Flag(Changes(p.recording, i.recording), Recording)
  }

  function WithInfo(s: State, u: User, i: UserInfo): (t: State) {
    PutUser(s, u, Who(s, u).(info := i))
  }

  function EnterRoot(s: State, session: uint32, made: User): (t: State) {
    Entered(CreateUser(s, session, made), made)
  }

  /** A user with an unknown session is created in the root channel, if there is one. */
  function Arrived(s: State, session: uint32, made: User): (t: State) {
    if session in s.users then s else EnterRoot(s, session, made)
  }

  /** Leaving the old channel and entering the packet's, if it exists. */
  function Rehoused(s: State, u: User, p: UserState): (t: State) {
    if p.channelId.None? then s
    else if p.channelId.value in s.channels then MoveUser(s, u, s.channels[p.channelId.value])
    else Left(s, u)
  }

  predicate Homeless(channels: map<uint32, Channel>, p: UserState) {
    p.channelId.Some? && p.channelId.value !in channels
  }

  /** The part of the handler after the user and the actor are known. */
  function UpdateUser(s: State, u: User, p: UserState, connected: bool): (t: State) {
    var s1 := WithInfo(s, u, Identified(Who(s, u).info, p, connected));
    var s2 := Rehoused(s1, u, p);
    if Homeless(s.channels, p) then s2 else WithInfo(s2, u, Detailed(Who(s2, u).info, p))
  }

  function HouseChange(channels: map<uint32, Channel>, was: Channel?, p: UserState): (e: set<UserChange>) {
    Flag(p.channelId.Some? && Lookup(channels, p.channelId.value) != was, InChannel)
  }

  function UpdateChanges(channels: map<uint32, Channel>, r: UserRec, p: UserState, connected: bool): (e: set<UserChange>) {
    IdentityChanges(r.info, p, connected) + HouseChange(channels, r.channel, p) + DetailChanges(r.info, p)
  }

  function UserChanges(s: State, u: User, p: UserState, connected: bool): (e: set<UserChange>) {
    (if connected then {Connected, InChannel} else {}) + UpdateChanges(s.channels, Who(s, u), p, connected)
  }

  // ---- The handlers ----

  function Told(s: State, t: State, e: Event): (o: Outcome) {
    Done(t, if s.synced then [e] else [])
  }

  function HandleChannelRemove(s: State, channelId: Option<uint32>): (o: Outcome) {
    if channelId.None? || channelId.value !in s.channels then Failed(s) else
      var c := s.channels[channelId.value];
      Told(s, RemoveChannel(s, c), ChannelEvent({Removed}, c))
  }

  function HandleChannelState(s: State, p: ChannelState, made: Channel): (o: Outcome) {
    if p.channelId.None? then Failed(s) else
      var id := p.channelId.value;
      Told(s, UpdateChannel(s, id, p, made), ChannelEvent(ChannelChanges(s, id, p, made), Target(s, id, made)))
  }

  function HandleUserRemove(s: State, session: Option<uint32>, actor: Option<uint32>, reason: Option<string>, ban: Option<bool>): (o: Outcome) {
    if session.None? || session.value !in s.users || (actor.Some? && actor.value !in s.users) then Failed(s) else
      var u := s.users[session.value];
      var banned := Or(ban, false);
      Told(s, RemoveUser(s, u, banned),
           UserEvent({Disconnected} + Flag(actor.Some?, Kicked) + Flag(banned, Banned), u,
                     if actor.Some? then s.users[actor.value] else null, Or(reason, "")))
  }

  function HandleUserState(s: State, p: UserState, made: User): (o: Outcome) {
    if p.session.None? then Failed(s) else
      var s1 := Arrived(s, p.session.value, made);
      Continued(s1, s1.users[p.session.value], p, p.session.value !in s.users)
  }

  /** The handler once the user is registered. */
  function Continued(s: State, u: User, p: UserState, connected: bool): (o: Outcome) {
    if (connected && 0 !in s.channels) || (p.actor.Some? && p.actor.value !in s.users) then Failed(s)
    else if Homeless(s.channels, p) then Stuck(UpdateUser(s, u, p, connected))
    else Told(s, UpdateUser(s, u, p, connected),
              UserEvent(UserChanges(s, u, p, connected), u, if p.actor.Some? then s.users[p.actor.value] else null, ""))
  }

  /** The handler ends by closing a channel, which a second ServerSync finds closed. */
  function HandleServerSync(s: State, me: Option<uint32>): (o: Outcome) {
    var t := s.(self := if me.Some? then UserOf(s, me.value) else s.self, synced := true);
    if s.synced then Crashed(t) else Done(t, [])
  }

  // ---- PermissionQuery ----

  /** The order in which a flush visits the cached ids is any enumeration of them. */
  predicate Enumerates(order: seq<uint32>, keys: set<uint32>) {
    && (forall i :: 0 <= i < |order| ==> order[i] in keys)
    && (forall k :: k in keys ==> k in order)
    && (forall i, j :: 0 <= i < j < |order| ==> order[i] != order[j])
  }

  function LookupAll(channels: map<uint32, Channel>, ids: seq<uint32>): (r: seq<Channel?>) {
    seq(|ids|, i requires 0 <= i < |ids| => Lookup(channels, ids[i]))
  }

  function Reported(changed: seq<Channel?>): (e: seq<Event>) {
    seq(|changed|, i requires 0 <= i < |changed| => ChannelEvent({PermissionChanged}, changed[i]))
  }

  function HandlePermissionQuery(s: State, channelId: Option<uint32>, granted: Option<uint32>, flush: bool, order: seq<uint32>): (o: Outcome) {
    var single := channelId.Some? && granted.Some?;
    if single && channelId.value !in s.channels then Failed(s) else
      var cache := if flush then map[] else s.permissions;
      var changed := if flush then LookupAll(s.channels, order) else [];
      if single then
        var c := s.channels[channelId.value];
        Done(s.(permissions := cache[At(s, c).id := granted.value]), Reported(changed + [c]))
      else Done(s.(permissions := cache), Reported(changed))
  }

  // ---- Runs ----

  /** A packet, the objects its handler allocates if it needs them, and the order its flush takes. */
  datatype Input = Input(packet: Packet, channel: Channel, user: User, order: seq<uint32>)

  function Handle(s: State, i: Input): (o: Outcome) {
    match i.packet
    case ChannelRemove(id) => HandleChannelRemove(s, id)
    case ChannelUpdate(p) => HandleChannelState(s, p, i.channel)
    case UserRemove(session, actor, reason, ban) => HandleUserRemove(s, session, actor, reason, ban)
    case UserUpdate(p) => HandleUserState(s, p, i.user)
    case PermissionQuery(id, granted, flush) => HandlePermissionQuery(s, id, granted, Or(flush, false), i.order)
    case ServerSync(me) => HandleServerSync(s, me)
  }

  /** The objects are new and the order enumerates the cache. */
  predicate Admissible(s: State, i: Input) {
    i.channel !in s.chan && i.user !in s.user && Enumerates(i.order, s.permissions.Keys)
  }

  /** A run of handlers that return; the read loop goes on after one that returns an error. */
  predicate Run(ss: seq<State>, ins: seq<Input>) {
    && |ss| == |ins| + 1
    && ss[0] == START
    && forall i :: 0 <= i < |ins| ==> StepsTo(ss[i], ins[i], ss[i + 1])
  }

  predicate StepsTo(s: State, i: Input, t: State) {
    Admissible(s, i) && (Handle(s, i).Done? || Handle(s, i).Failed?) && Handle(s, i).state == t
  }
}
