/**
 * What every run of the mirror's handlers keeps: who is in which channel, the channel tree, the
 * back pointers of removed channels and the permission cache.
 */
module MirrorInv {
  import opened Bytes
  import opened Mirror

  // ---- Membership ----

  /** The user registered under a session is the one its channel holds under that session. */
  ghost predicate Housed(s: State, k: uint32)
    requires k in s.users
  {
    var u := s.users[k];
    var c := Who(s, u).channel;
    && u in s.user && Who(s, u).session == k
    && (c == null || (c in s.chan && k in At(s, c).users && At(s, c).users[k] == u))
  }

  /** An entry of a channel's user map is a connected user whose channel is that one. */
  ghost predicate Resident(s: State, c: Channel, k: uint32)
    requires k in At(s, c).users
  {
    k in s.users && At(s, c).users[k] == s.users[k] && Who(s, s.users[k]).channel == c
  }

  ghost predicate Membership(s: State) {
    && (forall k :: k in s.users ==> Housed(s, k))
    && (forall c, k :: c in s.chan && k in At(s, c).users ==> Resident(s, c, k))
  }

  // ---- The tree ----

  /** The channel registered under an id has that id and is its parent's child under it. */
  ghost predicate Hung(s: State, k: uint32)
    requires k in s.channels
  {
    var c := s.channels[k];
    var p := At(s, c).parent;
    && c in s.chan && At(s, c).id == k
    && (p == null || (p in s.chan && k in At(s, p).children && At(s, p).children[k] == c))
  }

  /** An entry of a channel's child map is a live channel whose parent is that one. */
  ghost predicate Child(s: State, c: Channel, k: uint32)
    requires k in At(s, c).children
  {
    k in s.channels && At(s, c).children[k] == s.channels[k] && At(s, s.channels[k]).parent == c
  }

  ghost predicate Tree(s: State) {
    && (forall k :: k in s.channels ==> Hung(s, k))
    && (forall c, k :: c in s.chan && k in At(s, c).children ==> Child(s, c, k))
    && (forall c :: c in s.chan ==> ParentExists(s, c))
  }

  predicate ParentExists(s: State, c: Channel) {
    At(s, c).parent == null || At(s, c).parent in s.chan
  }

  // ---- Back pointers and the cache ----

  predicate Live(s: State, c: Channel) {
    At(s, c).id in s.channels && s.channels[At(s, c).id] == c
  }

  ghost predicate Flagged(s: State) {
    forall c :: c in s.chan ==> (At(s, c).client <==> Live(s, c))
  }

  ghost predicate Known(s: State, u: User) {
    Who(s, u).session in s.users && s.users[Who(s, u).session] == u
  }

  ghost predicate UsersFlagged(s: State) {
    forall u :: u in s.user ==> (Who(s, u).client <==> Known(s, u))
  }

  ghost predicate Inv(s: State) {
    Membership(s) && Tree(s) && Flagged(s) && UsersFlagged(s) && s.permissions.Keys <= s.channels.Keys
  }

  // ---- What each part does not touch ----

  ghost predicate SameTree(s: State, t: State) {
    && t.channels == s.channels && t.permissions == s.permissions && t.chan.Keys == s.chan.Keys
    && forall c :: c in s.chan ==> SameNode(At(s, c), At(t, c))
  }

  predicate SameNode(r: ChannelRec, q: ChannelRec) {
    q.id == r.id && q.parent == r.parent && q.children == r.children && q.client == r.client
  }

  ghost predicate SameMembers(s: State, t: State) {
    && t.users == s.users && t.user == s.user && t.chan.Keys == s.chan.Keys
    && t.self == s.self && t.synced == s.synced && t.disconnect == s.disconnect
    && forall c :: c in s.chan ==> At(t, c).users == At(s, c).users
  }

  lemma SameTreeKeepsTree(s: State, t: State)
    requires Tree(s) && Flagged(s) && SameTree(s, t)
    ensures Tree(t) && Flagged(t)
  {
    forall k | k in t.channels ensures Hung(t, k) {
      assert Hung(s, k) && SameNode(At(s, s.channels[k]), At(t, s.channels[k]));
    }
    forall c, k | c in t.chan && k in At(t, c).children ensures Child(t, c, k) {
      assert SameNode(At(s, c), At(t, c)) && Child(s, c, k) && Hung(s, k);
      assert SameNode(At(s, s.channels[k]), At(t, s.channels[k]));
    }
    forall c | c in t.chan ensures (At(t, c).client <==> Live(t, c)) && ParentExists(t, c) {
      assert SameNode(At(s, c), At(t, c)) && ParentExists(s, c);
    }
  }

  lemma SameMembersKeepsMembership(s: State, t: State)
    requires Membership(s) && SameMembers(s, t)
    ensures Membership(t)
  {
    forall k | k in t.users ensures Housed(t, k) {
      assert Housed(s, k);
    }
    forall c, k | c in t.chan && k in At(t, c).users ensures Resident(t, c, k) {
      assert Resident(s, c, k);
    }
  }

  // ---- Channels ----

  lemma CreateChannelKeepsMembership(s: State, t: State, id: uint32, c: Channel)
    requires Membership(s) && c !in s.chan && t == CreateChannel(s, id, c)
    ensures Membership(t)
  {
    forall k | k in t.users ensures Housed(t, k) {
      assert Housed(s, k);
    }
    forall d, k | d in t.chan && k in At(t, d).users ensures Resident(t, d, k) {
      assert d != c && Resident(s, d, k);
    }
  }

  lemma CreateChannelKeepsChild(s: State, t: State, id: uint32, c: Channel, d: Channel, k: uint32)
    requires Tree(s) && c !in s.chan && id !in s.channels && t == CreateChannel(s, id, c) && d in t.chan && k in At(t, d).children
    ensures Child(t, d, k)
  {
    assert d != c && Child(s, d, k) && Hung(s, k);
  }

  lemma CreateChannelKeepsTree(s: State, t: State, id: uint32, c: Channel)
    requires Tree(s) && c !in s.chan && id !in s.channels && t == CreateChannel(s, id, c)
    ensures Tree(t)
  {
    forall k | k in t.channels ensures Hung(t, k) {
      assert k != id ==> Hung(s, k);
    }
    forall d, k | d in t.chan && k in At(t, d).children ensures Child(t, d, k) {
      CreateChannelKeepsChild(s, t, id, c, d, k);
    }
    forall d | d in t.chan ensures ParentExists(t, d) {
      assert d in s.chan ==> ParentExists(s, d);
    }
  }

  lemma CreateChannelKeepsFlags(s: State, t: State, id: uint32, c: Channel)
    requires Flagged(s) && c !in s.chan && id !in s.channels && t == CreateChannel(s, id, c)
    ensures Flagged(t)
  {
    forall d | d in t.chan ensures At(t, d).client <==> Live(t, d) {
      assert d != c ==> At(t, d) == At(s, d);
    }
  }

  lemma CreateChannelKeepsInv(s: State, id: uint32, c: Channel)
    requires Inv(s) && c !in s.chan && id !in s.channels
    ensures Inv(CreateChannel(s, id, c))
  {
    CreateChannelKeepsMembership(s, CreateChannel(s, id, c), id, c);
    CreateChannelKeepsTree(s, CreateChannel(s, id, c), id, c);
    CreateChannelKeepsFlags(s, CreateChannel(s, id, c), id, c);
  }

  /** Child maps after a channel has moved from its parent to `p`. */
  function ChildrenAfter(s: State, c: Channel, p: Channel?, d: Channel): (m: map<uint32, Channel>) {
    var m := if d == At(s, c).parent then At(s, d).children - {At(s, c).id} else At(s, d).children;
    if d == p then m[At(s, c).id := c] else m
  }

  ghost predicate Moves(s: State, t: State, c: Channel, p: Channel?) {
    && t.channels == s.channels && t.permissions == s.permissions && t.chan.Keys == s.chan.Keys
    && forall d :: d in s.chan ==>
      && At(t, d).id == At(s, d).id && At(t, d).client == At(s, d).client
      && At(t, d).parent == (if d == c then p else At(s, d).parent)
      && At(t, d).children == ChildrenAfter(s, c, p, d)
  }

  lemma PutAt(s: State, c: Channel, r: ChannelRec)
    requires c in s.chan
    ensures Put(s, c, r).chan.Keys == s.chan.Keys
    ensures forall d :: d in s.chan ==> At(Put(s, c, r), d) == if d == c then r else At(s, d)
  {
  }

  lemma DetachedAt(s: State, c: Channel, d: Channel)
    requires c in s.chan && d in s.chan && (At(s, c).parent == null || At(s, c).parent in s.chan)
    ensures At(Detached(s, c), d) == At(s, d).(children := ChildrenAfter(s, c, null, d))
    ensures Detached(s, c).chan.Keys == s.chan.Keys
  {
    var p := At(s, c).parent;
    if p != null {
      PutAt(s, p, At(s, p).(children := At(s, p).children - {At(s, c).id}));
    }
  }

  lemma ReparentAt(s: State, c: Channel, p: Channel?, d: Channel)
    requires c in s.chan && d in s.chan && (p == null || p in s.chan) && (At(s, c).parent == null || At(s, c).parent in s.chan)
    ensures At(Reparent(s, c, p), d) == At(s, d).(parent := if d == c then p else At(s, d).parent, children := ChildrenAfter(s, c, p, d))
    ensures Reparent(s, c, p).chan.Keys == s.chan.Keys
  {
    DetachedAt(s, c, c);
    DetachedAt(s, c, d);
    var s1 := Detached(s, c);
    var r := At(s1, c).(parent := p);
    PutAt(s1, c, r);
    var s2 := Put(s1, c, r);
    if p != null {
      DetachedAt(s, c, p);
      PutAt(s2, p, At(s2, p).(children := At(s2, p).children[At(s2, c).id := c]));
    }
  }

  lemma ReparentMoves(s: State, c: Channel, p: Channel?)
    requires c in s.chan && (p == null || p in s.chan) && (At(s, c).parent == null || At(s, c).parent in s.chan)
    ensures Moves(s, Reparent(s, c, p), c, p) && SameMembers(s, Reparent(s, c, p))
  {
    var t := Reparent(s, c, p);
    ReparentAt(s, c, p, c);
    forall d | d in s.chan
      ensures At(t, d) == At(s, d).(parent := if d == c then p else At(s, d).parent, children := ChildrenAfter(s, c, p, d))
    {
      ReparentAt(s, c, p, d);
    }
  }

  lemma MovesKeepsChild(s: State, t: State, c: Channel, p: Channel?, d: Channel, k: uint32)
    requires Tree(s) && Moves(s, t, c, p) && c in s.chan && Live(s, c) && d in s.chan && k in At(t, d).children
    ensures Child(t, d, k)
  {
    if !(d == p && k == At(s, c).id) {
      assert k in At(s, d).children && Child(s, d, k) && Hung(s, k) && Hung(s, At(s, c).id);
      assert s.channels[k] != c;
    }
  }

  lemma MovesKeepsHung(s: State, t: State, c: Channel, p: Channel?, k: uint32)
    requires Tree(s) && Moves(s, t, c, p) && c in s.chan && Live(s, c) && (p == null || p in s.chan) && k in s.channels
    ensures Hung(t, k)
  {
    assert Hung(s, k) && Hung(s, At(s, c).id);
  }

  lemma MovesKeepsTree(s: State, t: State, c: Channel, p: Channel?)
    requires Tree(s) && Flagged(s) && Moves(s, t, c, p) && c in s.chan && Live(s, c) && (p == null || p in s.chan)
    ensures Tree(t) && Flagged(t)
  {
    forall k | k in t.channels ensures Hung(t, k) {
      MovesKeepsHung(s, t, c, p, k);
    }
    forall d, k | d in t.chan && k in At(t, d).children ensures Child(t, d, k) {
      MovesKeepsChild(s, t, c, p, d, k);
    }
    forall d | d in t.chan ensures ParentExists(t, d) {
      assert ParentExists(s, d);
    }
  }

  lemma ReparentKeepsInv(s: State, c: Channel, p: Channel?)
    requires Inv(s) && c in s.chan && Live(s, c) && (p == null || p in s.chan)
    ensures Inv(Reparent(s, c, p))
  {
    var t := Reparent(s, c, p);
    assert Hung(s, At(s, c).id);
    ReparentMoves(s, c, p);
    MovesKeepsTree(s, t, c, p);
    SameMembersKeepsMembership(s, t);
  }

  // ---- Removing a channel ----

  ghost predicate Removes(s: State, t: State, c: Channel) {
    && t.channels == s.channels - {At(s, c).id} && t.permissions == s.permissions - {At(s, c).id} && t.chan.Keys == s.chan.Keys
    && forall d :: d in s.chan ==>
      && At(t, d).id == At(s, d).id && At(t, d).client == (d != c && At(s, d).client)
      && At(t, d).parent == At(s, d).parent
      && At(t, d).children == ChildrenAfter(s, c, null, d)
  }

  lemma RemoveChannelAt(s: State, c: Channel, d: Channel)
    requires c in s.chan && d in s.chan && (At(s, c).parent == null || At(s, c).parent in s.chan)
    ensures At(RemoveChannel(s, c), d) ==
            At(s, d).(client := d != c && At(s, d).client,
                      children := ChildrenAfter(s, c, null, d),
                      links := if d in At(s, c).links.Values then At(s, d).links - {At(s, c).id} else At(s, d).links)
    ensures RemoveChannel(s, c).chan.Keys == s.chan.Keys
  {
    var r := At(s, c).(client := false);
    PutAt(s, c, r);
    var s1 := Put(s, c, r).(channels := s.channels - {At(s, c).id}, permissions := s.permissions - {At(s, c).id});
    DetachedAt(s1, c, c);
    DetachedAt(s1, c, d);
  }

  lemma RemoveChannelRemoves(s: State, c: Channel)
    requires c in s.chan && (At(s, c).parent == null || At(s, c).parent in s.chan)
    ensures Removes(s, RemoveChannel(s, c), c) && SameMembers(s, RemoveChannel(s, c))
  {
    var t := RemoveChannel(s, c);
    RemoveChannelAt(s, c, c);
    forall d | d in s.chan
      ensures At(t, d).id == At(s, d).id && At(t, d).client == (d != c && At(s, d).client)
      ensures At(t, d).parent == At(s, d).parent && At(t, d).children == ChildrenAfter(s, c, null, d)
      ensures At(t, d).users == At(s, d).users
    {
      RemoveChannelAt(s, c, d);
    }
  }

  lemma RemovesKeepsChild(s: State, t: State, c: Channel, d: Channel, k: uint32)
    requires Tree(s) && Removes(s, t, c) && c in s.chan && Live(s, c) && d in s.chan && k in At(t, d).children
    ensures Child(t, d, k)
  {
    assert k in At(s, d).children && Child(s, d, k) && Hung(s, k) && Hung(s, At(s, c).id);
  }

  lemma RemovesKeepsTree(s: State, t: State, c: Channel)
    requires Tree(s) && Flagged(s) && Removes(s, t, c) && c in s.chan && Live(s, c)
    ensures Tree(t) && Flagged(t)
  {
    forall k | k in t.channels ensures Hung(t, k) {
      assert Hung(s, k) && Hung(s, At(s, c).id);
    }
    forall d, k | d in t.chan && k in At(t, d).children ensures Child(t, d, k) {
      RemovesKeepsChild(s, t, c, d, k);
    }
    forall d | d in t.chan ensures ParentExists(t, d) {
      assert ParentExists(s, d);
    }
  }

  lemma RemoveChannelKeepsInv(s: State, c: Channel)
    requires Inv(s) && c in s.chan && Live(s, c)
    ensures Inv(RemoveChannel(s, c))
  {
    var t := RemoveChannel(s, c);
    assert Hung(s, At(s, c).id);
    RemoveChannelRemoves(s, c);
    RemovesKeepsTree(s, t, c);
    SameMembersKeepsMembership(s, t);
  }

  // ---- Links, names and descriptions ----

  ghost predicate SameStructure(s: State, t: State) {
    SameTree(s, t) && SameMembers(s, t)
  }

  lemma PutFrame(s0: State, s: State, c: Channel, r: ChannelRec)
    requires SameStructure(s0, s) && c in s.chan && SameNode(At(s, c), r) && r.users == At(s, c).users
    ensures SameStructure(s0, Put(s, c, r))
  {
    PutAt(s, c, r);
    forall d | d in s0.chan ensures SameNode(At(s0, d), At(Put(s, c, r), d)) {
      assert SameNode(At(s0, d), At(s, d));
    }
  }

  lemma LinkFrame(s0: State, s: State, c: Channel, k: uint32)
    requires Tree(s0) && SameStructure(s0, s) && c in s.chan
    ensures SameStructure(s0, Link(s, c, k))
  {
    if k in s.channels {
      assert Hung(s0, k);
      var d := s.channels[k];
      var r := At(s, c).(links := At(s, c).links[k := d]);
      PutFrame(s0, s, c, r);
      var s1 := Put(s, c, r);
      PutFrame(s0, s1, d, At(s1, d).(links := At(s1, d).links[At(s1, c).id := c]));
    }
  }

  lemma UnlinkFrame(s0: State, s: State, c: Channel, k: uint32)
    requires Tree(s0) && SameStructure(s0, s) && c in s.chan
    ensures SameStructure(s0, Unlink(s, c, k))
  {
    if k in s.channels {
      assert Hung(s0, k);
      var d := s.channels[k];
      var r := At(s, c).(links := At(s, c).links - {k});
      PutFrame(s0, s, c, r);
      var s1 := Put(s, c, r);
      PutFrame(s0, s1, d, At(s1, d).(links := At(s1, d).links - {At(s1, c).id}));
    }
  }

  lemma {:induction false} LinkAllFrame(s0: State, s: State, c: Channel, ids: seq<uint32>)
    requires Tree(s0) && SameStructure(s0, s) && c in s.chan
    ensures SameStructure(s0, LinkAll(s, c, ids)) && SameStructure(s0, UnlinkAll(s, c, ids))
  {
    if ids != [] {
      LinkAllFrame(s0, s, c, ids[..|ids| - 1]);
      LinkFrame(s0, LinkAll(s, c, ids[..|ids| - 1]), c, ids[|ids| - 1]);
      UnlinkFrame(s0, UnlinkAll(s, c, ids[..|ids| - 1]), c, ids[|ids| - 1]);
    }
  }

  lemma RelinkedFrame(s0: State, s: State, c: Channel, p: ChannelState)
    requires Tree(s0) && SameStructure(s0, s) && c in s.chan
    ensures SameStructure(s0, Relinked(s, c, p))
  {
    var s1 := if p.links == [] then s else ReplaceLinks(s, c, p.links);
    PutFrame(s0, s, c, At(s, c).(links := Resolved(s.channels, p.links)));
    LinkAllFrame(s0, s1, c, p.linksAdd);
    LinkAllFrame(s0, LinkAll(s1, c, p.linksAdd), c, p.linksRemove);
  }

  lemma NotedFrame(s0: State, s: State, c: Channel, p: ChannelState)
    requires SameStructure(s0, s) && c in s.chan
    ensures SameStructure(s0, Named(s, c, p)) && SameStructure(s0, Noted(s, c, p))
  {
    PutFrame(s0, s, c, At(s, c).(name := Or(p.name, At(s, c).name)));
    PutFrame(s0, s, c, At(s, c).(info := Described(At(s, c).info, p)));
  }

  lemma SameStructureKeepsInv(s: State, t: State)
    requires Inv(s) && SameStructure(s, t)
    ensures Inv(t)
  {
    SameTreeKeepsTree(s, t);
    SameMembersKeepsMembership(s, t);
  }

  lemma EnsuredKeepsInv(s: State, id: uint32, made: Channel)
    requires Inv(s) && (made !in s.chan || id in s.channels)
    ensures Inv(Ensured(s, id, made))
    ensures Target(s, id, made) in Ensured(s, id, made).chan && Live(Ensured(s, id, made), Target(s, id, made))
    ensures At(Ensured(s, id, made), Target(s, id, made)).id == id
  {
    if id in s.channels {
      assert Hung(s, id);
    } else {
      CreateChannelKeepsInv(s, id, made);
    }
  }

  lemma PlacedMoves(s: State, c: Channel, p: ChannelState)
    requires Inv(s) && c in s.chan && Live(s, c)
    ensures Inv(Placed(s, c, p)) && SameMembers(s, Placed(s, c, p))
    ensures p.parent.None? ==> Placed(s, c, p) == s
    ensures p.parent.Some? ==> Moves(s, Placed(s, c, p), c, ChannelOf(s, p.parent.value))
  {
    if p.parent.Some? {
      assert p.parent.value in s.channels ==> Hung(s, p.parent.value);
      assert Hung(s, At(s, c).id);
      ReparentKeepsInv(s, c, ChannelOf(s, p.parent.value));
      ReparentMoves(s, c, ChannelOf(s, p.parent.value));
    }
  }

  /** After the channel is created and placed, the rest of the handler leaves tree and members alone. */
  lemma UpdateChannelStructure(s: State, id: uint32, p: ChannelState, made: Channel)
    requires Inv(s) && (made !in s.chan || id in s.channels)
    ensures SameStructure(Placed(Ensured(s, id, made), Target(s, id, made), p), UpdateChannel(s, id, p, made))
  {
    var s1, c := Ensured(s, id, made), Target(s, id, made);
    EnsuredKeepsInv(s, id, made);
    PlacedMoves(s1, c, p);
    var s2 := Placed(s1, c, p);
    NotedFrame(s2, s2, c, p);
    RelinkedFrame(s2, Named(s2, c, p), c, p);
    NotedFrame(s2, Relinked(Named(s2, c, p), c, p), c, p);
  }

  lemma UpdateChannelKeepsInv(s: State, id: uint32, p: ChannelState, made: Channel)
    requires Inv(s) && (made !in s.chan || id in s.channels)
    ensures Inv(UpdateChannel(s, id, p, made)) && UpdateChannel(s, id, p, made).channels == Ensured(s, id, made).channels
  {
    EnsuredKeepsInv(s, id, made);
    PlacedMoves(Ensured(s, id, made), Target(s, id, made), p);
    UpdateChannelStructure(s, id, p, made);
    SameStructureKeepsInv(Placed(Ensured(s, id, made), Target(s, id, made), p), UpdateChannel(s, id, p, made));
  }

  // ---- Users ----

  /** User maps after a user has moved from its channel to `c`. */
  function UsersAfter(s: State, u: User, c: Channel?, d: Channel): (m: map<uint32, User>) {
    var k := Who(s, u).session;
    var m := if d == Who(s, u).channel then At(s, d).users - {k} else At(s, d).users;
    if d == c then m[k := u] else m
  }

  ghost predicate Relocates(s: State, t: State, u: User, c: Channel?) {
    && t.chan.Keys == s.chan.Keys && t.channels == s.channels && t.permissions == s.permissions
    && forall d :: d in s.chan ==> At(t, d) == At(s, d).(users := UsersAfter(s, u, c, d))
  }

  lemma LeftRelocates(s: State, u: User)
    requires Who(s, u).channel == null || Who(s, u).channel in s.chan
    ensures Relocates(s, Left(s, u), u, null) && Left(s, u).user == s.user && Left(s, u).users == s.users
  {
    var c := Who(s, u).channel;
    if c != null {
      PutAt(s, c, At(s, c).(users := At(s, c).users - {Who(s, u).session}));
    }
  }

  lemma MoveUserRelocates(s: State, u: User, c: Channel)
    requires u in s.user && c in s.chan && (Who(s, u).channel == null || Who(s, u).channel in s.chan)
    ensures Relocates(s, MoveUser(s, u, c), u, c)
    ensures MoveUser(s, u, c).user == s.user[u := Who(s, u).(channel := c)] && MoveUser(s, u, c).users == s.users
  {
    LeftRelocates(s, u);
    var s1 := Left(s, u);
    var s2 := PutUser(s1, u, Who(s1, u).(channel := c));
    PutAt(s2, c, At(s2, c).(users := At(s2, c).users[Who(s2, u).session := u]));
  }

  /** Of the channels, only the user maps may differ. */
  ghost predicate OnlyUsers(s: State, t: State) {
    && t.chan.Keys == s.chan.Keys && t.channels == s.channels && t.permissions == s.permissions
    && forall d :: d in s.chan ==> At(t, d) == At(s, d).(users := At(t, d).users)
  }

  lemma OnlyUsersSameTree(s: State, t: State)
    requires OnlyUsers(s, t)
    ensures SameTree(s, t)
  {
    forall d | d in s.chan ensures SameNode(At(s, d), At(t, d)) {
    }
  }

  lemma RelocatesSameTree(s: State, t: State, u: User, c: Channel?)
    requires Relocates(s, t, u, c)
    ensures OnlyUsers(s, t) && SameTree(s, t)
  {
    OnlyUsersSameTree(s, t);
  }

  lemma MoveKeepsHoused(s: State, t: State, u: User, c: Channel, k: uint32)
    requires Membership(s) && u in s.user && Known(s, u) && c in s.chan && k in s.users
    requires Relocates(s, t, u, c) && t.user == s.user[u := Who(s, u).(channel := c)] && t.users == s.users
    ensures Housed(t, k)
  {
    assert Housed(s, Who(s, u).session) && Housed(s, k);
  }

  lemma MoveKeepsResident(s: State, t: State, u: User, c: Channel, d: Channel, k: uint32)
    requires Membership(s) && u in s.user && Known(s, u) && c in s.chan && d in s.chan && k in At(t, d).users
    requires Relocates(s, t, u, c) && t.user == s.user[u := Who(s, u).(channel := c)] && t.users == s.users
    ensures Resident(t, d, k)
  {
    assert Housed(s, Who(s, u).session);
    if !(d == c && k == Who(s, u).session) {
      assert k in At(s, d).users && Resident(s, d, k) && Housed(s, k);
    }
  }

  lemma MoveKeepsMembership(s: State, t: State, u: User, c: Channel)
    requires Membership(s) && u in s.user && Known(s, u) && c in s.chan
    requires Relocates(s, t, u, c) && t.user == s.user[u := Who(s, u).(channel := c)] && t.users == s.users
    ensures Membership(t)
  {
    forall k | k in t.users ensures Housed(t, k) {
      MoveKeepsHoused(s, t, u, c, k);
    }
    forall d, k | d in t.chan && k in At(t, d).users ensures Resident(t, d, k) {
      MoveKeepsResident(s, t, u, c, d, k);
    }
  }

  lemma RemoveKeepsResident(s: State, t: State, u: User, d: Channel, k: uint32)
    requires Membership(s) && u in s.user && Known(s, u) && d in s.chan && k in At(t, d).users
    requires Relocates(s, t, u, null) && t.users == s.users - {Who(s, u).session}
    requires t.user == s.user[u := Who(s, u).(client := false)]
    ensures Resident(t, d, k)
  {
    assert Housed(s, Who(s, u).session);
    assert k in At(s, d).users && Resident(s, d, k) && Housed(s, k);
  }

  lemma RemoveKeepsMembership(s: State, t: State, u: User)
    requires Membership(s) && u in s.user && Known(s, u)
    requires Relocates(s, t, u, null) && t.users == s.users - {Who(s, u).session}
    requires t.user == s.user[u := Who(s, u).(client := false)]
    ensures Membership(t)
  {
    assert Housed(s, Who(s, u).session);
    forall k | k in t.users ensures Housed(t, k) {
      assert Housed(s, k);
    }
    forall d, k | d in t.chan && k in At(t, d).users ensures Resident(t, d, k) {
      RemoveKeepsResident(s, t, u, d, k);
    }
  }

  lemma RemoveKeepsFlags(s: State, t: State, u: User)
    requires Membership(s) && UsersFlagged(s) && u in s.user && Known(s, u)
    requires t.users == s.users - {Who(s, u).session} && t.user == s.user[u := Who(s, u).(client := false)]
    ensures UsersFlagged(t)
  {
    forall v | v in t.user ensures Who(t, v).client <==> Known(t, v) {
      assert v != u ==> Who(t, v) == Who(s, v);
    }
  }

  lemma MoveUserKeepsInv(s: State, u: User, c: Channel)
    requires Inv(s) && u in s.user && Known(s, u) && c in s.chan
    ensures Inv(MoveUser(s, u, c))
  {
    var t := MoveUser(s, u, c);
    assert Housed(s, Who(s, u).session);
    MoveUserRelocates(s, u, c);
    MoveKeepsMembership(s, t, u, c);
    RelocatesSameTree(s, t, u, c);
    SameTreeKeepsTree(s, t);
  }

  lemma RemoveUserKeepsInv(s: State, u: User, banned: bool)
    requires Inv(s) && u in s.user && Known(s, u)
    ensures Inv(RemoveUser(s, u, banned))
  {
    var t := RemoveUser(s, u, banned);
    RemoveUserRelocates(s, u, banned);
    RemoveKeepsMembership(s, t, u);
    RemoveKeepsFlags(s, t, u);
    OnlyUsersSameTree(s, t);
    SameTreeKeepsTree(s, t);
  }

  lemma EnterRootArrives(s: State, session: uint32, u: User)
    requires u !in s.user && (0 in s.channels ==> s.channels[0] in s.chan)
    ensures var t, c := EnterRoot(s, session, u), ChannelOf(s, 0);
      && t.chan.Keys == s.chan.Keys && t.channels == s.channels && t.permissions == s.permissions
      && t.users == s.users[session := u] && t.user == s.user[u := NewUserRec(session).(channel := c, client := true)]
      && forall d :: d in s.chan ==> At(t, d) == At(s, d).(users := if d == c then At(s, d).users[session := u] else At(s, d).users)
  {
    var c := ChannelOf(s, 0);
    var s1 := CreateUser(s, session, u);
    if c != null {
      PutAt(s1, c, At(s1, c).(users := At(s1, c).users[session := u]));
    }
  }

  lemma ArrivalKeepsMembership(s: State, t: State, session: uint32, u: User, c: Channel?, r: UserRec)
    requires Membership(s) && u !in s.user && session !in s.users && (c == null || c in s.chan)
    requires t.chan.Keys == s.chan.Keys && t.users == s.users[session := u] && t.user == s.user[u := r]
    requires r.session == session && r.channel == c
    requires forall d :: d in s.chan ==> At(t, d).users == if d == c then At(s, d).users[session := u] else At(s, d).users
    ensures Membership(t)
  {
    forall k | k in t.users ensures Housed(t, k) {
      assert k != session ==> Housed(s, k);
    }
    forall d, k | d in t.chan && k in At(t, d).users ensures Resident(t, d, k) {
      if d == c && k == session {
      } else {
        assert k in At(s, d).users && Resident(s, d, k) && Housed(s, k);
      }
    }
  }

  lemma ArrivalKeepsFlags(s: State, t: State, session: uint32, u: User, r: UserRec)
    requires Membership(s) && UsersFlagged(s) && u !in s.user && session !in s.users
    requires t.users == s.users[session := u] && t.user == s.user[u := r]
    requires r.session == session && r.client
    ensures UsersFlagged(t)
  {
    forall v | v in t.user ensures Who(t, v).client <==> Known(t, v) {
      if v != u {
        assert Who(t, v) == Who(s, v);
      }
    }
  }

  lemma EnterRootKeepsInv(s: State, session: uint32, u: User)
    requires Inv(s) && u !in s.user && session !in s.users
    ensures Inv(EnterRoot(s, session, u))
  {
    var t, c := EnterRoot(s, session, u), ChannelOf(s, 0);
    assert c != null ==> Hung(s, 0);
    EnterRootArrives(s, session, u);
    var r := NewUserRec(session).(channel := c, client := true);
    ArrivalKeepsMembership(s, t, session, u, c, r);
    ArrivalKeepsFlags(s, t, session, u, r);
    SameTreeKeepsTree(s, t);
  }

  lemma WithInfoKeepsInv(s: State, u: User, i: UserInfo)
    requires Inv(s) && u in s.user
    ensures Inv(WithInfo(s, u, i))
  {
    var t := WithInfo(s, u, i);
    forall k | k in t.users ensures Housed(t, k) {
      assert Housed(s, k);
    }
    forall c, k | c in t.chan && k in At(t, c).users ensures Resident(t, c, k) {
      assert Resident(s, c, k);
    }
    SameTreeKeepsTree(s, t);
    forall v | v in t.user ensures Who(t, v).client <==> Known(t, v) {
      assert Who(t, v).session == Who(s, v).session;
    }
  }

  lemma UpdateUserKeepsInv(s: State, u: User, p: UserState, connected: bool)
    requires Inv(s) && u in s.user && Known(s, u)
    requires p.channelId.None? || p.channelId.value in s.channels
    ensures Inv(UpdateUser(s, u, p, connected))
  {
    var s1 := WithInfo(s, u, Identified(Who(s, u).info, p, connected));
    WithInfoKeepsInv(s, u, Identified(Who(s, u).info, p, connected));
    if p.channelId.Some? {
      assert Hung(s1, p.channelId.value);
      MoveUserKeepsInv(s1, u, s.channels[p.channelId.value]);
      MoveUserRelocates(s1, u, s.channels[p.channelId.value]);
    }
    var s2 := if p.channelId.None? then s1 else MoveUser(s1, u, s.channels[p.channelId.value]);
    WithInfoKeepsInv(s2, u, Detailed(Who(s2, u).info, p));
  }

  // ---- The user handlers leave the tree alone ----

  lemma RehousedOnlyUsers(s: State, u: User, p: UserState)
    requires Inv(s) && u in s.user && Known(s, u)
    ensures OnlyUsers(s, Rehoused(s, u, p))
  {
    assert Housed(s, Who(s, u).session);
    if p.channelId.Some? && p.channelId.value in s.channels {
      var c := s.channels[p.channelId.value];
      assert Hung(s, p.channelId.value);
      MoveUserRelocates(s, u, c);
      RelocatesSameTree(s, MoveUser(s, u, c), u, c);
    } else if p.channelId.Some? {
      LeftRelocates(s, u);
      RelocatesSameTree(s, Left(s, u), u, null);
    }
  }

  lemma UpdateUserOnlyUsers(s: State, u: User, p: UserState, connected: bool)
    requires Inv(s) && u in s.user && Known(s, u)
    ensures OnlyUsers(s, UpdateUser(s, u, p, connected))
  {
    var i := Identified(Who(s, u).info, p, connected);
    WithInfoKeepsInv(s, u, i);
    RehousedOnlyUsers(WithInfo(s, u, i), u, p);
  }

  lemma UserStateOnlyUsers(s: State, p: UserState, made: User)
    requires Inv(s) && (made !in s.user || (p.session.Some? && p.session.value in s.users))
    ensures OnlyUsers(s, HandleUserState(s, p, made).state)
  {
    if p.session.Some? {
      var s1 := Arrived(s, p.session.value, made);
      ArrivedKeepsInv(s, p.session.value, made);
      ContinuedOnlyUsers(s1, s1.users[p.session.value], p, p.session.value !in s.users);
      OnlyUsersTwice(s, s1, HandleUserState(s, p, made).state);
    }
  }

  lemma ContinuedOnlyUsers(s: State, u: User, p: UserState, connected: bool)
    requires Inv(s) && u in s.user && Known(s, u)
    ensures OnlyUsers(s, Continued(s, u, p, connected).state)
  {
    UpdateUserOnlyUsers(s, u, p, connected);
  }

  lemma OnlyUsersTwice(s: State, s1: State, t: State)
    requires OnlyUsers(s, s1) && OnlyUsers(s1, t)
    ensures OnlyUsers(s, t)
  {
  }

  lemma RemoveUserRelocates(s: State, u: User, banned: bool)
    requires Inv(s) && u in s.user && Known(s, u)
    ensures Relocates(s, RemoveUser(s, u, banned), u, null) && OnlyUsers(s, RemoveUser(s, u, banned))
  {
    assert Housed(s, Who(s, u).session);
    LeftRelocates(PutUser(s, u, Who(s, u).(client := false)), u);
    RelocatesSameTree(s, RemoveUser(s, u, banned), u, null);
  }

  lemma UserRemoveOnlyUsers(s: State, session: Option<uint32>, actor: Option<uint32>, reason: Option<string>, ban: Option<bool>)
    requires Inv(s)
    ensures OnlyUsers(s, HandleUserRemove(s, session, actor, reason, ban).state)
  {
    if session.Some? && session.value in s.users {
      assert Housed(s, session.value);
      RemoveUserRelocates(s, s.users[session.value], Or(ban, false));
    }
  }

  lemma RehousedUser(s: State, t: State, u: User, p: UserState)
    requires u in s.user && t == Rehoused(s, u, p) && !Homeless(s.channels, p)
    ensures t.users == s.users && t.user == s.user[u := Who(s, u).(channel := if p.channelId.Some? then ChannelOf(s, p.channelId.value) else Who(s, u).channel)]
  {
    assert Who(s, u) == s.user[u] && s.user[u := s.user[u]] == s.user;
  }

  /** The fields of a user after an update, all at once. */
  lemma UpdatedUser(s: State, t: State, u: User, p: UserState, connected: bool)
    requires u in s.user && t == UpdateUser(s, u, p, connected) && !Homeless(s.channels, p)
    ensures Who(t, u).info == Detailed(Identified(Who(s, u).info, p, connected), p) && Who(t, u).session == Who(s, u).session
    ensures Who(t, u).channel == if p.channelId.Some? then ChannelOf(s, p.channelId.value) else Who(s, u).channel
    ensures t.users == s.users && t.user.Keys == s.user.Keys && forall v :: v in s.user && v != u ==> Who(t, v) == Who(s, v)
  {
    var s1 := WithInfo(s, u, Identified(Who(s, u).info, p, connected));
    RehousedUser(s1, Rehoused(s1, u, p), u, p);
  }

  // ---- Links lead to objects ----

  ghost predicate LinksKnown(s: State, c: Channel) {
    forall k :: k in At(s, c).links ==> At(s, c).links[k] in s.chan
  }

  ghost predicate LinksExist(s: State) {
    forall c :: c in s.chan ==> LinksKnown(s, c)
  }

  lemma PutLinksExist(s: State, c: Channel, r: ChannelRec)
    requires LinksExist(s) && c in s.chan && (forall k :: k in r.links ==> r.links[k] in s.chan)
    ensures LinksExist(Put(s, c, r)) && Put(s, c, r).chan.Keys == s.chan.Keys
  {
    PutAt(s, c, r);
    forall d | d in s.chan ensures LinksKnown(Put(s, c, r), d) {
      assert LinksKnown(s, d);
      assert At(Put(s, c, r), d) == if d == c then r else At(s, d);
    }
  }

  lemma FieldsLinksExist(s: State, t: State)
    requires LinksExist(s) && t.chan.Keys == s.chan.Keys && forall c :: c in s.chan ==> At(t, c).links.Items <= At(s, c).links.Items
    ensures LinksExist(t)
  {
    forall c | c in t.chan ensures LinksKnown(t, c) {
      assert LinksKnown(s, c);
      forall k | k in At(t, c).links ensures At(t, c).links[k] in t.chan {
        assert (k, At(t, c).links[k]) in At(t, c).links.Items;
      }
    }
  }

  lemma LinkLinksExist(s: State, c: Channel, k: uint32)
    requires LinksExist(s) && c in s.chan && (k in s.channels ==> s.channels[k] in s.chan)
    ensures LinksExist(Link(s, c, k)) && Link(s, c, k).chan.Keys == s.chan.Keys && Link(s, c, k).channels == s.channels
  {
    if k in s.channels {
      var d := s.channels[k];
      var r := At(s, c).(links := At(s, c).links[k := d]);
      assert LinksKnown(s, c);
      PutLinksExist(s, c, r);
      var s1 := Put(s, c, r);
      assert LinksKnown(s1, d);
      PutLinksExist(s1, d, At(s1, d).(links := At(s1, d).links[At(s1, c).id := c]));
    }
  }

  lemma UnlinkLinksExist(s: State, c: Channel, k: uint32)
    requires LinksExist(s) && c in s.chan && (k in s.channels ==> s.channels[k] in s.chan)
    ensures LinksExist(Unlink(s, c, k)) && Unlink(s, c, k).chan.Keys == s.chan.Keys && Unlink(s, c, k).channels == s.channels
  {
    if k in s.channels {
      var d := s.channels[k];
      var r := At(s, c).(links := At(s, c).links - {k});
      assert LinksKnown(s, c);
      PutLinksExist(s, c, r);
      var s1 := Put(s, c, r);
      assert LinksKnown(s1, d);
      PutLinksExist(s1, d, At(s1, d).(links := At(s1, d).links - {At(s1, c).id}));
    }
  }

  ghost predicate ChannelsExist(s: State) {
    forall k :: k in s.channels ==> s.channels[k] in s.chan
  }

  lemma {:induction false} LinkAllLinksExist(s: State, c: Channel, ids: seq<uint32>)
    requires LinksExist(s) && c in s.chan && ChannelsExist(s)
    ensures LinksExist(LinkAll(s, c, ids)) && LinkAll(s, c, ids).chan.Keys == s.chan.Keys && LinkAll(s, c, ids).channels == s.channels
  {
    if ids != [] {
      LinkAllLinksExist(s, c, ids[..|ids| - 1]);
      LinkLinksExist(LinkAll(s, c, ids[..|ids| - 1]), c, ids[|ids| - 1]);
    }
  }

  lemma {:induction false} UnlinkAllLinksExist(s: State, c: Channel, ids: seq<uint32>)
    requires LinksExist(s) && c in s.chan && ChannelsExist(s)
    ensures LinksExist(UnlinkAll(s, c, ids)) && UnlinkAll(s, c, ids).chan.Keys == s.chan.Keys && UnlinkAll(s, c, ids).channels == s.channels
  {
    if ids != [] {
      UnlinkAllLinksExist(s, c, ids[..|ids| - 1]);
      UnlinkLinksExist(UnlinkAll(s, c, ids[..|ids| - 1]), c, ids[|ids| - 1]);
    }
  }

  lemma RelinkedLinksExist(s: State, c: Channel, p: ChannelState)
    requires LinksExist(s) && c in s.chan && ChannelsExist(s)
    ensures LinksExist(Relinked(s, c, p)) && Relinked(s, c, p).chan.Keys == s.chan.Keys
  {
    PutLinksExist(s, c, At(s, c).(links := Resolved(s.channels, p.links)));
    var s1 := if p.links == [] then s else ReplaceLinks(s, c, p.links);
    LinkAllLinksExist(s1, c, p.linksAdd);
    UnlinkAllLinksExist(LinkAll(s1, c, p.linksAdd), c, p.linksRemove);
  }

  lemma PlacedLinksExist(s: State, c: Channel, p: ChannelState)
    requires Inv(s) && LinksExist(s) && c in s.chan && Live(s, c)
    ensures LinksExist(Placed(s, c, p))
  {
    if p.parent.Some? {
      var q := ChannelOf(s, p.parent.value);
      assert ParentExists(s, c) && (q != null ==> Hung(s, p.parent.value));
      ReparentAt(s, c, q, c);
      forall d | d in s.chan ensures At(Reparent(s, c, q), d).links == At(s, d).links {
        ReparentAt(s, c, q, d);
      }
      FieldsLinksExist(s, Reparent(s, c, q));
    }
  }

  lemma EnsuredLinksExist(s: State, id: uint32, made: Channel)
    requires LinksExist(s) && (made !in s.chan || id in s.channels)
    ensures LinksExist(Ensured(s, id, made))
  {
    var t := Ensured(s, id, made);
    forall d | d in t.chan ensures LinksKnown(t, d) {
      assert d in s.chan ==> LinksKnown(s, d) && At(t, d) == At(s, d);
      assert d !in s.chan ==> At(t, d).links == map[];
    }
  }

  lemma NotedLinksExist(s: State, c: Channel, p: ChannelState)
    requires LinksExist(s) && c in s.chan && ChannelsExist(s)
    ensures LinksExist(Noted(Relinked(Named(s, c, p), c, p), c, p))
  {
    assert LinksKnown(s, c);
    PutLinksExist(s, c, At(s, c).(name := Or(p.name, At(s, c).name)));
    var s1 := Named(s, c, p);
    RelinkedLinksExist(s1, c, p);
    var s2 := Relinked(s1, c, p);
    assert LinksKnown(s2, c);
    PutLinksExist(s2, c, At(s2, c).(info := Described(At(s2, c).info, p)));
  }

  lemma TreeChannelsExist(s: State)
    requires Tree(s)
    ensures ChannelsExist(s)
  {
    forall k | k in s.channels ensures s.channels[k] in s.chan {
      assert Hung(s, k);
    }
  }

  lemma UpdateLinksExist(s: State, id: uint32, p: ChannelState, made: Channel)
    requires Inv(s) && LinksExist(s) && (made !in s.chan || id in s.channels)
    ensures LinksExist(UpdateChannel(s, id, p, made))
  {
    var s1, c := Ensured(s, id, made), Target(s, id, made);
    EnsuredKeepsInv(s, id, made);
    EnsuredLinksExist(s, id, made);
    PlacedLinksExist(s1, c, p);
    PlacedMoves(s1, c, p);
    TreeChannelsExist(Placed(s1, c, p));
    NotedLinksExist(Placed(s1, c, p), c, p);
  }

  lemma RemoveLinksExist(s: State, c: Channel)
    requires Inv(s) && LinksExist(s) && c in s.chan
    ensures LinksExist(RemoveChannel(s, c))
  {
    assert ParentExists(s, c);
    RemoveChannelAt(s, c, c);
    forall d | d in s.chan ensures At(RemoveChannel(s, c), d).links.Items <= At(s, d).links.Items {
      RemoveChannelAt(s, c, d);
    }
    FieldsLinksExist(s, RemoveChannel(s, c));
  }

  // ---- Every run ----

  lemma ArrivedKeepsInv(s: State, session: uint32, made: User)
    requires Inv(s) && (made !in s.user || session in s.users)
    ensures var t := Arrived(s, session, made);
      Inv(t) && OnlyUsers(s, t) && session in t.users && t.users[session] in t.user && Who(t, t.users[session]).session == session
  {
    if session !in s.users {
      EnterRootKeepsInv(s, session, made);
      assert ChannelOf(s, 0) != null ==> Hung(s, 0);
      EnterRootArrives(s, session, made);
    }
    assert Housed(Arrived(s, session, made), session);
  }

  lemma UserStateKeepsInv(s: State, p: UserState, made: User)
    requires Inv(s) && (made !in s.user || (p.session.Some? && p.session.value in s.users)) && !HandleUserState(s, p, made).Stuck?
    ensures Inv(HandleUserState(s, p, made).state)
  {
    if p.session.Some? {
      var s1 := Arrived(s, p.session.value, made);
      ArrivedKeepsInv(s, p.session.value, made);
      ContinuedKeepsInv(s1, s1.users[p.session.value], p, p.session.value !in s.users);
    }
  }

  lemma ContinuedKeepsInv(s: State, u: User, p: UserState, connected: bool)
    requires Inv(s) && u in s.user && Known(s, u) && !Continued(s, u, p, connected).Stuck?
    ensures Inv(Continued(s, u, p, connected).state)
  {
    if !Homeless(s.channels, p) {
      UpdateUserKeepsInv(s, u, p, connected);
    }
  }

  lemma ChannelRemoveKeepsInv(s: State, id: Option<uint32>)
    requires Inv(s)
    ensures Inv(HandleChannelRemove(s, id).state)
  {
    if id.Some? && id.value in s.channels {
      assert Hung(s, id.value);
      RemoveChannelKeepsInv(s, s.channels[id.value]);
    }
  }

  lemma UserRemoveKeepsInv(s: State, session: Option<uint32>, actor: Option<uint32>, reason: Option<string>, ban: Option<bool>)
    requires Inv(s)
    ensures Inv(HandleUserRemove(s, session, actor, reason, ban).state)
  {
    if session.Some? && session.value in s.users {
      assert Housed(s, session.value);
      RemoveUserKeepsInv(s, s.users[session.value], Or(ban, false));
    }
  }

  lemma PermissionQueryKeepsInv(s: State, id: Option<uint32>, granted: Option<uint32>, flush: bool, order: seq<uint32>)
    requires Inv(s)
    ensures Inv(HandlePermissionQuery(s, id, granted, flush, order).state)
  {
    PermissionsKeepInv(s, HandlePermissionQuery(s, id, granted, flush, order).state, id);
  }

  lemma StepKeepsInv(s: State, i: Input)
    requires Inv(s) && Admissible(s, i) && !Handle(s, i).Stuck?
    ensures Inv(Handle(s, i).state)
  {
    match i.packet
    case ChannelRemove(id) =>
      ChannelRemoveKeepsInv(s, id);
    case ChannelUpdate(p) =>
      if p.channelId.Some? {
        UpdateChannelKeepsInv(s, p.channelId.value, p, i.channel);
      }
    case UserRemove(session, actor, reason, ban) =>
      UserRemoveKeepsInv(s, session, actor, reason, ban);
    case UserUpdate(p) =>
      UserStateKeepsInv(s, p, i.user);
    case PermissionQuery(id, granted, flush) =>
      PermissionQueryKeepsInv(s, id, granted, Or(flush, false), i.order);
    case ServerSync(me) =>
      SyncKeepsInv(s, Handle(s, i).state);
  }

  lemma SyncKeepsInv(s: State, t: State)
    requires Inv(s) && t == s.(self := t.self, synced := t.synced)
    ensures Inv(t)
  {
    SameTreeKeepsTree(s, t);
    forall k | k in t.users ensures Housed(t, k) {
      assert Housed(s, k);
    }
    forall c, k | c in t.chan && k in At(t, c).users ensures Resident(t, c, k) {
      assert Resident(s, c, k);
    }
  }

  /** A PermissionQuery changes nothing but the cache. */
  lemma PermissionQueryFrame(s: State, id: Option<uint32>, granted: Option<uint32>, flush: bool, order: seq<uint32>)
    ensures var t := HandlePermissionQuery(s, id, granted, flush, order).state; t == s.(permissions := t.permissions)
  {
  }

  lemma PermissionsKeepInv(s: State, t: State, id: Option<uint32>)
    requires Inv(s) && t == s.(permissions := t.permissions)
    requires forall k :: k in t.permissions ==> k in s.permissions || (id.Some? && id.value in s.channels && k == At(s, s.channels[id.value]).id)
    ensures Inv(t)
  {
    if id.Some? && id.value in s.channels {
      assert Hung(s, id.value);
    }
    CacheKeepsTree(s, t);
    SameMembersKeepsMembership(s, t);
  }

  lemma CacheKeepsTree(s: State, t: State)
    requires Tree(s) && Flagged(s) && t.chan == s.chan && t.channels == s.channels
    ensures Tree(t) && Flagged(t)
  {
    forall k | k in t.channels ensures Hung(t, k) {
      assert Hung(s, k);
    }
    forall c, k | c in t.chan && k in At(t, c).children ensures Child(t, c, k) {
      assert Child(s, c, k);
    }
    forall c | c in t.chan ensures ParentExists(t, c) {
      assert ParentExists(s, c);
    }
  }

  /** After every run of handlers that return, the mirror is consistent. */
  lemma {:induction false} RunKeepsInv(ss: seq<State>, ins: seq<Input>, n: nat)
    requires Run(ss, ins) && n <= |ins|
    ensures Inv(ss[n])
  {
    if n > 0 {
      RunKeepsInv(ss, ins, n - 1);
      assert StepsTo(ss[n - 1], ins[n - 1], ss[n]);
      StepKeepsInv(ss[n - 1], ins[n - 1]);
    }
  }

  // ---- The handler that does not return ----

  /** Whether the handler reaches the lookup of the packet's channel. */
  predicate ReachesChannel(s: State, p: UserState) {
    && p.session.Some? && (p.session.value in s.users || 0 in s.channels)
    && (p.actor.None? || p.actor.value in s.users || p.actor == p.session)
  }

  /**
   * A UserState naming an unknown channel is the only packet whose handler blocks. It waits
   * with the user already taken out of its channel, so membership is broken exactly if there was one.
   */
  lemma StuckHandler(s: State, i: Input)
    requires Inv(s) && Admissible(s, i)
    ensures Handle(s, i).Stuck? <==>
            i.packet.UserUpdate? && ReachesChannel(s, i.packet.user) && Homeless(s.channels, i.packet.user)
    ensures Handle(s, i).Stuck? ==>
            (Membership(Handle(s, i).state) <==>
             i.packet.user.session.value in s.users && Who(s, s.users[i.packet.user.session.value]).channel == null)
  {
    if i.packet.UserUpdate? {
      StuckUserState(s, i.packet.user, i.user);
    }
  }

  /** The packets whose handlers return, as a client could tell before the call. */
  predicate Returns(s: State, packet: Packet) {
    match packet
    case UserUpdate(p) => !(ReachesChannel(s, p) && Homeless(s.channels, p))
    case ServerSync(_) => !s.synced
    case _ => true
  }

  /** The rest block, on a UserState, or panic, on a second ServerSync. */
  lemma HandlerReturns(s: State, i: Input)
    requires Inv(s) && Admissible(s, i)
    ensures Returns(s, i.packet) <==> Handle(s, i).Done? || Handle(s, i).Failed?
    ensures Handle(s, i).Crashed? <==> i.packet.ServerSync? && s.synced
  {
    match i.packet
    case ChannelRemove(id) =>
    case ChannelUpdate(p) =>
    case UserRemove(session, actor, reason, ban) =>
    case UserUpdate(p) =>
      UserStateReturns(s, p, i.user);
    case PermissionQuery(id, granted, flush) =>
    case ServerSync(me) =>
  }

  lemma UserStateReturns(s: State, p: UserState, made: User)
    requires Inv(s) && made !in s.user
    ensures var o := HandleUserState(s, p, made); !o.Crashed? && (o.Stuck? <==> ReachesChannel(s, p) && Homeless(s.channels, p))
  {
    StuckUserState(s, p, made);
  }

  lemma StuckUserState(s: State, p: UserState, made: User)
    requires Inv(s) && made !in s.user
    ensures HandleUserState(s, p, made).Stuck? <==> ReachesChannel(s, p) && Homeless(s.channels, p)
    ensures HandleUserState(s, p, made).Stuck? ==>
            (Membership(HandleUserState(s, p, made).state) <==>
             p.session.value in s.users && Who(s, s.users[p.session.value]).channel == null)
  {
    if p.session.Some? {
      ArrivedUsers(s, p.session.value, made);
      if HandleUserState(s, p, made).Stuck? {
        StuckState(s, p, made, p.session.value);
      }
    }
  }

  lemma StuckState(s: State, p: UserState, made: User, k: uint32)
    requires Inv(s) && made !in s.user && Homeless(s.channels, p)
    ensures var s1 := Arrived(s, k, made);
      k in s1.users && (Membership(UpdateUser(s1, s1.users[k], p, k !in s.users)) <==> Who(s1, s1.users[k]).channel == null)
  {
    ArrivedKeepsInv(s, k, made);
    StuckUpdate(Arrived(s, k, made), Arrived(s, k, made).users[k], p, k !in s.users);
  }

  lemma ArrivedUsers(s: State, k: uint32, made: User)
    requires Inv(s) && made !in s.user
    ensures var t := Arrived(s, k, made);
      && t.users.Keys == s.users.Keys + {k} && t.channels == s.channels
      && (k !in s.users ==> (Who(t, t.users[k]).channel == null <==> 0 !in s.channels))
  {
    if k !in s.users {
      assert 0 in s.channels ==> Hung(s, 0);
      EnterRootArrives(s, k, made);
    } else {
      assert s.users.Keys == s.users.Keys + {k};
    }
  }

  lemma StuckUpdate(s: State, u: User, p: UserState, connected: bool)
    requires Inv(s) && u in s.user && Known(s, u) && Homeless(s.channels, p)
    ensures Membership(UpdateUser(s, u, p, connected)) <==> Who(s, u).channel == null
  {
    var i := Identified(Who(s, u).info, p, connected);
    WithInfoKeepsInv(s, u, i);
    LeavingBreaksMembership(WithInfo(s, u, i), u);
  }

  lemma LeavingBreaksMembership(s: State, u: User)
    requires Inv(s) && u in s.user && Known(s, u)
    ensures Membership(Left(s, u)) <==> Who(s, u).channel == null
  {
    var t := Left(s, u);
    assert Housed(s, Who(s, u).session);
    LeftRelocates(s, u);
    if Who(s, u).channel != null {
      assert !Housed(t, Who(s, u).session);
    }
  }
}
