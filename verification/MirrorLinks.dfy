/** Channel links: what each packet does to both ends, and when they stay symmetric. */
module MirrorLinks {
  import opened Bytes
  import opened Mirror
  import opened MirrorInv

  function LinksOf(s: State, j: uint32): (m: map<uint32, Channel>) {
    if j in s.channels then At(s, s.channels[j]).links else map[]
  }

  // ---- What links_add and links_remove do ----

  /** Links of channel j after `c`, with id `id`, is linked to all known channels of `ids`. */
  function Added(s: State, id: uint32, ids: seq<uint32>, j: uint32): (m: map<uint32, Channel>)
    requires id in s.channels
  {
    if j == id then LinksOf(s, j) + Resolved(s.channels, ids)
    else if j in ids then LinksOf(s, j)[id := s.channels[id]]
    else LinksOf(s, j)
  }

  function Dropped(s: State, id: uint32, ids: seq<uint32>, j: uint32): (m: map<uint32, Channel>) {
    if j == id then LinksOf(s, j) - Resolved(s.channels, ids).Keys
    else if j in ids then LinksOf(s, j) - {id}
    else LinksOf(s, j)
  }

  ghost predicate Keyed(s: State) {
    forall k :: k in s.channels ==> s.channels[k] in s.chan && At(s, s.channels[k]).id == k
  }

  lemma StructureKeyed(s: State, t: State)
    requires Tree(s) && SameStructure(s, t)
    ensures Keyed(t)
  {
    forall k | k in t.channels ensures t.channels[k] in t.chan && At(t, t.channels[k]).id == k {
      assert Hung(s, k) && SameNode(At(s, s.channels[k]), At(t, s.channels[k]));
    }
  }

  /** Assigning new links to channel k changes the links of no other. */
  lemma PutLinks(s: State, k: uint32, m: map<uint32, Channel>)
    requires Keyed(s) && k in s.channels
    ensures var t := Put(s, s.channels[k], At(s, s.channels[k]).(links := m));
      Keyed(t) && forall j :: j in s.channels ==> LinksOf(t, j) == if j == k then m else LinksOf(s, j)
  {
    PutAt(s, s.channels[k], At(s, s.channels[k]).(links := m));
  }

  lemma LinkAt(s: State, id: uint32, k: uint32, j: uint32)
    requires Keyed(s) && id in s.channels && j in s.channels
    ensures LinksOf(Link(s, s.channels[id], k), j) == Added(s, id, [k], j)
  {
    if k in s.channels {
      var m := LinksOf(s, id)[k := s.channels[k]];
      PutLinks(s, id, m);
      var s1 := Put(s, s.channels[id], At(s, s.channels[id]).(links := m));
      PutLinks(s1, k, LinksOf(s1, k)[id := s.channels[id]]);
      LinkedBoth(s, id, k, j);
    } else {
      LinkedNone(s, id, k, j);
    }
  }

  lemma LinkedBoth(s: State, id: uint32, k: uint32, j: uint32)
    requires id in s.channels && k in s.channels
    ensures var m := if j == id then LinksOf(s, j)[k := s.channels[k]] else LinksOf(s, j);
      (if j == k then m[id := s.channels[id]] else m) == Added(s, id, [k], j)
  {
  }

  lemma LinkedNone(s: State, id: uint32, k: uint32, j: uint32)
    requires id in s.channels && k !in s.channels && j in s.channels
    ensures Added(s, id, [k], j) == LinksOf(s, j)
  {
    assert Resolved(s.channels, [k]) == map[];
  }

  lemma UnlinkAt(s: State, id: uint32, k: uint32, j: uint32)
    requires Keyed(s) && id in s.channels && j in s.channels
    ensures LinksOf(Unlink(s, s.channels[id], k), j) == Dropped(s, id, [k], j)
  {
    if k in s.channels {
      var m := LinksOf(s, id) - {k};
      PutLinks(s, id, m);
      var s1 := Put(s, s.channels[id], At(s, s.channels[id]).(links := m));
      PutLinks(s1, k, LinksOf(s1, k) - {id});
    }
  }

  lemma AddedAppend(s: State, t: State, id: uint32, ids: seq<uint32>, k: uint32, j: uint32)
    requires id in s.channels && t.channels == s.channels && LinksOf(t, j) == Added(s, id, ids, j)
    ensures Added(t, id, [k], j) == Added(s, id, ids + [k], j)
  {
  }

  lemma DroppedAppend(s: State, t: State, id: uint32, ids: seq<uint32>, k: uint32, j: uint32)
    requires t.channels == s.channels && LinksOf(t, j) == Dropped(s, id, ids, j)
    ensures Dropped(t, id, [k], j) == Dropped(s, id, ids + [k], j)
  {
  }

  lemma LinkMore(s0: State, s: State, t: State, id: uint32, ids: seq<uint32>, k: uint32, j: uint32)
    requires Tree(s0) && SameStructure(s0, t) && t.channels == s.channels && id in s.channels && j in s.channels
    requires LinksOf(t, j) == Added(s, id, ids, j)
    ensures LinksOf(Link(t, s.channels[id], k), j) == Added(s, id, ids + [k], j)
  {
    StructureKeyed(s0, t);
    LinkAt(t, id, k, j);
    AddedAppend(s, t, id, ids, k, j);
  }

  lemma NothingChanged(s: State, id: uint32, j: uint32)
    requires id in s.channels
    ensures Added(s, id, [], j) == LinksOf(s, j) && Dropped(s, id, [], j) == LinksOf(s, j)
  {
  }

  lemma {:induction false} LinkAllAt(s0: State, s: State, id: uint32, ids: seq<uint32>, j: uint32)
    requires Tree(s0) && SameStructure(s0, s) && id in s.channels && j in s.channels
    ensures LinksOf(LinkAll(s, s.channels[id], ids), j) == Added(s, id, ids, j)
  {
    if ids == [] {
      NothingChanged(s, id, j);
    } else {
      var n, c := |ids| - 1, s.channels[id];
      LinkAllAt(s0, s, id, ids[..n], j);
      assert Hung(s0, id);
      LinkAllFrame(s0, s, c, ids[..n]);
      LinkMore(s0, s, LinkAll(s, c, ids[..n]), id, ids[..n], ids[n], j);
      assert ids[..n] + [ids[n]] == ids;
    }
  }

  lemma UnlinkMore(s0: State, s: State, t: State, id: uint32, ids: seq<uint32>, k: uint32, j: uint32)
    requires Tree(s0) && SameStructure(s0, t) && t.channels == s.channels && id in s.channels && j in s.channels
    requires LinksOf(t, j) == Dropped(s, id, ids, j)
    ensures LinksOf(Unlink(t, s.channels[id], k), j) == Dropped(s, id, ids + [k], j)
  {
    StructureKeyed(s0, t);
    UnlinkAt(t, id, k, j);
    DroppedAppend(s, t, id, ids, k, j);
  }

  lemma {:induction false} UnlinkAllAt(s0: State, s: State, id: uint32, ids: seq<uint32>, j: uint32)
    requires Tree(s0) && SameStructure(s0, s) && id in s.channels && j in s.channels
    ensures LinksOf(UnlinkAll(s, s.channels[id], ids), j) == Dropped(s, id, ids, j)
  {
    if ids == [] {
      NothingChanged(s, id, j);
    } else {
      var n, c := |ids| - 1, s.channels[id];
      UnlinkAllAt(s0, s, id, ids[..n], j);
      assert Hung(s0, id);
      LinkAllFrame(s0, s, c, ids[..n]);
      UnlinkMore(s0, s, UnlinkAll(s, c, ids[..n]), id, ids[..n], ids[n], j);
      assert ids[..n] + [ids[n]] == ids;
    }
  }

  // ---- What a whole packet does ----

  /** The channel's own links: replaced if the packet lists any, then added to, then removed from. */
  function OwnLinks(s: State, id: uint32, p: ChannelState): (m: map<uint32, Channel>) {
    var m := if p.links == [] then LinksOf(s, id) else Resolved(s.channels, p.links);
    (m + Resolved(s.channels, p.linksAdd)) - Resolved(s.channels, p.linksRemove).Keys
  }

  /** Another channel's links: only links_add and links_remove reach them, and removal wins. */
  function OtherLinks(s: State, id: uint32, p: ChannelState, j: uint32): (m: map<uint32, Channel>)
    requires id in s.channels
  {
    if j in p.linksRemove then LinksOf(s, j) - {id}
    else if j in p.linksAdd then LinksOf(s, j)[id := s.channels[id]]
    else LinksOf(s, j)
  }

  lemma Combined(s: State, s1: State, s2: State, id: uint32, p: ChannelState, j: uint32)
    requires id in s.channels && s1.channels == s.channels && s2.channels == s.channels
    requires LinksOf(s1, j) == if j == id && p.links != [] then Resolved(s.channels, p.links) else LinksOf(s, j)
    requires LinksOf(s2, j) == Added(s1, id, p.linksAdd, j)
    ensures Dropped(s2, id, p.linksRemove, j) == if j == id then OwnLinks(s, id, p) else OtherLinks(s, id, p, j)
  {
    if j != id && j in p.linksAdd && j in p.linksRemove {
      assert LinksOf(s, j)[id := s.channels[id]] - {id} == LinksOf(s, j) - {id};
    }
  }

  lemma ReplacedAt(s: State, id: uint32, p: ChannelState, j: uint32)
    requires Tree(s) && id in s.channels && j in s.channels
    ensures var s1 := if p.links == [] then s else ReplaceLinks(s, s.channels[id], p.links);
      SameStructure(s, s1) && LinksOf(s1, j) == if j == id && p.links != [] then Resolved(s.channels, p.links) else LinksOf(s, j)
  {
    assert Hung(s, id);
    var c := s.channels[id];
    StructureKeyed(s, s);
    PutLinks(s, id, Resolved(s.channels, p.links));
    PutFrame(s, s, c, At(s, c).(links := Resolved(s.channels, p.links)));
  }

  lemma RelinkedAt(s: State, id: uint32, p: ChannelState, j: uint32)
    requires Tree(s) && id in s.channels && j in s.channels
    ensures LinksOf(Relinked(s, s.channels[id], p), j) == if j == id then OwnLinks(s, id, p) else OtherLinks(s, id, p, j)
  {
    assert Hung(s, id);
    var c := s.channels[id];
    var s1 := if p.links == [] then s else ReplaceLinks(s, c, p.links);
    ReplacedAt(s, id, p, j);
    var s2 := LinkAll(s1, c, p.linksAdd);
    LinkAllFrame(s, s1, c, p.linksAdd);
    LinkAllAt(s, s1, id, p.linksAdd, j);
    UnlinkAllAt(s, s2, id, p.linksRemove, j);
    Combined(s, s1, s2, id, p, j);
  }

  // ---- Symmetry ----

  /** A link leads to the live channel with that id, which links back. */
  ghost predicate Mutual(s: State, j: uint32, k: uint32) {
    k in LinksOf(s, j) ==> k in s.channels && LinksOf(s, j)[k] == s.channels[k] && j in LinksOf(s, k)
  }

  ghost predicate Symmetric(s: State) {
    forall j, k :: j in s.channels ==> Mutual(s, j, k)
  }

  /** The packet's full list of links agrees with the other ends, where nothing else in the packet touches them. */
  ghost predicate Agrees(s: State, id: uint32, p: ChannelState) {
    p.links == [] ||
    forall k :: k in s.channels && k != id && k !in p.linksAdd && k !in p.linksRemove ==> (k in p.links <==> k in LinksOf(s, id))
  }

  ghost predicate Relinks(s: State, t: State, id: uint32, p: ChannelState) {
    && id in s.channels && t.channels == s.channels
    && forall j :: j in s.channels ==> LinksOf(t, j) == if j == id then OwnLinks(s, id, p) else OtherLinks(s, id, p, j)
  }

  lemma AgreesWhenSymmetric(s: State, t: State, id: uint32, p: ChannelState)
    requires Symmetric(s) && Relinks(s, t, id, p) && Symmetric(t)
    ensures Agrees(s, id, p)
  {
    if p.links != [] {
      forall k | k in s.channels && k != id && k !in p.linksAdd && k !in p.linksRemove
        ensures k in p.links <==> k in LinksOf(s, id)
      {
        assert Mutual(s, id, k) && Mutual(s, k, id) && Mutual(t, id, k) && Mutual(t, k, id);
      }
    }
  }

  lemma SymmetricWhenAgrees(s: State, t: State, id: uint32, p: ChannelState)
    requires Symmetric(s) && Relinks(s, t, id, p) && Agrees(s, id, p)
    ensures Symmetric(t)
  {
    forall j, k | j in t.channels ensures Mutual(t, j, k) {
      MutualWhenAgrees(s, t, id, p, j, k);
    }
  }

  lemma MutualWhenAgrees(s: State, t: State, id: uint32, p: ChannelState, j: uint32, k: uint32)
    requires Symmetric(s) && Relinks(s, t, id, p) && Agrees(s, id, p) && j in s.channels
    ensures Mutual(t, j, k)
  {
    if k in LinksOf(t, j) {
      if j == id {
        OwnLinkIsMutual(s, id, p, k);
      } else {
        OtherLinkIsMutual(s, id, p, j, k);
      }
    }
  }

  /** A link of the packet's channel, after the packet, leads to a channel that links back. */
  lemma OwnLinkIsMutual(s: State, id: uint32, p: ChannelState, k: uint32)
    requires Symmetric(s) && id in s.channels && Agrees(s, id, p) && k in OwnLinks(s, id, p)
    ensures k in s.channels && OwnLinks(s, id, p)[k] == s.channels[k]
    ensures k != id ==> id in OtherLinks(s, id, p, k)
  {
    assert Mutual(s, id, k);
    assert k in s.channels && OwnLinks(s, id, p)[k] == s.channels[k];
    assert Mutual(s, k, id);
  }

  /** And so does a link of another channel. */
  lemma OtherLinkIsMutual(s: State, id: uint32, p: ChannelState, j: uint32, k: uint32)
    requires Symmetric(s) && id in s.channels && Agrees(s, id, p) && j in s.channels && j != id && k in OtherLinks(s, id, p, j)
    ensures k in s.channels && OtherLinks(s, id, p, j)[k] == s.channels[k]
    ensures if k == id then j in OwnLinks(s, id, p) else j in OtherLinks(s, id, p, k)
  {
    assert Mutual(s, j, k) && Mutual(s, j, id) && Mutual(s, id, j);
    assert k in s.channels && OtherLinks(s, id, p, j)[k] == s.channels[k];
  }

  // ---- Runs ----

  lemma CreatedLinks(s: State, id: uint32, made: Channel, j: uint32)
    requires Tree(s) && made !in s.chan && j in Ensured(s, id, made).channels
    ensures LinksOf(Ensured(s, id, made), j) == LinksOf(s, j)
  {
    if j in s.channels {
      assert Hung(s, j);
    }
  }

  lemma CreateSymmetric(s: State, t: State, id: uint32, made: Channel)
    requires Tree(s) && Symmetric(s) && made !in s.chan && t == Ensured(s, id, made)
    ensures Symmetric(t) && id in t.channels && LinksOf(t, id) == LinksOf(s, id)
  {
    forall j | j in t.channels ensures LinksOf(t, j) == LinksOf(s, j) {
      CreatedLinks(s, id, made, j);
    }
    forall j, k | j in t.channels ensures Mutual(t, j, k) {
      assert j in s.channels ==> Mutual(s, j, k);
    }
  }

  ghost predicate SameLinks(s: State, t: State) {
    t.channels == s.channels && forall c :: c in s.chan ==> At(t, c).links == At(s, c).links
  }

  lemma ReparentSameLinks(s: State, c: Channel, p: Channel?)
    requires c in s.chan && ParentExists(s, c) && (p == null || p in s.chan)
    ensures SameLinks(s, Reparent(s, c, p))
  {
    forall d | d in s.chan ensures At(Reparent(s, c, p), d).links == At(s, d).links {
      ReparentAt(s, c, p, d);
    }
  }

  lemma PlacedSameLinks(s: State, c: Channel, p: ChannelState)
    requires Inv(s) && c in s.chan && Live(s, c)
    ensures SameLinks(s, Placed(s, c, p))
  {
    if p.parent.Some? {
      assert ParentExists(s, c) && (p.parent.value in s.channels ==> Hung(s, p.parent.value));
      ReparentSameLinks(s, c, ChannelOf(s, p.parent.value));
    }
  }

  lemma NameLinks(s: State, c: Channel, p: ChannelState)
    requires c in s.chan
    ensures SameLinks(s, Named(s, c, p)) && c in Named(s, c, p).chan
  {
    PutAt(s, c, At(s, c).(name := Or(p.name, At(s, c).name)));
  }

  lemma NameTree(s: State, c: Channel, p: ChannelState)
    requires Tree(s) && Flagged(s) && c in s.chan
    ensures Tree(Named(s, c, p)) && Flagged(Named(s, c, p))
  {
    NotedFrame(s, s, c, p);
    SameTreeKeepsTree(s, Named(s, c, p));
  }

  lemma NamedSameLinks(s: State, s1: State, t: State, c: Channel, p: ChannelState)
    requires Inv(s) && c in s.chan && Live(s, c) && s1 == Placed(s, c, p) && t == Named(s1, c, p)
    ensures Tree(t) && Flagged(t) && c in t.chan && SameLinks(s, t)
  {
    PlacedMoves(s, c, p);
    PlacedSameLinks(s, c, p);
    NameTree(s1, c, p);
    NameLinks(s1, c, p);
  }

  lemma UpdateRelinks(s: State, id: uint32, p: ChannelState)
    requires Inv(s) && id in s.channels
    ensures var c := s.channels[id]; Relinks(s, Noted(Relinked(Named(Placed(s, c, p), c, p), c, p), c, p), id, p)
  {
    var c := s.channels[id];
    assert Hung(s, id);
    StructureKeyed(s, s);
    var s3 := Named(Placed(s, c, p), c, p);
    NamedSameLinks(s, Placed(s, c, p), s3, c, p);
    RelinkedFrame(s3, s3, c, p);
    var s4 := Relinked(s3, c, p);
    StructureKeyed(s3, s4);
    forall j | j in s.channels ensures LinksOf(Noted(s4, c, p), j) == if j == id then OwnLinks(s, id, p) else OtherLinks(s, id, p, j) {
      RelinkedAt(s3, id, p, j);
      SameLinksAt(s, s3, id, p, j);
      NotedAt(s4, id, p, j);
    }
  }

  lemma SameLinksAt(s: State, t: State, id: uint32, p: ChannelState, j: uint32)
    requires SameLinks(s, t) && Keyed(s) && id in s.channels && j in s.channels
    ensures OwnLinks(t, id, p) == OwnLinks(s, id, p) && OtherLinks(t, id, p, j) == OtherLinks(s, id, p, j)
  {
  }

  lemma NotedAt(s: State, id: uint32, p: ChannelState, j: uint32)
    requires Keyed(s) && id in s.channels && j in s.channels
    ensures LinksOf(Noted(s, s.channels[id], p), j) == LinksOf(s, j)
  {
  }

  /** A ChannelState keeps links symmetric exactly when its full list, if any, agrees with the other ends. */
  lemma UpdateSymmetric(s: State, id: uint32, p: ChannelState, made: Channel)
    requires Inv(s) && Symmetric(s) && made !in s.chan
    ensures Symmetric(UpdateChannel(s, id, p, made)) <==> Agrees(s, id, p)
  {
    var s1, t := Ensured(s, id, made), UpdateChannel(s, id, p, made);
    EnsuredKeepsInv(s, id, made);
    CreateSymmetric(s, s1, id, made);
    UpdateRelinks(s1, id, p);
    assert Agrees(s1, id, p) <==> Agrees(s, id, p);
    if Symmetric(t) {
      AgreesWhenSymmetric(s1, t, id, p);
    }
    if Agrees(s1, id, p) {
      SymmetricWhenAgrees(s1, t, id, p);
    }
  }

  lemma LinksThatForget(s: State, id: uint32, j: uint32)
    requires Tree(s) && Symmetric(s) && id in s.channels && j in s.channels
    ensures id in LinksOf(s, j) ==> s.channels[j] in LinksOf(s, id).Values
  {
    assert Mutual(s, j, id) && Mutual(s, id, j);
    if id in LinksOf(s, j) {
      assert LinksOf(s, id)[j] in LinksOf(s, id).Values;
    }
  }

  lemma RemovalForgets(s: State, t: State, id: uint32, j: uint32)
    requires Tree(s) && Symmetric(s) && id in s.channels && j in t.channels && t.channels == s.channels - {id}
    requires At(t, s.channels[j]).links == if s.channels[j] in LinksOf(s, id).Values then LinksOf(s, j) - {id} else LinksOf(s, j)
    ensures LinksOf(t, j) == LinksOf(s, j) - {id}
  {
    LinksThatForget(s, id, j);
  }

  /** Removing a channel leaves no live channel linked to it. */
  lemma RemovalSymmetric(s: State, t: State, id: uint32)
    requires Inv(s) && Symmetric(s) && id in s.channels && t == RemoveChannel(s, s.channels[id])
    ensures Symmetric(t)
  {
    assert Hung(s, id);
    RemoveChannelRemoves(s, s.channels[id]);
    forall j | j in t.channels ensures LinksOf(t, j) == LinksOf(s, j) - {id} {
      assert Hung(s, j);
      RemoveChannelAt(s, s.channels[id], s.channels[j]);
      RemovalForgets(s, t, id, j);
    }
    forall j, k | j in t.channels ensures Mutual(t, j, k) {
      assert Mutual(s, j, k);
    }
  }

  lemma ChannelRemoveSymmetric(s: State, id: Option<uint32>)
    requires Inv(s) && Symmetric(s)
    ensures Symmetric(HandleChannelRemove(s, id).state)
  {
    if id.Some? && id.value in s.channels {
      RemovalSymmetric(s, RemoveChannel(s, s.channels[id.value]), id.value);
    }
  }

  lemma SameChannelsSymmetric(s: State, t: State)
    requires Tree(s) && Symmetric(s) && t.chan == s.chan && t.channels == s.channels
    ensures Symmetric(t)
  {
    SameLinksSymmetric(s, t);
  }

  lemma OnlyUsersSymmetric(s: State, t: State)
    requires Tree(s) && Symmetric(s) && OnlyUsers(s, t)
    ensures Symmetric(t)
  {
    SameLinksSymmetric(s, t);
  }

  lemma SameLinksSymmetric(s: State, t: State)
    requires Tree(s) && Symmetric(s) && SameLinks(s, t)
    ensures Symmetric(t)
  {
    forall j | j in s.channels ensures LinksOf(t, j) == LinksOf(s, j) {
      assert Hung(s, j);
    }
    forall j, k | j in t.channels ensures Mutual(t, j, k) {
      assert Mutual(s, j, k);
    }
  }

  /** What a packet must satisfy to keep links symmetric: only a full list of links can break them. */
  ghost predicate Balanced(s: State, packet: Packet) {
    packet.ChannelUpdate? && packet.channel.channelId.Some? ==> Agrees(s, packet.channel.channelId.value, packet.channel)
  }

  lemma StepSymmetric(s: State, i: Input)
    requires Inv(s) && Symmetric(s) && Admissible(s, i)
    ensures Symmetric(Handle(s, i).state) <==> Balanced(s, i.packet)
  {
    match i.packet
    case ChannelRemove(id) =>
      ChannelRemoveSymmetric(s, id);
    case ChannelUpdate(p) =>
      if p.channelId.Some? {
        UpdateSymmetric(s, p.channelId.value, p, i.channel);
      }
    case UserRemove(session, actor, reason, ban) =>
      UserRemoveOnlyUsers(s, session, actor, reason, ban);
      OnlyUsersSymmetric(s, Handle(s, i).state);
    case UserUpdate(p) =>
      UserStateOnlyUsers(s, p, i.user);
      OnlyUsersSymmetric(s, Handle(s, i).state);
    case PermissionQuery(id, granted, flush) =>
      PermissionQueryFrame(s, id, granted, Or(flush, false), i.order);
      SameChannelsSymmetric(s, Handle(s, i).state);
    case ServerSync(_) =>
      SameChannelsSymmetric(s, Handle(s, i).state);
  }

  /** Runs without one-sided full lists keep every link mutual and between live channels. */
  lemma {:induction false} RunSymmetric(ss: seq<State>, ins: seq<Input>, n: nat)
    requires Run(ss, ins) && n <= |ins|
    requires forall i :: 0 <= i < n ==> Balanced(ss[i], ins[i].packet)
    ensures Symmetric(ss[n])
  {
    if n > 0 {
      RunKeepsInv(ss, ins, n - 1);
      RunSymmetric(ss, ins, n - 1);
      assert StepsTo(ss[n - 1], ins[n - 1], ss[n]);
      StepSymmetric(ss[n - 1], ins[n - 1]);
    }
  }

  /** A full list is taken on one side only: naming a channel that is not yet linked breaks symmetry. */
  lemma OneSided(s: State, a: uint32, b: uint32, made: Channel)
    requires Inv(s) && Symmetric(s) && made !in s.chan
    requires a in s.channels && b in s.channels && a != b && b !in LinksOf(s, a)
    ensures !Symmetric(HandleChannelState(s, LinksPacket(a, [b]), made).state)
  {
    UpdateSymmetric(s, a, LinksPacket(a, [b]), made);
    assert b in LinksPacket(a, [b]).links;
  }

  // ---- The synchronisation pass ----

  function LinksPacket(id: uint32, links: seq<uint32>): (p: ChannelState) {
    ChannelState(Some(id), None, None, links, [], [], None, None, None, None, None)
  }

  /** One ChannelState with a full list for each id of `ids`. */
  ghost function SyncPass(s: State, ids: seq<uint32>, r: map<uint32, seq<uint32>>, made: Channel): (t: State)
  {
    if ids == [] then s
    else
      var n := |ids| - 1;
      HandleChannelState(SyncPass(s, ids[..n], r, made), LinksPacket(ids[n], Listed(r, ids[n])), made).state
  }

  function Listed(r: map<uint32, seq<uint32>>, k: uint32): (links: seq<uint32>) {
    if k in r then r[k] else []
  }

  /** The pass visits known channels and lists some link for each. */
  ghost predicate Lists(channels: map<uint32, Channel>, ids: seq<uint32>, r: map<uint32, seq<uint32>>) {
    forall i :: 0 <= i < |ids| ==> ids[i] in channels && Listed(r, ids[i]) != []
  }

  lemma LinksPacketAt(s: State, id: uint32, links: seq<uint32>, made: Channel, j: uint32)
    requires Inv(s) && id in s.channels && j in s.channels && links != []
    ensures var t := HandleChannelState(s, LinksPacket(id, links), made).state;
      Inv(t) && t.channels == s.channels && LinksOf(t, j) == if j == id then Resolved(s.channels, links) else LinksOf(s, j)
  {
    var p := LinksPacket(id, links);
    UpdateRelinks(s, id, p);
    UpdateChannelKeepsInv(s, id, p, made);
    assert Resolved(s.channels, []) == map[];
    assert OwnLinks(s, id, p) == Resolved(s.channels, links);
  }

  /** In whatever order and however often the channels are listed, each ends with exactly its own list. */
  lemma {:induction false} SyncPassLinks(s: State, ids: seq<uint32>, r: map<uint32, seq<uint32>>, made: Channel, j: uint32)
    requires Inv(s) && j in s.channels
    requires Lists(s.channels, ids, r)
    ensures Inv(SyncPass(s, ids, r, made)) && SyncPass(s, ids, r, made).channels == s.channels
    ensures LinksOf(SyncPass(s, ids, r, made), j) == if j in ids then Resolved(s.channels, Listed(r, j)) else LinksOf(s, j)
  {
    if ids != [] {
      var n := |ids| - 1;
      SyncPassLinks(s, ids[..n], r, made, j);
      LinksPacketAt(SyncPass(s, ids[..n], r, made), ids[n], Listed(r, ids[n]), made, j);
      assert j in ids <==> j in ids[..n] || j == ids[n];
    }
  }

  /** The relation lists only known channels, and lists both ends. */
  ghost predicate SymmetricRelation(channels: map<uint32, Channel>, r: map<uint32, seq<uint32>>) {
    forall j, k :: k in Listed(r, j) ==> k in channels && j in Listed(r, k)
  }

  ghost predicate LinksAre(t: State, r: map<uint32, seq<uint32>>) {
    forall j, k :: j in t.channels ==> (k in LinksOf(t, j) <==> k in Listed(r, j))
  }

  lemma RelationSymmetric(t: State, r: map<uint32, seq<uint32>>)
    requires SymmetricRelation(t.channels, r)
    requires forall j :: j in t.channels ==> LinksOf(t, j) == Resolved(t.channels, Listed(r, j))
    ensures Symmetric(t) && LinksAre(t, r)
  {
    forall j, k | j in t.channels ensures Mutual(t, j, k) {
    }
  }

  /** A pass over channels without links that sends a symmetric relation ends with links exactly that relation. */
  lemma SyncPassSymmetric(s: State, t: State, ids: seq<uint32>, r: map<uint32, seq<uint32>>, made: Channel)
    requires Inv(s) && SymmetricRelation(s.channels, r) && Lists(s.channels, ids, r)
    requires forall j :: j in s.channels && j !in ids ==> Listed(r, j) == []
    requires forall j :: j in s.channels ==> LinksOf(s, j) == map[]
    requires t == SyncPass(s, ids, r, made)
    ensures Symmetric(t) && LinksAre(t, r) && t.channels == s.channels
  {
    forall j | j in s.channels ensures t.channels == s.channels && LinksOf(t, j) == Resolved(s.channels, Listed(r, j)) {
      SyncPassLinks(s, ids, r, made, j);
    }
    if ids != [] {
      assert ids[0] in s.channels;
    }
    RelationSymmetric(t, r);
  }
}
