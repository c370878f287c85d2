/** The effects of the packets and the invariant leave nothing open: they determine the mirror and its events. */
module MirrorExact {
  import opened Bytes
  import opened Mirror
  import opened MirrorInv
  import opened MirrorEvents
  import opened MirrorPackets

  // ---- What the invariant determines ----

  lemma MembersDetermined(t: State, r: State, c: Channel)
    requires Membership(t) && Membership(r) && t.user == r.user && t.users == r.users && t.chan.Keys == r.chan.Keys && c in t.chan
    ensures At(t, c).users == At(r, c).users
  {
    forall k ensures k in At(t, c).users <==> k in At(r, c).users {
      if k in At(t, c).users {
        assert Resident(t, c, k) && Housed(r, k);
      }
      if k in At(r, c).users {
        assert Resident(r, c, k) && Housed(t, k);
      }
    }
    forall k | k in At(t, c).users ensures At(t, c).users[k] == At(r, c).users[k] {
      assert Resident(t, c, k) && Resident(r, c, k);
    }
  }

  ghost predicate SameParents(t: State, r: State) {
    t.channels == r.channels && t.chan.Keys == r.chan.Keys && forall c :: c in t.chan ==> At(t, c).parent == At(r, c).parent
  }

  lemma ChildIsChild(t: State, r: State, c: Channel, k: uint32)
    requires Tree(t) && Tree(r) && SameParents(t, r) && c in t.chan && k in At(t, c).children
    ensures k in At(r, c).children && At(r, c).children[k] == At(t, c).children[k]
  {
    assert Child(t, c, k) && Hung(t, k) && Hung(r, k);
  }

  lemma ChildrenDetermined(t: State, r: State, c: Channel)
    requires Tree(t) && Tree(r) && SameParents(t, r) && c in t.chan
    ensures At(t, c).children == At(r, c).children
  {
    forall k ensures k in At(t, c).children <==> k in At(r, c).children {
      if k in At(t, c).children {
        ChildIsChild(t, r, c, k);
      }
      if k in At(r, c).children {
        ChildIsChild(r, t, c, k);
      }
    }
    forall k | k in At(t, c).children ensures At(t, c).children[k] == At(r, c).children[k] {
      ChildIsChild(t, r, c, k);
    }
  }

  /** The fields of a channel that the invariant does not determine. */
  predicate SameOwnFields(a: ChannelRec, b: ChannelRec) {
    a.id == b.id && a.name == b.name && a.parent == b.parent && a.links == b.links && a.info == b.info
  }

  ghost predicate SameChannels(t: State, r: State) {
    t.channels == r.channels && t.chan.Keys == r.chan.Keys && forall c :: c in t.chan ==> SameOwnFields(At(t, c), At(r, c))
  }

  lemma ChannelDetermined(t: State, r: State, c: Channel)
    requires Inv(t) && Inv(r) && SameChannels(t, r) && t.user == r.user && t.users == r.users && c in t.chan
    ensures At(t, c) == At(r, c)
  {
    assert SameOwnFields(At(t, c), At(r, c));
    forall d | d in t.chan ensures At(t, d).parent == At(r, d).parent {
      assert SameOwnFields(At(t, d), At(r, d));
    }
    MembersDetermined(t, r, c);
    ChildrenDetermined(t, r, c);
  }

  /** Consistent mirrors with the same users and the same own fields of channels are the same. */
  lemma MirrorDetermined(t: State, r: State)
    requires Inv(t) && Inv(r) && SameChannels(t, r) && SamePeople(t, r) && t.permissions == r.permissions
    ensures t == r
  {
    forall c | c in t.chan ensures t.chan[c] == r.chan[c] {
      ChannelDetermined(t, r, c);
      assert At(t, c) == t.chan[c] && At(r, c) == r.chan[c];
    }
  }

  // ---- Packet by packet ----

  lemma ChannelRemoveDetermined(s: State, id: Option<uint32>, o: Outcome, q: Outcome)
    requires ChannelRemoveEffect(s, id, o) && ChannelRemoveEffect(s, id, q) && Inv(o.state) && Inv(q.state)
    ensures o == q
  {
    if id.Some? && id.value in s.channels {
      var t, r := o.state, q.state;
      forall c | c in t.chan ensures SameOwnFields(At(t, c), At(r, c)) {
        assert Unhooked(At(s, s.channels[id.value]), At(s, c), At(t, c), c, id.value);
        assert Unhooked(At(s, s.channels[id.value]), At(s, c), At(r, c), c, id.value);
      }
      MirrorDetermined(t, r);
      assert o.events == q.events;
    }
  }

  lemma FieldsDetermined(p: ChannelState, was: ChannelRec, a: ChannelRec, b: ChannelRec)
    requires ChannelFields(p, was, a) && ChannelFields(p, was, b)
    ensures a.name == b.name && a.info == b.info
  {
  }

  lemma OwnLinksDetermined(channels: map<uint32, Channel>, was: map<uint32, Channel>, a: map<uint32, Channel>, b: map<uint32, Channel>, p: ChannelState)
    requires forall k :: OwnLink(channels, was, a, p, k)
    requires forall k :: OwnLink(channels, was, b, p, k)
    ensures a == b
  {
    forall k ensures k in a <==> k in b {
      assert OwnLink(channels, was, a, p, k) && OwnLink(channels, was, b, p, k);
    }
    forall k | k in a ensures a[k] == b[k] {
      assert OwnLink(channels, was, a, p, k) && OwnLink(channels, was, b, p, k);
    }
  }

  lemma OwnDetermined(t: State, r: State, was: ChannelRec, a: ChannelRec, b: ChannelRec, p: ChannelState)
    requires t.channels == r.channels && OwnSet(t, was, a, p) && OwnSet(r, was, b, p)
    ensures SameOwnFields(a, b)
  {
    FieldsDetermined(p, was, a, b);
    OwnLinksDetermined(t.channels, was.links, a.links, b.links, p);
  }

  lemma ChannelSetDetermined(s: State, t: State, r: State, id: uint32, p: ChannelState, made: Channel)
    requires ChannelSet(s, t, id, p, made) && ChannelSet(s, r, id, p, made)
    ensures SameChannels(t, r) && SamePeople(t, r) && t.permissions == r.permissions
  {
    var c := if id in s.channels then s.channels[id] else made;
    forall d | d in t.chan ensures SameOwnFields(At(t, d), At(r, d)) {
      if d == c {
        OwnDetermined(t, r, Previous(s, id), At(t, c), At(r, c), p);
      } else {
        assert OtherSet(At(s, d), At(t, d), Live(s, d), c, id, p) && OtherSet(At(s, d), At(r, d), Live(s, d), c, id, p);
      }
    }
  }

  lemma BitsDetermined(a: set<ChannelChange>, b: set<ChannelChange>, s: State, id: uint32, channels: map<uint32, Channel>, p: ChannelState, was: ChannelRec, now: ChannelRec)
    requires BitsSay(a, s, id, channels, p, was, now) && BitsSay(b, s, id, channels, p, was, now)
    ensures a == b
  {
    forall x ensures x in a <==> x in b {
      assert x in a <==> ChannelBit(x, s, id, channels, p, was, now);
    }
  }

  lemma ChannelStateDetermined(s: State, p: ChannelState, made: Channel, o: Outcome, q: Outcome)
    requires ChannelStateEffect(s, p, made, o) && ChannelStateEffect(s, p, made, q) && Inv(o.state) && Inv(q.state)
    ensures o == q
  {
    if p.channelId.Some? {
      var id, t := p.channelId.value, o.state;
      ChannelSetDetermined(s, t, q.state, id, p, made);
      MirrorDetermined(t, q.state);
      if s.synced {
        BitsDetermined(o.events[0].ctype, q.events[0].ctype, s, id, t.channels, p, Previous(s, id), At(t, t.channels[id]));
        assert o.events == [o.events[0]] && q.events == [q.events[0]];
      }
    }
  }

  lemma OnlyUsersDetermined(s: State, t: State, r: State)
    requires OnlyUsers(s, t) && OnlyUsers(s, r)
    ensures SameChannels(t, r) && t.permissions == r.permissions
  {
    forall c | c in t.chan ensures SameOwnFields(At(t, c), At(r, c)) {
    }
  }

  lemma FlagsDetermined(t: State, r: State)
    requires UsersFlagged(t) && UsersFlagged(r) && t.users == r.users && t.user.Keys == r.user.Keys
    requires forall v :: v in t.user ==> SameButClient(Who(t, v), Who(r, v))
    ensures t.user == r.user
  {
    forall v | v in t.user ensures t.user[v] == r.user[v] {
      assert SameButClient(Who(t, v), Who(r, v)) && (Who(t, v).client <==> Known(t, v)) && (Who(r, v).client <==> Known(r, v));
      assert Who(t, v) == t.user[v] && Who(r, v) == r.user[v];
    }
  }

  lemma RemovalDetermined(s: State, k: uint32, actor: Option<uint32>, reason: Option<string>, ban: Option<bool>, e: Event, f: Event)
    requires k in s.users && RemovalSaid(s, k, actor, reason, ban, e) && RemovalSaid(s, k, actor, reason, ban, f)
    ensures e == f
  {
    forall x ensures x in e.utype <==> x in f.utype {
      assert x in e.utype <==> RemovalBit(x, actor, ban);
    }
  }

  lemma UserGoneDetermined(s: State, t: State, r: State, k: uint32, ban: Option<bool>)
    requires k in s.users && UserGone(s, t, k, ban) && UserGone(s, r, k, ban) && Inv(t) && Inv(r)
    ensures t == r
  {
    forall v | v in t.user ensures SameButClient(Who(t, v), Who(r, v)) {
      assert SameButClient(Who(s, v), Who(t, v)) && SameButClient(Who(s, v), Who(r, v));
    }
    FlagsDetermined(t, r);
    OnlyUsersDetermined(s, t, r);
    MirrorDetermined(t, r);
  }

  lemma UserRemoveDetermined(s: State, session: Option<uint32>, actor: Option<uint32>, reason: Option<string>, ban: Option<bool>, o: Outcome, q: Outcome)
    requires UserRemoveEffect(s, session, actor, reason, ban, o) && UserRemoveEffect(s, session, actor, reason, ban, q)
    requires Inv(o.state) && Inv(q.state)
    ensures o == q
  {
    if !RemovalRefused(s, session, actor) {
      UserGoneDetermined(s, o.state, q.state, session.value, ban);
      if s.synced {
        RemovalDetermined(s, session.value, actor, reason, ban, o.events[0], q.events[0]);
        assert o.events == [o.events[0]] && q.events == [q.events[0]];
      }
    }
  }

  lemma UserFieldsDetermined(p: UserState, was: UserInfo, a: UserInfo, b: UserInfo, known: bool)
    requires UserFields(p, was, a, known) && UserFields(p, was, b, known)
    ensures a == b
  {
    assert a.audio == b.audio && a.blobs == b.blobs;
  }

  lemma UserPutDetermined(s: State, t: State, r: State, k: uint32, made: User)
    requires UserPut(s, t, k, made) && UserPut(s, r, k, made) && Who(t, t.users[k]) == Who(r, t.users[k]) && Inv(t) && Inv(r)
    ensures t == r
  {
    OnlyUsersDetermined(s, t, r);
    MirrorDetermined(t, r);
  }

  lemma UserSaidDetermined(s: State, t: State, k: uint32, p: UserState, e: Event, f: Event)
    requires k in t.users && UserSaid(s, t, k, p, e) && UserSaid(s, t, k, p, f)
    ensures e == f
  {
    forall x ensures x in e.utype <==> x in f.utype {
      assert x in e.utype <==> UserBit(x, s, k, p, Former(s, k), Who(t, t.users[k]));
    }
  }

  lemma UserSetDetermined(s: State, t: State, r: State, k: uint32, p: UserState, made: User)
    requires UserPut(s, t, k, made) && UserPut(s, r, k, made) && Inv(t) && Inv(r)
    requires UserSet(s, Former(s, k), Who(t, t.users[k]), k, p) && UserSet(s, Former(s, k), Who(r, r.users[k]), k, p)
    ensures t == r
  {
    UserFieldsDetermined(p, Former(s, k).info, Who(t, t.users[k]).info, Who(r, r.users[k]).info, k in s.users);
    UserPutDetermined(s, t, r, k, made);
  }

  lemma UserEventsDetermined(s: State, t: State, k: uint32, p: UserState, a: seq<Event>, b: seq<Event>)
    requires k in t.users && OneEvent(s, a) && OneEvent(s, b)
    requires s.synced ==> UserSaid(s, t, k, p, a[0]) && UserSaid(s, t, k, p, b[0])
    ensures a == b
  {
    if s.synced {
      UserSaidDetermined(s, t, k, p, a[0], b[0]);
      assert a == [a[0]] && b == [b[0]];
    }
  }

  lemma UserStateDetermined(s: State, p: UserState, made: User, o: Outcome, q: Outcome)
    requires UserStateEffect(s, p, made, o) && UserStateEffect(s, p, made, q) && Inv(o.state) && Inv(q.state) && !o.Stuck?
    ensures o == q
  {
    if p.session.Some? {
      var k := p.session.value;
      if UpdateRefused(s, k, p) {
        UserPutDetermined(s, o.state, q.state, k, made);
      } else {
        UserSetDetermined(s, o.state, q.state, k, p, made);
        UserEventsDetermined(s, o.state, k, p, o.events, q.events);
      }
    }
  }

  lemma PermissionQueryDetermined(s: State, id: Option<uint32>, granted: Option<uint32>, flush: Option<bool>, order: seq<uint32>, o: Outcome, q: Outcome)
    requires PermissionQueryEffect(s, id, granted, flush, order, o) && PermissionQueryEffect(s, id, granted, flush, order, q)
    ensures o == q
  {
    if !(id.Some? && granted.Some? && id.value !in s.channels) {
      var a, b := o.state.permissions, q.state.permissions;
      forall k ensures k in a <==> k in b {
        assert Cached(s.permissions, a, id, granted, flush, k) && Cached(s.permissions, b, id, granted, flush, k);
      }
      forall k | k in a ensures a[k] == b[k] {
        assert Cached(s.permissions, a, id, granted, flush, k) && Cached(s.permissions, b, id, granted, flush, k);
      }
      assert a == b && o.events == q.events;
    }
  }

  /** Whatever has the effect of a packet that returns, and a consistent mirror, is what the handler does. */
  lemma EffectIsExact(s: State, i: Input, o: Outcome)
    requires Inv(s) && Admissible(s, i) && Returns(s, i.packet) && Inv(o.state)
    ensures Effect(s, i, o) <==> o == Handle(s, i)
  {
    StepEffect(s, i);
    HandlerReturns(s, i);
    StepKeepsInv(s, i);
    if Effect(s, i, o) {
      Determined(s, i, o, Handle(s, i));
    }
  }

  lemma Determined(s: State, i: Input, o: Outcome, q: Outcome)
    requires Effect(s, i, o) && Effect(s, i, q) && Inv(o.state) && Inv(q.state) && (q.Done? || q.Failed?)
    ensures o == q
  {
    match i.packet
    case ChannelRemove(id) => ChannelRemoveDetermined(s, id, o, q);
    case ChannelUpdate(p) => ChannelStateDetermined(s, p, i.channel, o, q);
    case UserRemove(session, actor, reason, ban) => UserRemoveDetermined(s, session, actor, reason, ban, o, q);
    case UserUpdate(p) => UserStateDetermined(s, p, i.user, o, q);
    case PermissionQuery(id, granted, flush) => PermissionQueryDetermined(s, id, granted, flush, i.order, o, q);
    case ServerSync(me) =>
  }
}
