/** Conservation of users over the mirror's channels. */
module MirrorPopulation {
  import opened Bytes
  import opened Counting
  import opened Mirror
  import opened MirrorInv

  ghost function Population(s: State, channels: set<Channel>): (n: nat)
    decreases |channels|
  {
    if channels == {} then 0
    else
      var c :| c in channels;
      |At(s, c).users| + Population(s, channels - {c})
  }

  ghost function Inhabitants(s: State, channels: set<Channel>): (r: set<uint32>) {
    set k | k in s.users && Who(s, s.users[k]).channel in channels
  }

  /** The user maps of any set of channels hold together exactly the users in those channels. */
  lemma {:induction false} PopulationCounts(s: State, channels: set<Channel>)
    requires Membership(s) && channels <= s.chan.Keys
    ensures Population(s, channels) == |Inhabitants(s, channels)|
    decreases |channels|
  {
    if channels != {} {
      var c :| c in channels && Population(s, channels) == |At(s, c).users| + Population(s, channels - {c});
      PopulationCounts(s, channels - {c});
      var here, rest := At(s, c).users.Keys, Inhabitants(s, channels - {c});
      assert Inhabitants(s, channels) == here + rest by {
        forall k | k in Inhabitants(s, channels) ensures k in here + rest {
          assert Housed(s, k);
        }
        forall k | k in here ensures k in Inhabitants(s, channels) {
          assert Resident(s, c, k);
        }
      }
      assert here * rest == {} by {
        forall k | k in here ensures k !in rest {
          assert Resident(s, c, k);
        }
      }
    }
  }

  ghost function LiveChannels(s: State): (r: set<Channel>) {
    set k | k in s.channels :: s.channels[k]
  }

  ghost predicate Home(s: State, k: uint32)
    requires k in s.users
  {
    var c := Who(s, s.users[k]).channel;
    c != null && c in s.chan && Live(s, c)
  }

  /** Every connected user is in a live channel. */
  ghost predicate Settled(s: State) {
    forall k :: k in s.users ==> Home(s, k)
  }

  /** The live channels' user counts add up to the number of users exactly when all are settled. */
  lemma Conservation(s: State)
    requires Inv(s)
    ensures Population(s, LiveChannels(s)) == |s.users| <==> Settled(s)
  {
    var r := Inhabitants(s, LiveChannels(s));
    forall k | k in s.channels ensures s.channels[k] in s.chan && Live(s, s.channels[k]) {
      assert Hung(s, k);
    }
    PopulationCounts(s, LiveChannels(s));
    SubsetSize(r, s.users.Keys);
    forall k | k in s.users ensures k in r <==> Home(s, k) {
      assert Housed(s, k);
    }
    assert Settled(s) <==> r == s.users.Keys;
  }

  /** What a packet must not do to a settled mirror. */
  predicate Considerate(s: State, packet: Packet) {
    match packet
    case ChannelRemove(id) => id.Some? && id.value in s.channels ==> At(s, s.channels[id.value]).users == map[]
    case UserUpdate(p) => p.session.Some? && p.session.value !in s.users ==> 0 in s.channels
    case _ => true
  }

  lemma RemovesHome(s: State, t: State, c: Channel, k: uint32)
    requires Inv(s) && c in s.chan && Live(s, c) && Removes(s, t, c) && SameMembers(s, t) && k in s.users && Home(s, k)
    ensures Home(t, k) <==> k !in At(s, c).users
  {
    assert Housed(s, k);
    assert k in At(s, c).users ==> Resident(s, c, k);
    var d := Who(s, s.users[k]).channel;
    assert At(t, d).id == At(s, d).id;
  }

  lemma RemovesSettles(s: State, t: State, c: Channel)
    requires Inv(s) && Settled(s) && c in s.chan && Live(s, c) && Removes(s, t, c) && SameMembers(s, t)
    ensures Settled(t) <==> At(s, c).users == map[]
  {
    forall k | k in s.users ensures Home(t, k) <==> k !in At(s, c).users {
      RemovesHome(s, t, c, k);
    }
    if k :| k in At(s, c).users {
      assert Resident(s, c, k);
    } else {
      assert At(s, c).users == map[];
    }
  }

  lemma RemovalSettles(s: State, c: Channel)
    requires Inv(s) && Settled(s) && c in s.chan && Live(s, c)
    ensures Settled(RemoveChannel(s, c)) <==> At(s, c).users == map[]
  {
    assert Hung(s, At(s, c).id);
    RemoveChannelRemoves(s, c);
    RemovesSettles(s, RemoveChannel(s, c), c);
  }

  /** Settled users stay settled while their channels keep id and registration. */
  lemma MoreChannelsSettle(s: State, t: State)
    requires Settled(s) && t.users == s.users && t.user == s.user && s.chan.Keys <= t.chan.Keys
    requires forall k :: k in s.channels ==> k in t.channels && t.channels[k] == s.channels[k]
    requires forall c :: c in s.chan ==> At(t, c).id == At(s, c).id
    ensures Settled(t)
  {
    forall k | k in t.users ensures Home(t, k) {
      assert Home(s, k);
    }
  }

  lemma PlacedSettles(s: State, c: Channel, p: ChannelState)
    requires Inv(s) && Settled(s) && c in s.chan && Live(s, c)
    ensures Settled(Placed(s, c, p))
  {
    PlacedMoves(s, c, p);
    MoreChannelsSettle(s, Placed(s, c, p));
  }

  lemma EnsuredSettles(s: State, id: uint32, made: Channel)
    requires Settled(s) && made !in s.chan
    ensures Settled(Ensured(s, id, made))
  {
    MoreChannelsSettle(s, Ensured(s, id, made));
  }

  lemma ChannelUpdateSettles(s: State, id: uint32, p: ChannelState, made: Channel)
    requires Inv(s) && Settled(s) && made !in s.chan
    ensures Settled(UpdateChannel(s, id, p, made))
  {
    EnsuredSettles(s, id, made);
    EnsuredKeepsInv(s, id, made);
    PlacedSettles(Ensured(s, id, made), Target(s, id, made), p);
    UpdateChannelStructure(s, id, p, made);
    SameStructureSettles(Placed(Ensured(s, id, made), Target(s, id, made), p), UpdateChannel(s, id, p, made));
  }

  lemma SameStructureSettles(s: State, t: State)
    requires Settled(s) && SameStructure(s, t)
    ensures Settled(t)
  {
    forall c | c in s.chan ensures At(t, c).id == At(s, c).id {
      assert SameNode(At(s, c), At(t, c));
    }
    MoreChannelsSettle(s, t);
  }

  /** Among users and channels alone, settling depends on the users' channels and the channel ids. */
  lemma HomeFrame(s: State, t: State, k: uint32)
    requires k in s.users && k in t.users && OnlyUsers(s, t)
    requires Who(t, t.users[k]).channel == Who(s, s.users[k]).channel
    ensures Home(t, k) <==> Home(s, k)
  {
    var c := Who(s, s.users[k]).channel;
    assert c != null && c in s.chan ==> At(t, c).id == At(s, c).id;
  }

  lemma UserRemovalSettles(s: State, u: User, banned: bool)
    requires Inv(s) && Settled(s) && u in s.user && Known(s, u)
    ensures Settled(RemoveUser(s, u, banned))
  {
    var t := RemoveUser(s, u, banned);
    assert Housed(s, Who(s, u).session);
    RemoveUserRelocates(s, u, banned);
    forall k | k in t.users ensures Home(t, k) {
      assert Home(s, k);
      HomeFrame(s, t, k);
    }
  }

  lemma ArrivalSettles(s: State, session: uint32, u: User)
    requires Inv(s) && Settled(s) && u !in s.user && session !in s.users
    ensures Settled(EnterRoot(s, session, u)) <==> 0 in s.channels
  {
    var t := EnterRoot(s, session, u);
    assert 0 in s.channels ==> Hung(s, 0);
    EnterRootArrives(s, session, u);
    assert OnlyUsers(s, t);
    forall k | k in s.users ensures Home(t, k) {
      assert Home(s, k) && Housed(s, k);
      HomeFrame(s, t, k);
    }
    NewcomerHome(s, t, session, u);
  }

  lemma NewcomerHome(s: State, t: State, session: uint32, u: User)
    requires Inv(s) && t.users == s.users[session := u] && t.channels == s.channels && t.user == s.user[u := Who(t, u)]
    requires OnlyUsers(s, t) && Who(t, u).channel == ChannelOf(s, 0)
    ensures Home(t, session) <==> 0 in s.channels
  {
    assert 0 in s.channels ==> Hung(s, 0);
  }

  lemma MovedHome(s: State, t: State, u: User, p: UserState, connected: bool, k: uint32)
    requires Inv(s) && Settled(s) && u in s.user && Known(s, u) && k in s.users && t == UpdateUser(s, u, p, connected)
    requires !Homeless(s.channels, p) && OnlyUsers(s, t)
    ensures k in t.users && Home(t, k)
  {
    assert Home(s, k) && Housed(s, k);
    UpdatedUser(s, t, u, p, connected);
    if p.channelId.None? || s.users[k] != u {
      HomeFrame(s, t, k);
    } else {
      assert Hung(s, p.channelId.value);
      assert At(t, s.channels[p.channelId.value]).id == p.channelId.value;
    }
  }

  lemma UserUpdateSettles(s: State, u: User, p: UserState, connected: bool)
    requires Inv(s) && Settled(s) && u in s.user && Known(s, u) && !Homeless(s.channels, p)
    ensures Settled(UpdateUser(s, u, p, connected))
  {
    var t := UpdateUser(s, u, p, connected);
    UpdateUserOnlyUsers(s, u, p, connected);
    UpdatedUser(s, t, u, p, connected);
    forall k | k in t.users ensures Home(t, k) {
      MovedHome(s, t, u, p, connected, k);
    }
  }

  lemma ArrivedSettles(s: State, session: uint32, made: User)
    requires Inv(s) && Settled(s) && made !in s.user
    ensures Settled(Arrived(s, session, made)) <==> session in s.users || 0 in s.channels
  {
    if session !in s.users {
      ArrivalSettles(s, session, made);
    }
  }

  lemma ContinuedSettles(s: State, u: User, p: UserState, connected: bool)
    requires Inv(s) && u in s.user && Known(s, u) && !Continued(s, u, p, connected).Stuck?
    requires connected && 0 !in s.channels ==> !Settled(s)
    ensures Settled(s) ==> Settled(Continued(s, u, p, connected).state)
    ensures connected && 0 !in s.channels ==> !Settled(Continued(s, u, p, connected).state)
  {
    if Settled(s) && !Homeless(s.channels, p) {
      UserUpdateSettles(s, u, p, connected);
    }
  }

  lemma UserStateSettles(s: State, p: UserState, made: User)
    requires Inv(s) && Settled(s) && made !in s.user && p.session.Some? && !HandleUserState(s, p, made).Stuck?
    ensures Settled(HandleUserState(s, p, made).state) <==> p.session.value in s.users || 0 in s.channels
  {
    var session := p.session.value;
    ArrivedKeepsInv(s, session, made);
    ArrivedSettles(s, session, made);
    ContinuedSettles(Arrived(s, session, made), Arrived(s, session, made).users[session], p, session !in s.users);
  }

  lemma ChannelRemoveSettles(s: State, id: Option<uint32>)
    requires Inv(s) && Settled(s)
    ensures Settled(HandleChannelRemove(s, id).state) <==> Considerate(s, ChannelRemove(id))
  {
    if id.Some? && id.value in s.channels {
      assert Hung(s, id.value);
      RemovalSettles(s, s.channels[id.value]);
    }
  }

  lemma UserRemoveSettles(s: State, session: Option<uint32>, actor: Option<uint32>, reason: Option<string>, ban: Option<bool>)
    requires Inv(s) && Settled(s)
    ensures Settled(HandleUserRemove(s, session, actor, reason, ban).state)
  {
    if session.Some? && session.value in s.users {
      assert Housed(s, session.value);
      UserRemovalSettles(s, s.users[session.value], Or(ban, false));
    }
  }

  lemma PermissionQuerySettles(s: State, id: Option<uint32>, granted: Option<uint32>, flush: bool, order: seq<uint32>)
    requires Settled(s)
    ensures Settled(HandlePermissionQuery(s, id, granted, flush, order).state)
  {
    MoreChannelsSettle(s, HandlePermissionQuery(s, id, granted, flush, order).state);
  }

  /** A step from a settled mirror keeps it settled exactly when the packet is considerate. */
  lemma StepSettles(s: State, i: Input)
    requires Inv(s) && Settled(s) && Admissible(s, i) && !Handle(s, i).Stuck?
    ensures Settled(Handle(s, i).state) <==> Considerate(s, i.packet)
  {
    match i.packet
    case ChannelRemove(id) =>
      ChannelRemoveSettles(s, id);
    case ChannelUpdate(p) =>
      if p.channelId.Some? {
        ChannelUpdateSettles(s, p.channelId.value, p, i.channel);
      }
    case UserRemove(session, actor, reason, ban) =>
      UserRemoveSettles(s, session, actor, reason, ban);
    case UserUpdate(p) =>
      if p.session.Some? {
        UserStateSettles(s, p, i.user);
      }
    case PermissionQuery(id, granted, flush) =>
      PermissionQuerySettles(s, id, granted, Or(flush, false), i.order);
    case ServerSync(_) =>
      MoreChannelsSettle(s, Handle(s, i).state);
  }

  /** A user that comes before the root is in no channel, and the counts do not add up. */
  lemma UserBeforeRoot(i: Input)
    requires Admissible(START, i) && i.packet.UserUpdate? && i.packet.user.session.Some?
    ensures !Handle(START, i).Stuck?
    ensures var t := Handle(START, i).state; Inv(t) && Population(t, LiveChannels(t)) != |t.users|
  {
    StuckHandler(START, i);
    StepSettles(START, i);
    StepKeepsInv(START, i);
    Conservation(Handle(START, i).state);
  }

  /** Removing a channel with a user in it leaves the user in no live channel. */
  lemma OccupiedChannelRemoved(s: State, i: Input, id: uint32)
    requires Inv(s) && Settled(s) && Admissible(s, i) && i.packet == ChannelRemove(Some(id))
    requires id in s.channels && At(s, s.channels[id]).users != map[]
    ensures var t := Handle(s, i).state; Inv(t) && Population(t, LiveChannels(t)) != |t.users|
  {
    StepSettles(s, i);
    StepKeepsInv(s, i);
    Conservation(Handle(s, i).state);
  }

  /**
   * If the root exists before the first user and stays, and only empty channels are removed, then in
   * every state of the run the live channels' user counts add up to the number of users.
   */
  lemma {:induction false} RunConserves(ss: seq<State>, ins: seq<Input>, n: nat)
    requires Run(ss, ins) && n <= |ins|
    requires forall i :: 0 <= i < n ==> Considerate(ss[i], ins[i].packet)
    ensures Settled(ss[n]) && Population(ss[n], LiveChannels(ss[n])) == |ss[n].users|
  {
    RunKeepsInv(ss, ins, n);
    if n > 0 {
      RunKeepsInv(ss, ins, n - 1);
      RunConserves(ss, ins, n - 1);
      assert StepsTo(ss[n - 1], ins[n - 1], ss[n]);
      StepSettles(ss[n - 1], ins[n - 1]);
    }
    Conservation(ss[n]);
  }
}
