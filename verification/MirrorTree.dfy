/** Acyclicity of the Parent relation, and paths through the channel tree. */
module MirrorTree {
  import opened Bytes
  import opened Counting
  import opened Mirror
  import opened MirrorInv

  /** The n-th ancestor, null beyond the top. */
  ghost function Up(s: State, c: Channel?, n: nat): (r: Channel?) {
    if n == 0 || c == null then c else Up(s, At(s, c).parent, n - 1)
  }

  ghost predicate Acyclic(s: State) {
    forall c, n: nat :: c in s.chan && n > 0 ==> Up(s, c, n) != c
  }

  /** `c` is `p` or one of its ancestors. */
  ghost predicate Below(s: State, p: Channel?, c: Channel) {
    exists n: nat :: Up(s, p, n) == c
  }

  lemma {:induction false} UpAdd(s: State, c: Channel?, m: nat, n: nat)
    ensures Up(s, Up(s, c, m), n) == Up(s, c, m + n)
  {
    if m > 0 && c != null {
      UpAdd(s, At(s, c).parent, m - 1, n);
    }
  }

  lemma FirstHit(s: State, x: Channel?, c: Channel, n: nat) returns (m: nat)
    requires Up(s, x, n) == c
    ensures m <= n && Up(s, x, m) == c && forall j :: 0 <= j < m ==> Up(s, x, j) != c
  {
    m := 0;
    while Up(s, x, m) != c
      invariant m <= n && forall j :: 0 <= j < m ==> Up(s, x, j) != c
      decreases n - m
    {
      m := m + 1;
    }
  }

  /** All objects but `c` have the same parent in both states. */
  ghost predicate SameParents(s: State, t: State, c: Channel?) {
    forall d :: d in s.chan.Keys + t.chan.Keys && d != c ==> At(t, d).parent == At(s, d).parent
  }

  lemma {:induction false} UpAgrees(s: State, t: State, c: Channel?, x: Channel?, n: nat)
    requires SameParents(s, t, c) && forall j :: 0 <= j < n && Up(s, x, j) != null ==> Up(s, x, j) != c
    ensures Up(t, x, n) == Up(s, x, n)
  {
    if n > 0 && x != null {
      assert Up(s, x, 0) == x;
      forall j | 0 <= j < n - 1 && Up(s, At(s, x).parent, j) != null ensures Up(s, At(s, x).parent, j) != c {
        assert Up(s, x, j + 1) == Up(s, At(s, x).parent, j);
      }
      UpAgrees(s, t, c, At(s, x).parent, n - 1);
    }
  }

  lemma CycleThrough(t: State, y: Channel, n: nat, j: nat, c: Channel)
    requires Up(t, y, n) == y && j < n && Up(t, y, j) == c
    ensures Up(t, c, n) == c
  {
    UpAdd(t, y, j, n - j);
    UpAdd(t, c, n - j, j);
  }

  lemma CycleIsBelow(s: State, t: State, c: Channel, p: Channel?, n: nat)
    requires c in s.chan && SameParents(s, t, c) && At(t, c).parent == p && n > 0 && Up(t, c, n) == c
    ensures Below(s, p, c)
  {
    var m := FirstHit(t, p, c, n - 1);
    UpAgrees(t, s, c, p, m);
  }

  /** Moving a channel keeps the Parent relation acyclic exactly when it is not moved into its own subtree. */
  lemma MoveKeepsAcyclic(s: State, t: State, c: Channel, p: Channel?)
    requires Acyclic(s) && c in s.chan && c in t.chan && SameParents(s, t, c) && At(t, c).parent == p
    ensures Acyclic(t) <==> !Below(s, p, c)
  {
    if n: nat :| Up(s, p, n) == c {
      var m := FirstHit(s, p, c, n);
      UpAgrees(s, t, c, p, m);
      assert Up(t, c, m + 1) == c;
    } else {
      forall y, n: nat | y in t.chan && n > 0 ensures Up(t, y, n) != y {
        if Up(t, y, n) == y {
          if j :| 0 <= j < n && Up(t, y, j) == c {
            CycleThrough(t, y, n, j, c);
            CycleIsBelow(s, t, c, p, n);
          } else {
            UpAgrees(t, s, c, y, n);
          }
          assert false;
        }
      }
    }
  }

  lemma SameParentsAcyclic(s: State, t: State)
    requires Acyclic(s) && SameParents(s, t, null)
    ensures Acyclic(t)
  {
    forall y, n: nat | y in t.chan && n > 0 ensures Up(t, y, n) != y {
      UpAgrees(s, t, null, y, n);
      assert y !in s.chan ==> Up(s, y, n) == Up(s, null, n - 1);
    }
  }

  /** Whether a ChannelState packet moves a channel into its own subtree. */
  ghost predicate Loops(s: State, packet: Packet) {
    && packet.ChannelUpdate? && packet.channel.channelId.Some? && packet.channel.parent.Some?
    && var id, parent := packet.channel.channelId.value, packet.channel.parent.value;
      id == parent || (id in s.channels && parent in s.channels && Below(s, s.channels[parent], s.channels[id]))
  }

  lemma ParentsOfMove(s: State, t: State, c: Channel, p: ChannelState)
    requires Inv(s) && c in s.chan && Live(s, c) && SameStructure(Placed(s, c, p), t)
    ensures c in t.chan && SameParents(s, t, c)
    ensures At(t, c).parent == if p.parent.Some? then ChannelOf(s, p.parent.value) else At(s, c).parent
  {
    PlacedMoves(s, c, p);
    var s2 := Placed(s, c, p);
    forall d | d in s.chan ensures At(t, d).parent == At(s2, d).parent {
      assert SameNode(At(s2, d), At(t, d));
    }
  }

  lemma NotAboveNil(s: State, c: Channel)
    ensures !Below(s, null, c)
  {
    forall n: nat ensures Up(s, null, n) != c {
    }
  }

  /** The new parent is below the channel exactly if the packet says so. */
  lemma BelowTarget(s: State, id: uint32, parent: uint32, made: Channel)
    requires Inv(s) && made !in s.chan
    ensures var s1, c := Ensured(s, id, made), Target(s, id, made);
      Below(s1, ChannelOf(s1, parent), c) <==>
      id == parent || (id in s.channels && parent in s.channels && Below(s, s.channels[parent], s.channels[id]))
  {
    var s1, c := Ensured(s, id, made), Target(s, id, made);
    if id == parent {
      assert Up(s1, c, 0) == c;
    } else if parent !in s.channels {
      NotAboveNil(s1, c);
    } else if id !in s.channels {
      NotBelowNew(s, s1, parent, made);
    }
  }

  lemma NotBelowNew(s: State, t: State, parent: uint32, made: Channel)
    requires Tree(s) && made !in s.chan && parent in s.channels && SameParents(s, t, null)
    ensures !Below(t, s.channels[parent], made)
  {
    assert Hung(s, parent);
    forall n: nat ensures Up(t, s.channels[parent], n) != made {
      NothingReachesNew(s, t, s.channels[parent], n, made);
    }
  }

  /** Pointers lead only to objects that exist. */
  lemma {:induction false} NothingReachesNew(s: State, t: State, x: Channel, n: nat, made: Channel)
    requires Tree(s) && x in s.chan && made !in s.chan && SameParents(s, t, null)
    ensures Up(t, x, n) != made
  {
    assert ParentExists(s, x);
    if n > 0 && At(s, x).parent != null {
      NothingReachesNew(s, t, At(s, x).parent, n - 1, made);
    }
  }

  lemma EnsuredAcyclic(s: State, id: uint32, made: Channel)
    requires Acyclic(s) && made !in s.chan
    ensures Acyclic(Ensured(s, id, made))
  {
    SameParentsAcyclic(s, Ensured(s, id, made));
  }

  lemma PlacedAcyclic(s: State, t: State, c: Channel, p: ChannelState)
    requires Inv(s) && Acyclic(s) && c in s.chan && Live(s, c) && SameStructure(Placed(s, c, p), t)
    ensures Acyclic(t) <==> !(p.parent.Some? && Below(s, ChannelOf(s, p.parent.value), c))
  {
    ParentsOfMove(s, t, c, p);
    if p.parent.Some? {
      MoveKeepsAcyclic(s, t, c, ChannelOf(s, p.parent.value));
    } else {
      SameParentsAcyclic(s, t);
    }
  }

  /** A ChannelState keeps the Parent relation acyclic exactly when it does not move a channel under itself. */
  lemma UpdateAcyclic(s: State, id: uint32, p: ChannelState, made: Channel)
    requires Inv(s) && Acyclic(s) && made !in s.chan && p.channelId == Some(id)
    ensures Acyclic(UpdateChannel(s, id, p, made)) <==> !Loops(s, ChannelUpdate(p))
  {
    EnsuredKeepsInv(s, id, made);
    EnsuredAcyclic(s, id, made);
    UpdateChannelStructure(s, id, p, made);
    PlacedAcyclic(Ensured(s, id, made), UpdateChannel(s, id, p, made), Target(s, id, made), p);
    if p.parent.Some? {
      BelowTarget(s, id, p.parent.value, made);
    }
  }

  lemma OnlyUsersAcyclic(s: State, t: State)
    requires Acyclic(s) && OnlyUsers(s, t)
    ensures Acyclic(t)
  {
    SameParentsAcyclic(s, t);
  }

  lemma SameChannelsAcyclic(s: State, t: State)
    requires Acyclic(s) && t.chan == s.chan
    ensures Acyclic(t)
  {
    SameParentsAcyclic(s, t);
  }

  lemma RemovalAcyclic(s: State, id: Option<uint32>)
    requires Inv(s) && Acyclic(s)
    ensures Acyclic(HandleChannelRemove(s, id).state)
  {
    if id.Some? && id.value in s.channels {
      assert Hung(s, id.value);
      RemoveChannelRemoves(s, s.channels[id.value]);
      SameParentsAcyclic(s, RemoveChannel(s, s.channels[id.value]));
    }
  }

  lemma StepAcyclic(s: State, i: Input)
    requires Inv(s) && Acyclic(s) && Admissible(s, i)
    ensures Acyclic(Handle(s, i).state) <==> !Loops(s, i.packet)
  {
    match i.packet
    case ChannelRemove(id) =>
      RemovalAcyclic(s, id);
    case ChannelUpdate(p) =>
      if p.channelId.Some? {
        UpdateAcyclic(s, p.channelId.value, p, i.channel);
      }
    case UserRemove(session, actor, reason, ban) =>
      UserRemoveOnlyUsers(s, session, actor, reason, ban);
      OnlyUsersAcyclic(s, Handle(s, i).state);
    case UserUpdate(p) =>
      UserStateOnlyUsers(s, p, i.user);
      OnlyUsersAcyclic(s, Handle(s, i).state);
    case PermissionQuery(id, granted, flush) =>
      PermissionQueryFrame(s, id, granted, Or(flush, false), i.order);
      SameChannelsAcyclic(s, Handle(s, i).state);
    case ServerSync(_) =>
      SameChannelsAcyclic(s, Handle(s, i).state);
  }

  /** A first ChannelState whose parent is its own id makes a cycle. */
  lemma OwnParent(i: Input, id: uint32)
    requires Admissible(START, i) && i.packet.ChannelUpdate?
    requires i.packet.channel.channelId == Some(id) && i.packet.channel.parent == Some(id)
    ensures !Acyclic(Handle(START, i).state)
  {
    StepAcyclic(START, i);
  }

  /** If no move of the run goes into the moved subtree, the Parent relation is acyclic throughout. */
  lemma {:induction false} RunAcyclic(ss: seq<State>, ins: seq<Input>, n: nat)
    requires Run(ss, ins) && n <= |ins|
    requires forall i :: 0 <= i < n ==> !Loops(ss[i], ins[i].packet)
    ensures Acyclic(ss[n])
  {
    if n > 0 {
      RunKeepsInv(ss, ins, n - 1);
      RunAcyclic(ss, ins, n - 1);
      assert StepsTo(ss[n - 1], ins[n - 1], ss[n]);
      StepAcyclic(ss[n - 1], ins[n - 1]);
    }
  }

  // ---- Chains end ----

  /** Walking Parent pointers from `c` leaves the tree at some point. */
  ghost predicate Ends(s: State, c: Channel) {
    exists n: nat :: Up(s, c, n) == null
  }

  ghost function Ancestors(s: State, c: Channel?, n: nat): (r: set<Channel?>) {
    set j: nat | j < n :: Up(s, c, j)
  }

  lemma {:induction false} ChainSize(s: State, c: Channel, n: nat)
    requires Acyclic(s) && Up(s, c, n) != null
    ensures |Ancestors(s, c, n)| == n && Ancestors(s, c, n) <= s.chan.Keys
  {
    if n > 0 {
      var x := Up(s, c, n - 1);
      UpAdd(s, c, n - 1, 1);
      assert x != null;
      assert x in s.chan;
      ChainSize(s, c, n - 1);
      forall j: nat | j < n - 1 ensures Up(s, c, j) != x {
        UpAdd(s, c, j, n - 1 - j);
        assert Up(s, c, j) in Ancestors(s, c, n - 1);
      }
      assert Ancestors(s, c, n) == Ancestors(s, c, n - 1) + {x};
    }
  }

  lemma ChainEnds(s: State, c: Channel)
    requires Acyclic(s)
    ensures Ends(s, c)
  {
    if Up(s, c, |s.chan| + 1) != null {
      WalkIsShort(s, c, |s.chan| + 1);
    }
  }

  /** A walk that has not left the tree has taken at most as many steps as there are channels. */
  lemma WalkIsShort(s: State, c: Channel, n: nat)
    requires Acyclic(s) && Up(s, c, n) != null
    ensures n <= |s.chan|
  {
    ChainSize(s, c, n);
    SubsetSize(Ancestors(s, c, n), s.chan.Keys);
  }

  lemma {:induction false} CycleNeverEnds(s: State, c: Channel, n: nat, m: nat)
    requires n > 0 && Up(s, c, n) == c
    ensures Up(s, c, m) != null
  {
    if m <= n {
      UpAdd(s, c, m, n - m);
    } else {
      UpAdd(s, c, n, m - n);
      CycleNeverEnds(s, c, n, m - n);
    }
  }

  /** So a walk to the root from every channel ends exactly when the Parent relation is acyclic. */
  lemma WalksEnd(s: State)
    ensures Acyclic(s) <==> forall c :: c in s.chan ==> Ends(s, c)
  {
    if Acyclic(s) {
      forall c | c in s.chan ensures Ends(s, c) {
        ChainEnds(s, c);
      }
    } else {
      var c, n: nat :| c in s.chan && n > 0 && Up(s, c, n) == c;
      forall m: nat ensures Up(s, c, m) != null {
        CycleNeverEnds(s, c, n, m);
      }
    }
  }

  // ---- Paths ----

  function NameOf(s: State, c: Channel?): (name: string) {
    if c == null then "" else At(s, c).name
  }

  /** The channel has exactly n - 1 ancestors. */
  ghost predicate Depth(s: State, c: Channel, n: nat) {
    Up(s, c, n) == null && forall j :: 0 <= j < n ==> Up(s, c, j) != null
  }

  /** The names from the top down to `c`, for a channel at depth n. */
  ghost function Path(s: State, c: Channel, n: nat): (names: seq<string>) {
    seq(n, i requires 0 <= i < n => NameOf(s, Up(s, c, n - 1 - i)))
  }

  /**
   * The results Channel.Find may return: at each level it takes some child with the wanted name, in
   * an order the map iteration chooses, and gives up below that child if the rest is not there.
   */
  ghost predicate Finds(s: State, c: Channel, names: seq<string>, r: Channel?)
    decreases |names|
  {
    if names == [] then r == c
    else if exists k :: k in At(s, c).children && NameOf(s, At(s, c).children[k]) == names[0] then
      exists k :: k in At(s, c).children && NameOf(s, At(s, c).children[k]) == names[0] && Finds(s, At(s, c).children[k], names[1..], r)
    else r == null
  }

  /** Channels.Find. */
  ghost predicate FindsFromRoot(s: State, names: seq<string>, r: Channel?) {
    if 0 in s.channels then Finds(s, s.channels[0], names, r) else r == null
  }

  /** Reading Parent pointers from `r` upwards gives `names` in reverse and ends at `c`. */
  ghost predicate LiesAt(s: State, c: Channel, names: seq<string>, r: Channel?) {
    if names == [] then r == c
    else r != null && NameOf(s, r) == names[|names| - 1] && LiesAt(s, c, names[..|names| - 1], At(s, r).parent)
  }

  lemma {:induction false} LiesBelow(s: State, c: Channel, d: Channel, names: seq<string>, r: Channel?)
    requires At(s, d).parent == c && names != [] && NameOf(s, d) == names[0] && LiesAt(s, d, names[1..], r)
    ensures LiesAt(s, c, names, r)
    decreases |names|
  {
    if |names| == 1 {
      assert names[..0] == [];
    } else {
      assert names[1..][..|names| - 2] == names[..|names| - 1][1..];
      LiesBelow(s, c, d, names[..|names| - 1], At(s, r).parent);
    }
  }

  /** Whatever Find returns lies at the path it was given. */
  lemma {:induction false} FindIsSound(s: State, c: Channel, names: seq<string>, r: Channel?)
    requires Tree(s) && c in s.chan && Finds(s, c, names, r) && r != null
    ensures LiesAt(s, c, names, r)
    decreases |names|
  {
    if names != [] {
      var k :| k in At(s, c).children && NameOf(s, At(s, c).children[k]) == names[0] && Finds(s, At(s, c).children[k], names[1..], r);
      assert Child(s, c, k) && Hung(s, k);
      FindIsSound(s, s.channels[k], names[1..], r);
      LiesBelow(s, c, s.channels[k], names, r);
    }
  }

  /** No two children of a live channel share a name. */
  ghost predicate UniqueSiblings(s: State) {
    forall c, j, k :: c in s.chan && Live(s, c) && SameNamed(s, c, j, k) ==> j == k
  }

  predicate SameNamed(s: State, c: Channel, j: uint32, k: uint32) {
    var m := At(s, c).children;
    j in m && k in m && NameOf(s, m[j]) == NameOf(s, m[k])
  }

  /** Every channel on the way from `c` to its n-th ancestor is live, and that ancestor is the root. */
  ghost predicate UnderRoot(s: State, c: Channel, n: nat) {
    && 0 in s.channels && Up(s, c, n) == s.channels[0]
    && forall j :: 0 <= j < n ==> Up(s, c, j) in s.channels.Values
  }

  lemma FindTakes(s: State, c: Channel, k: uint32, names: seq<string>, r: Channel?)
    requires UniqueSiblings(s) && c in s.chan && Live(s, c) && names != []
    requires k in At(s, c).children && NameOf(s, At(s, c).children[k]) == names[0]
    ensures Finds(s, c, names, r) <==> Finds(s, At(s, c).children[k], names[1..], r)
  {
    forall j | j in At(s, c).children && NameOf(s, At(s, c).children[j]) == names[0] ensures j == k {
      assert SameNamed(s, c, j, k);
    }
  }

  lemma ChildOnPath(s: State, c: Channel, n: nat, j: nat) returns (k: uint32)
    requires Tree(s) && UnderRoot(s, c, n) && Depth(s, c, n + 1) && 0 < j <= n
    ensures Up(s, c, j) in s.chan && Live(s, Up(s, c, j)) && k in At(s, Up(s, c, j)).children && At(s, Up(s, c, j)).children[k] == Up(s, c, j - 1)
  {
    var child, parent := Up(s, c, j - 1), Up(s, c, j);
    UpAdd(s, c, j - 1, 1);
    assert child in s.channels.Values && (j < n ==> parent in s.channels.Values);
    var id: uint32 :| id in s.channels && s.channels[id] == parent;
    assert Hung(s, id);
    k :| k in s.channels && s.channels[k] == child;
    assert Hung(s, k);
  }

  /** The names from below the j-th ancestor down to `c`. */
  ghost function NamesBelow(s: State, c: Channel, j: nat): (names: seq<string>) {
    if j == 0 then [] else [NameOf(s, Up(s, c, j - 1))] + NamesBelow(s, c, j - 1)
  }

  lemma {:induction false} NamesBelowAt(s: State, c: Channel, j: nat)
    ensures |NamesBelow(s, c, j)| == j && forall i :: 0 <= i < j ==> NamesBelow(s, c, j)[i] == NameOf(s, Up(s, c, j - 1 - i))
  {
    if j > 0 {
      NamesBelowAt(s, c, j - 1);
    }
  }

  lemma PathIsNamesBelow(s: State, c: Channel, n: nat)
    ensures Path(s, c, n + 1)[1..] == NamesBelow(s, c, n)
  {
    NamesBelowAt(s, c, n);
  }

  lemma {:induction false} FindDescends(s: State, c: Channel, n: nat, j: nat, r: Channel?)
    requires Tree(s) && UniqueSiblings(s) && UnderRoot(s, c, n) && Depth(s, c, n + 1) && j <= n
    ensures Finds(s, Up(s, c, j), NamesBelow(s, c, j), r) <==> r == c
    decreases j
  {
    if j > 0 {
      var k := ChildOnPath(s, c, n, j);
      assert NamesBelow(s, c, j)[1..] == NamesBelow(s, c, j - 1);
      FindTakes(s, Up(s, c, j), k, NamesBelow(s, c, j), r);
      FindDescends(s, c, n, j - 1, r);
    }
  }

  /** The round trip: looking up a channel's own path, below the root's name, finds that channel and nothing else. */
  lemma PathRoundTrip(s: State, c: Channel, n: nat, r: Channel?)
    requires Tree(s) && UniqueSiblings(s) && UnderRoot(s, c, n) && Depth(s, c, n + 1)
    ensures FindsFromRoot(s, Path(s, c, n + 1)[1..], r) <==> r == c
  {
    PathIsNamesBelow(s, c, n);
    FindDescends(s, c, n, n, r);
  }

  /** Going down from `c` by the names one may come to `d`, over any children with those names. */
  ghost predicate Reaches(s: State, c: Channel, names: seq<string>, d: Channel) {
    if names == [] then d == c
    else exists k :: k in At(s, c).children && NameOf(s, At(s, c).children[k]) == names[0] && Reaches(s, At(s, c).children[k], names[1..], d)
  }

  /** There are no two ways down. */
  lemma ReachesOneWay(s: State, c: Channel, k: uint32, names: seq<string>, d: Channel)
    requires UniqueSiblings(s) && c in s.chan && Live(s, c) && names != []
    requires k in At(s, c).children && NameOf(s, At(s, c).children[k]) == names[0]
    ensures Reaches(s, c, names, d) <==> Reaches(s, At(s, c).children[k], names[1..], d)
  {
    forall j | j in At(s, c).children && NameOf(s, At(s, c).children[j]) == names[0] ensures j == k {
      assert SameNamed(s, c, j, k);
    }
  }

  /** With unique names among siblings, Find returns the channel with that path if there is one, and nil only if there is none. */
  lemma {:induction false} FindIsExact(s: State, c: Channel, names: seq<string>, r: Channel?)
    requires Tree(s) && UniqueSiblings(s) && c in s.chan && Live(s, c)
    ensures Finds(s, c, names, r) <==> if r == null then forall d :: d in s.chan ==> !Reaches(s, c, names, d) else Reaches(s, c, names, r)
    decreases |names|
  {
    if names != [] {
      if k :| k in At(s, c).children && NameOf(s, At(s, c).children[k]) == names[0] {
        assert Child(s, c, k) && Hung(s, k);
        FindTakes(s, c, k, names, r);
        FindIsExact(s, At(s, c).children[k], names[1..], r);
        forall d ensures Reaches(s, c, names, d) <==> Reaches(s, At(s, c).children[k], names[1..], d) {
          ReachesOneWay(s, c, k, names, d);
        }
      }
    }
  }

  /** Without them it may give up below the wrong one of two namesakes: nil and the channel are both possible results. */
  lemma FindMayMiss(s: State, c: Channel, j: uint32, k: uint32, name: string, d: Channel)
    requires SameNamed(s, c, j, k) && Reaches(s, At(s, c).children[j], [name], d)
    requires forall i :: i in At(s, At(s, c).children[k]).children ==> NameOf(s, At(s, At(s, c).children[k]).children[i]) != name
    ensures var names := [NameOf(s, At(s, c).children[j]), name];
      Reaches(s, c, names, d) && Finds(s, c, names, d) && Finds(s, c, names, null)
  {
    var m := At(s, c).children;
    var names := [NameOf(s, m[j]), name];
    assert names[1..] == [name] && names[1..][1..] == [];
    assert Finds(s, m[k], names[1..], null);
    assert Finds(s, m[j], names[1..], d);
  }
}
