/** Access control lists and their packets (gumble/acl.go, handleACL in gumble/handlers.go). */
module Acl {
  import opened Bytes

  // ---- The list as the client holds it ----

  datatype AclUser = AclUser(userID: uint32, name: string)

  type UserMap = map<uint32, AclUser>

  datatype Group = Group(name: string, inherited: bool, inheritUsers: bool, inheritable: bool,
                         usersAdd: UserMap, usersRemove: UserMap, usersInherited: UserMap)

  /** A rule's pointer to a group: to an element of the same list, or to some other group. */
  datatype GroupPointer = Listed(i: nat) | Other(group: Group)

  datatype Rule = Rule(appliesCurrent: bool, appliesChildren: bool, inherited: bool, granted: int, denied: int,
                       user: Option<AclUser>, group: Option<GroupPointer>)

  datatype ACL = ACL(channel: uint32, groups: seq<Group>, rules: seq<Rule>, inherits: bool)

  predicate Valid(acl: ACL) {
    forall k :: 0 <= k < |acl.rules| ==> ValidRule(acl.rules[k], |acl.groups|)
  }

  predicate ValidRule(r: Rule, n: nat) {
    r.group.Some? && r.group.value.Listed? ==> r.group.value.i < n
  }

  // ---- The packet; an empty repeated field and a missing one are the same ----

  datatype ChanGroup = ChanGroup(name: string, inherited: Option<bool>, inherit: Option<bool>, inheritable: Option<bool>,
                                 add: seq<uint32>, remove: seq<uint32>, inheritedMembers: seq<uint32>)

  datatype ChanRule = ChanRule(applyHere: Option<bool>, applySubs: Option<bool>, inherited: Option<bool>,
                               userId: Option<uint32>, group: Option<string>, grant: Option<uint32>, deny: Option<uint32>)

  datatype Packet = Packet(channelId: Option<uint32>, inheritAcls: Option<bool>, groups: seq<ChanGroup>, acls: seq<ChanRule>, query: bool)

  function OrTrue(b: Option<bool>): (r: bool) {
    if b.Some? then b.value else true
  }

  function OrZero(x: Option<uint32>): (r: uint32) {
    if x.Some? then x.value else 0
  }

  // ---- writeMessage ----

  ghost function Ids(m: UserMap): (s: set<uint32>) {
    set k | k in m :: m[k].userID
  }

  /** `ids` lists the user ids of the map, once for each entry, in any order. */
  ghost predicate Enumerates(ids: seq<uint32>, m: UserMap) {
    |ids| == |m| && forall id :: id in ids <==> id in Ids(m)
  }

  function PointedName(acl: ACL, p: GroupPointer): (name: string)
    requires p.Listed? ==> p.i < |acl.groups|
  {
    match p
    case Listed(i) => acl.groups[i].name
    case Other(g) => g.name
  }

  ghost predicate SentGroup(g: Group, c: ChanGroup) {
    && c.name == g.name && c.inherited == None && c.inheritedMembers == []
    && c.inherit == Some(g.inheritUsers) && c.inheritable == Some(g.inheritable)
    && Enumerates(c.add, g.usersAdd) && Enumerates(c.remove, g.usersRemove)
  }

  function SentRule(acl: ACL, r: Rule): (c: ChanRule)
    requires ValidRule(r, |acl.groups|)
  {
    ChanRule(Some(r.appliesCurrent), Some(r.appliesChildren), None,
             if r.user.Some? then Some(r.user.value.userID) else None,
             if r.group.Some? then Some(PointedName(acl, r.group.value)) else None,
             Some(r.granted % 0x1_0000_0000), Some(r.denied % 0x1_0000_0000))
  }

  /** `p` is a packet that writeMessage may send for `acl`; the order of the user ids is Go's. */
  ghost predicate Sent(acl: ACL, p: Packet)
    requires Valid(acl)
  {
    && p.channelId == Some(acl.channel) && p.inheritAcls == Some(acl.inherits) && !p.query
    && |p.groups| == |acl.groups| && |p.acls| == |acl.rules|
    && (forall i :: 0 <= i < |acl.groups| ==> SentGroup(acl.groups[i], p.groups[i]))
    && (forall k :: 0 <= k < |acl.rules| ==> p.acls[k] == SentRule(acl, acl.rules[k]))
  }

  /** The loop over one user map, in whatever order the map yields its entries. */
  method ListIds(m: UserMap) returns (ids: seq<uint32>)
    ensures Enumerates(ids, m)
  {
    ids := [];
    var todo := m.Keys;
    while todo != {}
      invariant todo <= m.Keys
      invariant |ids| + |todo| == |m|
      invariant forall id :: id in ids <==> exists k :: k in m && k !in todo && m[k].userID == id
      decreases todo
    {
      var k :| k in todo;
      ghost var before, was := ids, todo;
      ids := ids + [m[k].userID];
      todo := todo - {k};
      forall id
        ensures id in ids <==> exists j :: j in m && j !in todo && m[j].userID == id
      {
        if id in ids {
          if id in before {
            var j :| j in m && j !in was && m[j].userID == id;
            assert j !in todo;
          } else {
            assert k !in todo && m[k].userID == id;
          }
        }
        if j :| j in m && j !in todo && m[j].userID == id {
          assert j == k || (j !in was && id in before);
        }
      }
    }
    forall id
      ensures id in ids <==> id in Ids(m)
    {
      if id in Ids(m) {
        var k :| k in m && m[k].userID == id;
        assert k !in todo;
      }
    }
  }

  method WriteMessage(acl: ACL) returns (p: Packet)
    requires Valid(acl)
    ensures Sent(acl, p)
  {
    var groups: seq<ChanGroup> := [];
    for i := 0 to |acl.groups|
      invariant |groups| == i && forall j :: 0 <= j < i ==> SentGroup(acl.groups[j], groups[j])
    {
      var g := acl.groups[i];
      var add := ListIds(g.usersAdd);
      var remove := ListIds(g.usersRemove);
      groups := groups + [ChanGroup(g.name, None, Some(g.inheritUsers), Some(g.inheritable), add, remove, [])];
    }
    var acls: seq<ChanRule> := [];
    for k := 0 to |acl.rules|
      invariant |acls| == k && forall j :: 0 <= j < k ==> acls[j] == SentRule(acl, acl.rules[j])
    {
      var r := acl.rules[k];
      assert ValidRule(r, |acl.groups|);
      var c := ChanRule(Some(r.appliesCurrent), Some(r.appliesChildren), None, None, None,
                        Some(r.granted % 0x1_0000_0000), Some(r.denied % 0x1_0000_0000));
      if r.user.Some? {
        c := c.(userId := Some(r.user.value.userID));
      }
      if r.group.Some? {
        c := c.(group := Some(PointedName(acl, r.group.value)));
      }
      acls := acls + [c];
    }
    p := Packet(Some(acl.channel), Some(acl.inherits), groups, acls, false);
  }

  // ---- handleACL ----

  function UsersOf(ids: seq<uint32>): (m: UserMap) {
    map id | id in ids :: AclUser(id, "")
  }

  function ReadGroup(c: ChanGroup): (g: Group) {
    Group(c.name, OrTrue(c.inherited), OrTrue(c.inherit), OrTrue(c.inheritable),
          UsersOf(c.add), UsersOf(c.remove), UsersOf(c.inheritedMembers))
  }

  /** `i` is the first group of that name. */
  ghost predicate FirstNamed(groups: seq<Group>, name: string, i: nat) {
    i < |groups| && groups[i].name == name && forall j :: 0 <= j < i ==> groups[j].name != name
  }

  ghost predicate NoneNamed(groups: seq<Group>, name: string) {
    forall j :: 0 <= j < |groups| ==> groups[j].name != name
  }

  function EmptyGroup(name: string): (g: Group) {
    Group(name, false, false, false, map[], map[], map[])
  }

  ghost predicate ReadPointer(groups: seq<Group>, name: string, p: GroupPointer) {
    match p
    case Listed(i) => FirstNamed(groups, name, i)
    case Other(g) => NoneNamed(groups, name) && g == EmptyGroup(name)
  }

  ghost predicate ReadRule(groups: seq<Group>, c: ChanRule, r: Rule) {
    && r.appliesCurrent == OrTrue(c.applyHere) && r.appliesChildren == OrTrue(c.applySubs)
    && r.inherited == OrTrue(c.inherited)
    && r.granted == OrZero(c.grant) && r.denied == OrZero(c.deny)
    && r.user == (if c.userId.Some? then Some(AclUser(c.userId.value, "")) else None)
    && (if c.userId.None? && c.group.Some? then r.group.Some? && ReadPointer(groups, c.group.value, r.group.value)
        else r.group == None)
  }

  /** `acl` is what handleACL keeps of `p`. */
  ghost predicate Read(p: Packet, acl: ACL) {
    && p.channelId == Some(acl.channel) && acl.inherits == OrTrue(p.inheritAcls)
    && |acl.groups| == |p.groups| && |acl.rules| == |p.acls|
    && (forall i :: 0 <= i < |p.groups| ==> acl.groups[i] == ReadGroup(p.groups[i]))
    && (forall k :: 0 <= k < |p.acls| ==> ReadRule(acl.groups, p.acls[k], acl.rules[k]))
  }

  /** The search for a rule's group. */
  method FindGroup(groups: seq<Group>, name: string) returns (p: GroupPointer)
    ensures ReadPointer(groups, name, p)
  {
    for i := 0 to |groups|
      invariant forall j :: 0 <= j < i ==> groups[j].name != name
    {
      if groups[i].name == name {
        return Listed(i);
      }
    }
    return Other(EmptyGroup(name));
  }

  /** handleACL: an error when the channel is missing or unknown, otherwise the list. */
  method HandleACL(channels: set<uint32>, p: Packet) returns (r: Option<ACL>)
    ensures r.Some? <==> p.channelId.Some? && p.channelId.value in channels
    ensures r.Some? ==> Read(p, r.value)
  {
    if p.channelId.None? || p.channelId.value !in channels {
      return None;
    }
    var groups: seq<Group> := [];
    for i := 0 to |p.groups|
      invariant |groups| == i && forall j :: 0 <= j < i ==> groups[j] == ReadGroup(p.groups[j])
    {
      groups := groups + [ReadGroup(p.groups[i])];
    }
    var rules: seq<Rule> := [];
    for k := 0 to |p.acls|
      invariant |rules| == k && forall j :: 0 <= j < k ==> ReadRule(groups, p.acls[j], rules[j])
    {
      var c := p.acls[k];
      var rule := Rule(OrTrue(c.applyHere), OrTrue(c.applySubs), OrTrue(c.inherited), OrZero(c.grant), OrZero(c.deny), None, None);
      if c.userId.Some? {
        rule := rule.(user := Some(AclUser(c.userId.value, "")));
      } else if c.group.Some? {
        var pointer := FindGroup(groups, c.group.value);
        rule := rule.(group := Some(pointer));
      }
      rules := rules + [rule];
    }
    return Some(ACL(p.channelId.value, groups, rules, OrTrue(p.inheritAcls)));
  }

  // ---- The round trip ----

  /** Two groups with the same name, inheritance settings and member ids. */
  ghost predicate SameGroup(g: Group, h: Group) {
    && g.name == h.name && g.inheritUsers == h.inheritUsers && g.inheritable == h.inheritable
    && Ids(g.usersAdd) == Ids(h.usersAdd) && Ids(g.usersRemove) == Ids(h.usersRemove)
  }

  /** Two pointers to the same listed group, or to unlisted groups of one name. */
  predicate SamePointer(p: GroupPointer, q: GroupPointer) {
    match (p, q)
    case (Listed(i), Listed(j)) => i == j
    case (Other(g), Other(h)) => g.name == h.name
    case _ => false
  }

  /** Two rules with the same scope, permissions and subject. */
  predicate SameRule(r: Rule, q: Rule) {
    && r.appliesCurrent == q.appliesCurrent && r.appliesChildren == q.appliesChildren
    && r.granted == q.granted && r.denied == q.denied
    && r.user.Some? == q.user.Some? && (r.user.Some? ==> r.user.value.userID == q.user.value.userID)
    && r.group.Some? == q.group.Some? && (r.group.Some? ==> SamePointer(r.group.value, q.group.value))
  }

  ghost predicate SameAcl(a: ACL, b: ACL) {
    && a.channel == b.channel && a.inherits == b.inherits
    && |a.groups| == |b.groups| && |a.rules| == |b.rules|
    && (forall i :: 0 <= i < |a.groups| ==> SameGroup(a.groups[i], b.groups[i]))
    && (forall k :: 0 <= k < |a.rules| ==> SameRule(a.rules[k], b.rules[k]))
  }

  predicate Nameless(m: UserMap) {
    forall k :: k in m ==> m[k].name == ""
  }

  /** What the packet does not carry reads as its default. */
  predicate GroupDefaults(g: Group) {
    g.inherited && g.usersInherited == map[] && Nameless(g.usersAdd) && Nameless(g.usersRemove)
  }

  predicate RuleDefaults(r: Rule) {
    r.inherited && (r.user.Some? ==> r.user.value.name == "")
  }

  predicate FitsUint32(x: int) {
    0 <= x < 0x1_0000_0000
  }

  /** A rule the packet can carry: permissions in 32 bits, one subject, an unambiguous group. */
  ghost predicate Portable(acl: ACL, r: Rule) {
    && FitsUint32(r.granted) && FitsUint32(r.denied)
    && !(r.user.Some? && r.group.Some?)
    && (r.group.Some? ==>
          match r.group.value
          case Listed(i) => i < |acl.groups| && FirstNamed(acl.groups, acl.groups[i].name, i)
          case Other(g) => NoneNamed(acl.groups, g.name))
  }

  lemma GroupRoundTrip(g: Group, c: ChanGroup)
    requires SentGroup(g, c)
    ensures SameGroup(g, ReadGroup(c)) && GroupDefaults(ReadGroup(c))
  {
    IdsOfUsers(c.add);
    IdsOfUsers(c.remove);
  }

  lemma IdsOfUsers(ids: seq<uint32>)
    ensures forall id :: id in Ids(UsersOf(ids)) <==> id in ids
  {
    var m := UsersOf(ids);
    forall id | id in ids
      ensures id in Ids(m)
    {
      assert id in m && m[id].userID == id;
    }
  }

  /** Names survive in order, so a name finds the same group before and after. */
  lemma SameNames(a: ACL, p: Packet, b: ACL, name: string, i: nat)
    requires Valid(a) && Sent(a, p) && Read(p, b)
    ensures FirstNamed(a.groups, name, i) <==> FirstNamed(b.groups, name, i)
    ensures NoneNamed(a.groups, name) <==> NoneNamed(b.groups, name)
  {
    assert forall j :: 0 <= j < |a.groups| ==> SentGroup(a.groups[j], p.groups[j]) && b.groups[j].name == a.groups[j].name;
  }

  lemma RuleRoundTrip(a: ACL, p: Packet, b: ACL, k: nat)
    requires Valid(a) && Sent(a, p) && Read(p, b) && k < |a.rules|
    ensures SameRule(a.rules[k], b.rules[k]) <==> Portable(a, a.rules[k])
    ensures RuleDefaults(b.rules[k])
  {
    var r, q, c := a.rules[k], b.rules[k], p.acls[k];
    assert ValidRule(r, |a.groups|) && c == SentRule(a, r) && ReadRule(b.groups, c, q);
    if r.group.Some? && r.user.None? {
      var name := PointedName(a, r.group.value);
      match q.group.value {
        case Listed(j) => SameNames(a, p, b, name, j);
        case Other(h) => SameNames(a, p, b, name, 0);
      }
      match r.group.value {
        case Listed(i) => SameNames(a, p, b, name, i);
        case Other(g) =>
      }
    }
  }

  /**
   * What handleACL reads from what writeMessage sent is the same list, in what the packet carries,
   * exactly when every rule is portable. Groups always survive; the inherited flags, the inherited
   * members and the user names, never sent, read as true, none and empty.
   */
  lemma RoundTrip(a: ACL, p: Packet, b: ACL)
    requires Valid(a) && Sent(a, p) && Read(p, b)
    ensures SameAcl(a, b) <==> forall k :: 0 <= k < |a.rules| ==> Portable(a, a.rules[k])
    ensures forall i :: 0 <= i < |a.groups| ==> SameGroup(a.groups[i], b.groups[i]) && GroupDefaults(b.groups[i])
    ensures forall k :: 0 <= k < |a.rules| ==> RuleDefaults(b.rules[k])
  {
    forall i | 0 <= i < |a.groups|
      ensures SameGroup(a.groups[i], b.groups[i]) && GroupDefaults(b.groups[i])
    {
      GroupRoundTrip(a.groups[i], p.groups[i]);
    }
    forall k | 0 <= k < |a.rules|
      ensures SameRule(a.rules[k], b.rules[k]) <==> Portable(a, a.rules[k])
      ensures RuleDefaults(b.rules[k])
    {
      RuleRoundTrip(a, p, b, k);
    }
  }

  // ---- Any packet ----

  /** A flag the packet lacks reads as true. */
  predicate FlagRead(sent: Option<bool>, read: bool) {
    read <==> sent != Some(false)
  }

  /** Exactly the listed users, each under its own id, without names. */
  ghost predicate MembersRead(ids: seq<uint32>, m: UserMap) {
    (forall id :: id in m <==> id in ids) && forall id :: id in m ==> m[id] == AclUser(id, "")
  }

  ghost predicate GroupRead(c: ChanGroup, g: Group) {
    && g.name == c.name && FlagRead(c.inherited, g.inherited) && FlagRead(c.inherit, g.inheritUsers) && FlagRead(c.inheritable, g.inheritable)
    && MembersRead(c.add, g.usersAdd) && MembersRead(c.remove, g.usersRemove) && MembersRead(c.inheritedMembers, g.usersInherited)
  }

  /** A permission the packet lacks reads as zero; a user in the packet hides its group. */
  predicate RuleRead(c: ChanRule, r: Rule) {
    && FlagRead(c.applyHere, r.appliesCurrent) && FlagRead(c.applySubs, r.appliesChildren) && FlagRead(c.inherited, r.inherited)
    && (match c.grant case Some(v) => r.granted == v as int case None => r.granted == 0)
    && (match c.deny case Some(v) => r.denied == v as int case None => r.denied == 0)
    && (match c.userId case Some(v) => r.user == Some(AclUser(v, "")) && r.group == None case None => r.user == None && r.group.Some? == c.group.Some?)
  }

  /** A group by name is the first of that name in the packet, or a new one with nothing set. */
  ghost predicate GroupFound(p: Packet, name: string, pointer: GroupPointer) {
    match pointer
    case Listed(i) => i < |p.groups| && p.groups[i].name == name && forall j :: 0 <= j < i ==> p.groups[j].name != name
    case Other(g) => g == Group(name, false, false, false, map[], map[], map[]) && forall j :: 0 <= j < |p.groups| ==> p.groups[j].name != name
  }

  /** What handleACL reads from any packet, its own or another client's. */
  lemma ReadFields(p: Packet, a: ACL)
    requires Read(p, a)
    ensures |a.groups| == |p.groups| && |a.rules| == |p.acls| && p.channelId == Some(a.channel) && FlagRead(p.inheritAcls, a.inherits)
    ensures forall i :: 0 <= i < |p.groups| ==> GroupRead(p.groups[i], a.groups[i])
    ensures forall k :: 0 <= k < |p.acls| ==> RuleRead(p.acls[k], a.rules[k])
    ensures forall k :: 0 <= k < |p.acls| && a.rules[k].group.Some? ==>
              p.acls[k].group.Some? && GroupFound(p, p.acls[k].group.value, a.rules[k].group.value)
  {
    assert forall i :: 0 <= i < |p.groups| ==> a.groups[i].name == p.groups[i].name;
    forall k | 0 <= k < |p.acls|
      ensures RuleRead(p.acls[k], a.rules[k])
      ensures a.rules[k].group.Some? ==> p.acls[k].group.Some? && GroupFound(p, p.acls[k].group.value, a.rules[k].group.value)
    {
      assert ReadRule(a.groups, p.acls[k], a.rules[k]);
    }
  }

  /** Two groups of packets that say the same of what writeMessage sends. */
  ghost predicate SameSentGroup(c: ChanGroup, d: ChanGroup) {
    && d.name == c.name && (d.inherit == Some(false) <==> c.inherit == Some(false)) && (d.inheritable == Some(false) <==> c.inheritable == Some(false))
    && (forall id :: id in d.add <==> id in c.add) && (forall id :: id in d.remove <==> id in c.remove)
  }

  predicate SameSentRule(c: ChanRule, d: ChanRule) {
    && (d.applyHere == Some(false) <==> c.applyHere == Some(false)) && (d.applySubs == Some(false) <==> c.applySubs == Some(false))
    && d.grant == Some(OrZero(c.grant)) && d.deny == Some(OrZero(c.deny)) && d.userId == c.userId
    && d.group == if c.userId.Some? then None else c.group
  }

  /**
   * The other way round: whatever list was read, writing it sends the same groups, members and rules
   * that the packet had, with its defaults spelled out and the group of a rule with a user dropped.
   */
  lemma WriteBack(p: Packet, a: ACL, q: Packet)
    requires Read(p, a) && Valid(a) && Sent(a, q)
    ensures q.channelId == p.channelId && (q.inheritAcls == Some(false) <==> p.inheritAcls == Some(false))
    ensures |q.groups| == |p.groups| && forall i :: 0 <= i < |p.groups| ==> SameSentGroup(p.groups[i], q.groups[i])
    ensures |q.acls| == |p.acls| && forall k :: 0 <= k < |p.acls| ==> SameSentRule(p.acls[k], q.acls[k])
  {
    forall i | 0 <= i < |p.groups| ensures SameSentGroup(p.groups[i], q.groups[i]) {
      assert SentGroup(a.groups[i], q.groups[i]) && a.groups[i] == ReadGroup(p.groups[i]);
      IdsOfUsers(p.groups[i].add);
      IdsOfUsers(p.groups[i].remove);
    }
    forall k | 0 <= k < |p.acls| ensures SameSentRule(p.acls[k], q.acls[k]) {
      RuleWriteBack(p, a, q, k);
    }
  }

  lemma RuleWriteBack(p: Packet, a: ACL, q: Packet, k: nat)
    requires Read(p, a) && Valid(a) && Sent(a, q) && k < |p.acls|
    ensures SameSentRule(p.acls[k], q.acls[k])
  {
    var c, r := p.acls[k], a.rules[k];
    assert ReadRule(a.groups, c, r) && ValidRule(r, |a.groups|) && q.acls[k] == SentRule(a, r);
  }

  /** A list that was read has only pointers into itself. */
  lemma ReadIsValid(p: Packet, a: ACL)
    requires Read(p, a)
    ensures Valid(a)
  {
    forall k | 0 <= k < |a.rules| ensures ValidRule(a.rules[k], |a.groups|) {
      assert ReadRule(a.groups, p.acls[k], a.rules[k]);
    }
  }
}
