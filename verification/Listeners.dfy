/** The list of event listeners and its dispatch loop (gumble/listeners.go). */
module Listeners {

  /** Client.volatile, as the dispatch loop uses it. */
  class Client {
    var locked: bool

    method Lock()
      requires !locked
      modifies this
      ensures locked
    {
      locked := true;
    }

    method Unlock()
      requires locked
      modifies this
      ensures !locked
    {
      locked := false;
    }
  }

  // ---- Lists of items ----

  ghost function Before(xs: seq<EventItem>, i: nat): EventItem?
    requires i < |xs|
  {
    if i == 0 then null else xs[i - 1]
  }

  ghost function Behind(xs: seq<EventItem>, i: nat): EventItem?
    requires i < |xs|
  {
    if i == |xs| - 1 then null else xs[i + 1]
  }

  /** The pointers of item `i` are its neighbours in `xs`. */
  ghost predicate Linked(xs: seq<EventItem>, i: nat)
    requires i < |xs|
    reads xs[i]
  {
    xs[i].prev == Before(xs, i) && xs[i].next == Behind(xs, i)
  }

  ghost predicate Earlier(x: EventItem, y: EventItem) {
    x.serial < y.serial
  }

  ghost predicate InOrder(xs: seq<EventItem>) {
    forall i, j :: 0 <= i < j < |xs| ==> Earlier(xs[i], xs[j])
  }

  ghost function Without(xs: seq<EventItem>, k: nat): (ys: seq<EventItem>)
    requires k < |xs|
    ensures |ys| == |xs| - 1 && forall i :: 0 <= i < |ys| ==> ys[i] == xs[if i < k then i else i + 1]
  {
    xs[..k] + xs[k + 1..]
  }

  lemma Distinct(xs: seq<EventItem>, i: nat, j: nat)
    requires InOrder(xs) && i < |xs| && j < |xs| && i != j
    ensures xs[i] != xs[j]
  {
    assert Earlier(xs[if i < j then i else j], xs[if i < j then j else i]);
  }

  /** An item other than the neighbours of the k-th is none of them. */
  lemma NeighboursDistinct(xs: seq<EventItem>, k: nat, j: nat)
    requires InOrder(xs) && k < |xs| && j < |xs|
    ensures k > 0 && j != k - 1 ==> xs[j] != xs[k - 1]
    ensures k < |xs| - 1 && j != k + 1 ==> xs[j] != xs[k + 1]
  {
    if k > 0 && j != k - 1 {
      Distinct(xs, j, k - 1);
    }
    if k < |xs| - 1 && j != k + 1 {
      Distinct(xs, j, k + 1);
    }
  }

  lemma SameOrder(xs: seq<EventItem>, i: nat, j: nat)
    requires InOrder(xs) && i < |xs| && j < |xs|
    ensures xs[i].serial < xs[j].serial <==> i < j
  {
    if i < j {
      assert Earlier(xs[i], xs[j]);
    } else if j < i {
      assert Earlier(xs[j], xs[i]);
    }
  }

  lemma WithoutInOrder(xs: seq<EventItem>, k: nat)
    requires InOrder(xs) && k < |xs|
    ensures InOrder(Without(xs, k))
  {
  }

  lemma AppendInOrder(xs: seq<EventItem>, item: EventItem)
    requires InOrder(xs) && forall i :: 0 <= i < |xs| ==> Earlier(xs[i], item)
    ensures InOrder(xs + [item])
  {
    var ys := xs + [item];
    forall i, j | 0 <= i < j < |ys|
      ensures Earlier(ys[i], ys[j])
    {
      assert j < |xs| ==> Earlier(xs[i], xs[j]);
    }
  }

  // ---- What happens in a walk ----

  /** An item attached, the item at a place of the list detached, or a callback begun on an item. */
  datatype Happening = Attached(item: EventItem) | Detached(item: EventItem, at: nat) | Called(item: EventItem)

  ghost function Applied(xs: seq<EventItem>, h: Happening): seq<EventItem> {
    match h
    case Attached(x) => xs + [x]
    case Detached(_, k) => if k < |xs| then Without(xs, k) else xs
    case Called(_) => xs
  }

  /** The list `xs` after all that `log` tells. */
  ghost function Replay(xs: seq<EventItem>, log: seq<Happening>): seq<EventItem> {
    if log == [] then xs else Applied(Replay(xs, log[..|log| - 1]), log[|log| - 1])
  }

  ghost function Successor(xs: seq<EventItem>, x: EventItem): EventItem? {
    if x in xs then
      var k :| 0 <= k < |xs| && xs[k] == x;
      Behind(xs, k)
    else null
  }

  /** Where `x` points after `log`: to its successor, or to the one it had when it was detached. */
  ghost function Pointer(xs: seq<EventItem>, x: EventItem, log: seq<Happening>): EventItem? {
    if x in Replay(xs, log) then Successor(Replay(xs, log), x)
    else if log == [] then null
    else Pointer(xs, x, log[..|log| - 1])
  }

  ghost function CalledItems(log: seq<Happening>): seq<EventItem> {
    if log == [] then []
    else
      var n := |log| - 1;
      CalledItems(log[..n]) + if log[n].Called? then [log[n].item] else []
  }

  /** The item whose callback runs. */
  ghost function Current(log: seq<Happening>): EventItem? {
    if log == [] then null
    else
      var n := |log| - 1;
      if log[n].Called? then log[n].item else Current(log[..n])
  }

  ghost predicate AttachedAt(xs: seq<EventItem>, log: seq<Happening>, i: nat)
    requires i < |log|
  {
    log[i].Called? ==> log[i].item in Replay(xs, log[..i])
  }

  /** Each item is attached when its callback begins. */
  ghost predicate AllAttached(xs: seq<EventItem>, log: seq<Happening>) {
    forall i :: 0 <= i < |log| ==> AttachedAt(xs, log, i)
  }

  /** The running callback, whose own item is detached, detaches the item that one points to. */
  ghost predicate OrphanAt(xs: seq<EventItem>, log: seq<Happening>, i: nat)
    requires i < |log|
  {
    var cur := Current(log[..i]);
    log[i].Detached? && cur != null && cur !in Replay(xs, log[..i]) && Pointer(xs, cur, log[..i]) == log[i].item
  }

  ghost predicate OrphanFrom(xs: seq<EventItem>, log: seq<Happening>, n: nat) {
    exists i :: n <= i < |log| && OrphanAt(xs, log, i)
  }

  lemma Happened(xs: seq<EventItem>, log: seq<Happening>, h: Happening)
    ensures Replay(xs, log + [h]) == Applied(Replay(xs, log), h)
    ensures CalledItems(log + [h]) == CalledItems(log) + if h.Called? then [h.item] else []
    ensures Current(log + [h]) == if h.Called? then h.item else Current(log)
  {
    assert (log + [h])[..|log|] == log;
  }

  lemma AttachedSoFar(xs: seq<EventItem>, log: seq<Happening>, h: Happening)
    ensures AllAttached(xs, log + [h]) <==> AllAttached(xs, log) && (h.Called? ==> h.item in Replay(xs, log))
  {
    var more := log + [h];
    assert more[..|log|] == log;
    forall i | 0 <= i < |log|
      ensures AttachedAt(xs, more, i) <==> AttachedAt(xs, log, i)
    {
      assert more[..i] == log[..i];
    }
    if AllAttached(xs, more) {
      forall i | 0 <= i < |log|
        ensures AttachedAt(xs, log, i)
      {
        assert AttachedAt(xs, more, i);
      }
      assert AttachedAt(xs, more, |log|);
    }
  }

  lemma OrphanSoFar(xs: seq<EventItem>, log: seq<Happening>, h: Happening, n: nat)
    requires n <= |log|
    ensures OrphanFrom(xs, log + [h], n) <==>
            OrphanFrom(xs, log, n) ||
            (h.Detached? && Current(log) != null && Current(log) !in Replay(xs, log) && Pointer(xs, Current(log), log) == h.item)
  {
    var more := log + [h];
    assert more[..|log|] == log;
    forall i | 0 <= i < |log|
      ensures OrphanAt(xs, more, i) <==> OrphanAt(xs, log, i)
    {
      assert more[..i] == log[..i];
    }
    if i :| n <= i < |log| && OrphanAt(xs, log, i) {
      assert OrphanAt(xs, more, i);
    }
    assert OrphanAt(xs, more, |log|) <==>
           (h.Detached? && Current(log) != null && Current(log) !in Replay(xs, log) && Pointer(xs, Current(log), log) == h.item);
  }

  /** What a callback adds to a log decides, with the log before it. */
  lemma OrphanSplit(xs: seq<EventItem>, log: seq<Happening>, more: seq<Happening>)
    requires log <= more
    ensures OrphanFrom(xs, more, 0) <==> OrphanFrom(xs, log, 0) || OrphanFrom(xs, more, |log|)
  {
    forall i | 0 <= i < |log|
      ensures OrphanAt(xs, more, i) <==> OrphanAt(xs, log, i)
    {
      assert more[..i] == log[..i];
    }
    if i :| 0 <= i < |log| && OrphanAt(xs, log, i) {
      assert OrphanAt(xs, more, i);
    }
    if i :| 0 <= i < |more| && OrphanAt(xs, more, i) && i < |log| {
      assert OrphanAt(xs, log, i);
    }
  }

  // ---- The list object ----

  /** `serial` numbers the items in the order they were attached. */
  class EventItem {
    const parent: Listeners
    var prev: EventItem?
    var next: EventItem?
    ghost const serial: nat

    constructor (parent: Listeners, prev: EventItem?, ghost serial: nat)
      ensures this.parent == parent && this.prev == prev && this.next == null && this.serial == serial
    {
      this.parent, this.prev, this.next, this.serial := parent, prev, null, serial;
    }

    /** Detach takes an attached item out; its own prev and next keep their values. */
    method Detach() returns (ghost k: nat)
      requires parent.Valid() && this in parent.items
      modifies parent`head, parent`tail, parent`items, parent.all`prev, parent.all`next
      ensures parent.Valid()
      ensures k < |old(parent.items)| && old(parent.items)[k] == this
      ensures parent.items == Without(old(parent.items), k)
      ensures next == old(next)
      ensures forall x :: x in parent.all && x !in old(parent.items) ==> x.next == old(x.next)
    {
      ghost var xs := parent.items;
      k :| 0 <= k < |xs| && xs[k] == this;
      assert Linked(xs, k);
      if prev == null {
        parent.head := next;
      } else {
        prev.next := next;
      }
      if next == null {
        parent.tail := prev;
      } else {
        next.prev := prev;
      }
      parent.items := Without(xs, k);
      WithoutInOrder(xs, k);
      forall i | 0 <= i < |parent.items|
        ensures Linked(parent.items, i)
      {
        ghost var j := if i < k then i else i + 1;
        assert parent.items[i] == xs[j] && old(Linked(xs, j));
        NeighboursDistinct(xs, k, j);
      }
    }
  }

  class Listeners {
    var head: EventItem?
    var tail: EventItem?
    ghost var items: seq<EventItem>     // the attached items, in order
    ghost var all: set<EventItem>       // every item ever attached
    ghost var nextSerial: nat

    ghost predicate Valid()
      reads this, all
    {
      && (forall x :: x in all ==> x.parent == this && x.serial < nextSerial)
      && (forall i :: 0 <= i < |items| ==> items[i] in all)
      && InOrder(items)
      && head == (if items == [] then null else items[0])
      && tail == (if items == [] then null else items[|items| - 1])
      && (forall i :: 0 <= i < |items| ==> Linked(items, i))
    }

    constructor ()
      ensures Valid() && items == [] && all == {} && nextSerial == 0
    {
      head, tail, items, all, nextSerial := null, null, [], {}, 0;
    }

    /** Attach adds a new item at the end. */
    method Attach() returns (item: EventItem)
      requires Valid()
      modifies this, all`next
      ensures Valid() && fresh(item)
      ensures items == old(items) + [item] && all == old(all) + {item}
      ensures item.serial == old(nextSerial) && nextSerial == old(nextSerial) + 1
      ensures forall x :: x in old(all) && x !in old(items) ==> x.next == old(x.next)
    {
      ghost var xs := items;
      item := new EventItem(this, tail, nextSerial);
      AppendInOrder(xs, item);
      if head == null {
        head := item;
      }
      if tail != null {
        tail.next := item;
      }
      tail := item;
      items, all, nextSerial := xs + [item], all + {item}, nextSerial + 1;
      forall i | 0 <= i < |items|
        ensures Linked(items, i)
      {
        if i < |xs| {
          assert old(Linked(items, i));
          if i < |xs| - 1 {
            Distinct(xs, i, |xs| - 1);
          }
        }
      }
    }

    // ---- Dispatch ----

    /** Attached when a walk began, with the items `first` and the serial `start` next, or since. */
    ghost predicate InWalk(x: EventItem, first: set<EventItem>, start: nat)
      reads this
    {
      x in all && (x in first || x.serial >= start)
    }

    /**
     * Where a walk goes after `x`, attached or not: on to a later item of the walk, and past no
     * item that has been attached throughout.
     */
    ghost predicate LeadsOn(x: EventItem, first: set<EventItem>, start: nat)
      reads this, x
    {
      && (x.next != null ==> InWalk(x.next, first, start) && Earlier(x, x.next))
      && (forall y :: y in items && y in first && Earlier(x, y) ==> x.next != null && (x.next == y || Earlier(x.next, y)))
    }

    ghost predicate Walkable(first: set<EventItem>, start: nat)
      reads this, all
    {
      && first <= all && start <= nextSerial
      && (forall x :: x in items ==> InWalk(x, first, start))
      && (forall x :: x in all && InWalk(x, first, start) ==> LeadsOn(x, first, start))
    }

    lemma AttachedLeadsOn(x: EventItem, first: set<EventItem>, start: nat)
      requires Valid() && x in items && forall y :: y in items ==> InWalk(y, first, start)
      ensures LeadsOn(x, first, start)
    {
      var k :| 0 <= k < |items| && items[k] == x;
      assert Linked(items, k);
      if k < |items| - 1 {
        assert Earlier(items[k], items[k + 1]);
      }
      forall y | y in items && Earlier(x, y)
        ensures x.next != null && (x.next == y || Earlier(x.next, y))
      {
        var j :| 0 <= j < |items| && items[j] == y;
        SameOrder(items, k, j);
        assert j > k + 1 ==> Earlier(items[k + 1], items[j]);
      }
    }

    lemma AllLeadOn(first: set<EventItem>, start: nat)
      requires Valid() && start == nextSerial && first == set x | x in items
      ensures Walkable(first, start)
    {
      forall x | x in all && InWalk(x, first, start)
        ensures LeadsOn(x, first, start)
      {
        AttachedLeadsOn(x, first, start);
      }
    }

    lemma StartsAhead(first: set<EventItem>, start: nat)
      requires Valid() && first == set x | x in items
      ensures Ahead([], head, first, start)
    {
      forall x | x in items
        ensures head == x || Earlier(head, x)
      {
        var j :| 0 <= j < |items| && items[j] == x;
        assert j > 0 ==> Earlier(items[0], items[j]);
      }
    }

    /** An attached item's successor is attached. */
    lemma NextIsAttached(x: EventItem)
      requires Valid() && x in items
      ensures x.next == null || x.next in items
    {
      var k :| 0 <= k < |items| && items[k] == x;
      assert Linked(items, k);
    }

    /** Some attached item, or nil: a walk from the head that stops anywhere. */
    method Pick() returns (x: EventItem?)
      requires Valid()
      ensures x != null ==> x in items
    {
      x := head;
      ghost var i := 0;
      while x != null
        invariant x != null ==> 0 <= i < |items| && items[i] == x
        decreases |items| - i, x
      {
        var stop: bool := *;
        if stop {
          return;
        }
        assert Linked(items, i);
        x := x.next;
        i := i + 1;
      }
    }

    /** Attaching an item leaves every walk walkable. */
    method AttachDuring(ghost first: set<EventItem>, ghost start: nat) returns (item: EventItem)
      requires Valid() && Walkable(first, start)
      modifies this, all`next
      ensures Valid() && Walkable(first, start)
      ensures fresh(item) && all == old(all) + {item} && items == old(items) + [item] && nextSerial == old(nextSerial) + 1
      ensures forall x :: x in old(all) && x !in old(items) ==> x.next == old(x.next)
    {
      item := Attach();
      forall x | x in all && InWalk(x, first, start)
        ensures LeadsOn(x, first, start)
      {
        if x in items {
          AttachedLeadsOn(x, first, start);
        } else {
          assert old(LeadsOn(x, first, start));
        }
      }
    }

    /** So does detaching one, whichever it is. */
    method DetachDuring(x: EventItem, ghost first: set<EventItem>, ghost start: nat) returns (ghost k: nat)
      requires Valid() && Walkable(first, start) && x in items
      modifies this`head, this`tail, this`items, all`prev, all`next
      ensures Valid() && Walkable(first, start)
      ensures k < |old(items)| && old(items)[k] == x && items == Without(old(items), k)
      ensures forall y :: y in items <==> y in old(items) && y != x
      ensures x.next == old(x.next) && forall y :: y in all && y !in old(items) ==> y.next == old(y.next)
    {
      k := x.Detach();
      ghost var was := old(items);
      forall y
        ensures y in items <==> y in was && y != x
      {
        WithoutMembers(was, k, y);
      }
      forall y | y in all && InWalk(y, first, start)
        ensures LeadsOn(y, first, start)
      {
        if y in items {
          AttachedLeadsOn(y, first, start);
        } else {
          assert old(LeadsOn(y, first, start));
        }
      }
    }

    /** Detaching an item and then its successor leaves the first with a pointer to a detached item. */
    method DetachBoth(cur: EventItem, x: EventItem)
      requires Valid() && cur in items && x in items && x == cur.next
      modifies this`head, this`tail, this`items, all`prev, all`next
      ensures Valid() && cur.next == x && cur !in items && x !in items
    {
      ghost var xs := items;
      ghost var i :| 0 <= i < |xs| && xs[i] == cur;
      assert Linked(xs, i);
      Distinct(xs, i, i + 1);
      ghost var k := cur.Detach();
      WithoutMembers(xs, k, x);
      WithoutMembers(xs, k, cur);
      ghost var ys := items;
      ghost var j := x.Detach();
      WithoutMembers(ys, j, x);
      WithoutMembers(ys, j, cur);
    }

    /** `log` tells how the list came from `xs`, and where each item of the walk points. */
    ghost predicate Recorded(xs: seq<EventItem>, log: seq<Happening>, first: set<EventItem>, start: nat)
      reads this, all
    {
      items == Replay(xs, log) && forall x :: x in all && InWalk(x, first, start) ==> x.next == Pointer(xs, x, log)
    }

    lemma PointsToSuccessor(x: EventItem)
      requires Valid() && x in items
      ensures x.next == Successor(items, x)
    {
      var k :| 0 <= k < |items| && items[k] == x && Successor(items, x) == Behind(items, k);
      assert Linked(items, k);
    }

    lemma RecordStarts(first: set<EventItem>, start: nat)
      requires Valid() && start == nextSerial && first == set x | x in items
      ensures Recorded(items, [], first, start)
    {
      forall x | x in all && InWalk(x, first, start)
        ensures x.next == Pointer(items, x, [])
      {
        PointsToSuccessor(x);
      }
    }

    lemma WalkBegins(first: set<EventItem>, start: nat)
      requires Valid() && start == nextSerial && first == set x | x in items
      ensures Walkable(first, start) && Ahead([], head, first, start) && Recorded(items, [], first, start)
    {
      AllLeadOn(first, start);
      StartsAhead(first, start);
      RecordStarts(first, start);
    }

    lemma RecordsCall(cur: EventItem, xs: seq<EventItem>, log: seq<Happening>, first: set<EventItem>, start: nat)
      requires Recorded(xs, log, first, start)
      ensures Recorded(xs, log + [Called(cur)], first, start)
    {
      Happened(xs, log, Called(cur));
      assert (log + [Called(cur)])[..|log|] == log;
    }

    /**
     * Any callback on `cur`: it attaches up to `budget` items and detaches any attached ones,
     * `cur` included, in any order, and `more` tells what it did. If it detaches the item that
     * `cur`, itself detached, points to, then the walk goes on to a detached item; if it does not,
     * the walk goes from an attached item to an attached one.
     */
    method Callback(client: Client, cur: EventItem, budget: nat, ghost xs: seq<EventItem>, ghost log: seq<Happening>,
                    ghost first: set<EventItem>, ghost start: nat) returns (used: nat, ghost more: seq<Happening>)
      requires Valid() && Walkable(first, start) && InWalk(cur, first, start) && !client.locked
      requires Recorded(xs, log, first, start) && Current(log) == cur
      modifies this, all`prev, all`next
      ensures Valid() && Walkable(first, start)
      ensures old(all) <= all && fresh(all - old(all)) && nextSerial == old(nextSerial) + used
      ensures forall x :: x in items && x in old(all) ==> x in old(items)
      ensures used <= budget
      ensures log <= more && Recorded(xs, more, first, start) && CalledItems(more) == CalledItems(log)
      ensures AllAttached(xs, more) <==> AllAttached(xs, log)
      ensures OrphanFrom(xs, more, |log|) ==> cur.next != null && cur.next !in items
      ensures !OrphanFrom(xs, more, |log|) && cur in old(items) ==> cur.next == null || cur.next in items
    {
      used, more := 0, log;
      if cur in items {
        NextIsAttached(cur);
      }
      var steps: nat := *;
      while steps > 0
        invariant Valid() && Walkable(first, start) && InWalk(cur, first, start)
        invariant old(all) <= all && fresh(all - old(all)) && nextSerial == old(nextSerial) + used
        invariant forall x :: x in items && x in old(all) ==> x in old(items)
        invariant used <= budget && Points(cur, OrphanFrom(xs, more, |log|), cur in old(items))
        invariant log <= more && Recorded(xs, more, first, start) && Continues(xs, log, more)
      {
        steps := steps - 1;
        var attach: bool := *;
        if attach && used < budget {
          more := AttachOne(cur, cur in old(items), xs, more, |log|, first, start);
          used := used + 1;
        } else if !attach {
          more := DetachOne(cur, cur in old(items), xs, more, |log|, first, start);
        }
      }
    }

    /** No callback begins between the two logs. */
    ghost static predicate Continues(xs: seq<EventItem>, log: seq<Happening>, more: seq<Happening>) {
      Current(more) == Current(log) && CalledItems(more) == CalledItems(log) && (AllAttached(xs, more) <==> AllAttached(xs, log))
    }

    /** What `cur` points to, after a callback that has orphaned its successor or not. */
    ghost predicate Points(cur: EventItem, orphaned: bool, wasAttached: bool)
      reads this, cur
    {
      && (orphaned ==> cur !in items && cur.next != null && cur.next !in items && cur.next in all)
      && (!orphaned && wasAttached ==> cur.next == null || cur.next in items)
    }

    method AttachOne(cur: EventItem, ghost wasAttached: bool, ghost xs: seq<EventItem>, ghost log: seq<Happening>, ghost n: nat,
                     ghost first: set<EventItem>, ghost start: nat) returns (ghost more: seq<Happening>)
      requires Valid() && Walkable(first, start) && InWalk(cur, first, start) && Recorded(xs, log, first, start) && n <= |log|
      requires Points(cur, OrphanFrom(xs, log, n), wasAttached)
      modifies this, all`next
      ensures Valid() && Walkable(first, start) && Points(cur, OrphanFrom(xs, more, n), wasAttached)
      ensures old(all) <= all && fresh(all - old(all)) && nextSerial == old(nextSerial) + 1
      ensures forall x :: x in items && x in old(all) ==> x in old(items)
      ensures exists item :: item in all && more == log + [Attached(item)]
      ensures Recorded(xs, more, first, start) && Continues(xs, log, more)
    {
      var item := AttachDuring(first, start);
      more := log + [Attached(item)];
      Happened(xs, log, Attached(item));
      AttachedSoFar(xs, log, Attached(item));
      OrphanSoFar(xs, log, Attached(item), n);
      if cur in items {
        NextIsAttached(cur);
      }
      assert more[..|log|] == log;
      forall x | x in all && InWalk(x, first, start)
        ensures x.next == Pointer(xs, x, more)
      {
        if x in items {
          PointsToSuccessor(x);
        }
      }
    }

    /** Detaching some attached item, if there is one. */
    method DetachOne(cur: EventItem, ghost wasAttached: bool, ghost xs: seq<EventItem>, ghost log: seq<Happening>, ghost n: nat,
                     ghost first: set<EventItem>, ghost start: nat) returns (ghost more: seq<Happening>)
      requires Valid() && Walkable(first, start) && InWalk(cur, first, start) && Recorded(xs, log, first, start) && n <= |log|
      requires Points(cur, OrphanFrom(xs, log, n), wasAttached) && Current(log) == cur
      modifies this`head, this`tail, this`items, all`prev, all`next
      ensures Valid() && Walkable(first, start) && Points(cur, OrphanFrom(xs, more, n), wasAttached)
      ensures forall x :: x in items ==> x in old(items)
      ensures more == log || exists k :: 0 <= k < |old(items)| && more == log + [Detached(old(items)[k], k)]
      ensures Recorded(xs, more, first, start) && Continues(xs, log, more)
    {
      more := log;
      var x := Pick();
      if x != null {
        ghost var k := DetachDuring(x, first, start);
        more := log + [Detached(x, k)];
        Happened(xs, log, Detached(x, k));
        AttachedSoFar(xs, log, Detached(x, k));
        OrphanSoFar(xs, log, Detached(x, k), n);
        if cur in items {
          NextIsAttached(cur);
        }
        assert more[..|log|] == log;
        forall y | y in all && InWalk(y, first, start)
          ensures y.next == Pointer(xs, y, more)
        {
          if y in items {
            PointsToSuccessor(y);
          }
        }
      }
    }

    /**
     * One onX walk under any callbacks, which together attach at most `budget` items; `log` tells
     * what happened. The items called are in attach order without repetition; every item attached
     * throughout is among them, none that was detached before the walk is, and the lock is free in
     * each callback. Each item is attached when it is called exactly if no callback detaches the
     * item that its own item, itself detached, points to.
     */
    method Dispatch(client: Client, budget: nat) returns (called: seq<EventItem>, ghost log: seq<Happening>)
      requires Valid() && !client.locked
      modifies this, all`prev, all`next, client
      ensures Valid() && !client.locked
      ensures InOrder(called)
      ensures forall x :: x in old(items) && x in items ==> x in called
      ensures forall x :: x in called ==> x in old(items) || x.serial >= old(nextSerial)
      ensures items == Replay(old(items), log) && called == CalledItems(log)
      ensures AllAttached(old(items), log) <==> !OrphanFrom(old(items), log, 0)
    {
      Acquire(client);
      ghost var first: set<EventItem>, start: nat := (set x | x in items), nextSerial;
      WalkBegins(first, start);
      called, log := Walk(client, budget, items, first, start);
      Release(client);
    }

    /** The lock is no part of the list. */
    method Acquire(client: Client)
      requires Valid() && !client.locked
      modifies client
      ensures Valid() && client.locked
    {
      client.Lock();
    }

    method Release(client: Client)
      requires Valid() && client.locked
      modifies client
      ensures Valid() && !client.locked
    {
      client.Unlock();
    }

    /** The loop, from the head until there is no next item. */
    method Walk(client: Client, budget: nat, ghost xs: seq<EventItem>, ghost first: set<EventItem>, ghost start: nat)
      returns (called: seq<EventItem>, ghost log: seq<Happening>)
      requires Valid() && Walkable(first, start) && client.locked && Ahead([], head, first, start)
      requires xs == items && Recorded(xs, [], first, start)
      modifies this, all`prev, all`next, client
      ensures Valid() && client.locked && Ahead(called, null, first, start)
      ensures items == Replay(xs, log) && called == CalledItems(log)
      ensures AllAttached(xs, log) <==> !OrphanFrom(xs, log, 0)
    {
      called, log := [], [];
      var left, item := budget, head;
      while item != null
        invariant Valid() && Walkable(first, start) && client.locked && old(all) <= all && fresh(all - old(all))
        invariant Ahead(called, item, first, start)
        invariant Recorded(xs, log, first, start) && called == CalledItems(log)
        invariant Tells(xs, log, item)
        decreases if item == null then 0 else 1 + nextSerial + left - item.serial
      {
        var used, next;
        used, next, log := Turn(client, called, item, left, xs, log, first, start);
        called := called + [item];
        left, item := left - used, next;
      }
    }

    /** Before the call of `item`: a detached item has been called or is next exactly if some callback has made an orphan. */
    ghost predicate Tells(xs: seq<EventItem>, log: seq<Happening>, item: EventItem?)
      reads this
    {
      OrphanFrom(xs, log, 0) <==> !AllAttached(xs, log) || (item != null && item !in items)
    }

    /** The walk has called `called` and goes to `item`: none called is later, and none attached throughout is left behind. */
    ghost predicate Ahead(called: seq<EventItem>, item: EventItem?, first: set<EventItem>, start: nat)
      reads this
    {
      && InOrder(called) && (forall x :: x in called ==> x in first || x.serial >= start)
      && (item != null ==> InWalk(item, first, start) && forall x :: x in called ==> Earlier(x, item))
      && (forall x :: x in items && x in first ==> x in called || (item != null && (item == x || Earlier(item, x))))
    }

    /** One turn of the loop. */
    method Turn(client: Client, ghost called: seq<EventItem>, cur: EventItem, left: nat, ghost xs: seq<EventItem>, ghost log: seq<Happening>,
                ghost first: set<EventItem>, ghost start: nat) returns (used: nat, next: EventItem?, ghost more: seq<Happening>)
      requires Valid() && Walkable(first, start) && client.locked && Ahead(called, cur, first, start)
      requires Recorded(xs, log, first, start) && called == CalledItems(log) && Tells(xs, log, cur)
      modifies this, all`prev, all`next, client
      ensures Valid() && Walkable(first, start) && client.locked && old(all) <= all && fresh(all - old(all))
      ensures used <= left && nextSerial == old(nextSerial) + used
      ensures Ahead(called + [cur], next, first, start) && (next != null ==> Earlier(cur, next))
      ensures Recorded(xs, more, first, start) && called + [cur] == CalledItems(more) && Tells(xs, more, next)
    {
      AppendInOrder(called, cur);
      ghost var begun := log + [Called(cur)];
      RecordsCall(cur, xs, log, first, start);
      Happened(xs, log, Called(cur));
      AttachedSoFar(xs, log, Called(cur));
      OrphanSoFar(xs, log, Called(cur), 0);
      used, next, more := Visit(client, cur, left, xs, begun, first, start);
      OrphanSplit(xs, begun, more);
    }

    /** The callback on `cur` with the lock released, then the step to its next. */
    method Visit(client: Client, cur: EventItem, left: nat, ghost xs: seq<EventItem>, ghost log: seq<Happening>,
                 ghost first: set<EventItem>, ghost start: nat) returns (used: nat, next: EventItem?, ghost more: seq<Happening>)
      requires Valid() && Walkable(first, start) && client.locked && InWalk(cur, first, start)
      requires Recorded(xs, log, first, start) && Current(log) == cur
      modifies this, all`prev, all`next, client
      ensures Valid() && Walkable(first, start) && client.locked && old(all) <= all && fresh(all - old(all))
      ensures used <= left && nextSerial == old(nextSerial) + used
      ensures forall x :: x in items && x in first ==> x in old(items)
      ensures next != null ==> InWalk(next, first, start) && Earlier(cur, next)
      ensures forall x :: x in items && x in first && Earlier(cur, x) ==> next != null && (next == x || Earlier(next, x))
      ensures log <= more && Recorded(xs, more, first, start) && CalledItems(more) == CalledItems(log)
      ensures AllAttached(xs, more) <==> AllAttached(xs, log)
      ensures OrphanFrom(xs, more, |log|) ==> next != null && next !in items
      ensures !OrphanFrom(xs, more, |log|) && cur in old(items) ==> next == null || next in items
    {
      client.Unlock();
      used, more := Callback(client, cur, left, xs, log, first, start);
      client.Lock();
      next := cur.next;
      assert LeadsOn(cur, first, start);
    }
  }

  lemma WithoutMembers(xs: seq<EventItem>, k: nat, y: EventItem)
    requires InOrder(xs) && k < |xs|
    ensures y in Without(xs, k) <==> y in xs && y != xs[k]
  {
    var ys := Without(xs, k);
    if y in ys {
      var i :| 0 <= i < |ys| && ys[i] == y;
      Distinct(xs, if i < k then i else i + 1, k);
    }
    if y in xs && y != xs[k] {
      var j :| 0 <= j < |xs| && xs[j] == y;
      assert ys[if j < k then j else j - 1] == y;
    }
  }
}
