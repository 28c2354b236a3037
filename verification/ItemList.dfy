/** The doubly linked list of queue items: heap nodes, with the sequence they represent as ghost. */
module ItemList {
  import opened Wrappers
  import opened WorkQueue

  class QueueItem {
    const key: Key
    var planned: Time
    var redirtiedAt: Time
    var redirtiedWithRatelimit: bool
    var forget: bool
    var requeues: nat
    var originallyAdded: Time
    var addedViaRedirty: bool
    var delayedViaRateLimit: Option<Duration>

    constructor (key: Key, planned: Time, originallyAdded: Time, delayedViaRateLimit: Option<Duration>)
      ensures Value() == Item(key, planned, ZERO_TIME, false, false, 0, originallyAdded, false, delayedViaRateLimit)
    {
      this.key, this.planned, this.originallyAdded := key, planned, originallyAdded;
      this.redirtiedAt, this.redirtiedWithRatelimit, this.forget := ZERO_TIME, false, false;
      this.requeues, this.addedViaRedirty, this.delayedViaRateLimit := 0, false, delayedViaRateLimit;
    }

    /** Record a request made during processing, unless an earlier one stands; lift a forget. */
    method Redirty(when: Time, ratelimit: bool)
      modifies this
      ensures Value() == WorkQueue.Redirty(old(Value()), when, ratelimit)
      ensures !forget
      ensures old(redirtiedAt) == ZERO_TIME || when < old(redirtiedAt) ==>
        redirtiedAt == when && redirtiedWithRatelimit == ratelimit
      ensures old(redirtiedAt) != ZERO_TIME && old(redirtiedAt) <= when ==>
        redirtiedAt == old(redirtiedAt) && redirtiedWithRatelimit == old(redirtiedWithRatelimit)
    {
      if redirtiedAt == ZERO_TIME {
        redirtiedAt := when;
        redirtiedWithRatelimit := ratelimit;
      } else if when < redirtiedAt {
        redirtiedAt := when;
        redirtiedWithRatelimit := ratelimit;
      }
      forget := false;
    }

    /** Carry the failure count and the first enqueue over to a retried item. */
    method CarryOver(requeues: nat, originallyAdded: Time)
      modifies this
      ensures Value() == old(Value()).(requeues := requeues, originallyAdded := originallyAdded)
    {
      this.requeues, this.originallyAdded := requeues, originallyAdded;
    }

    method MarkAddedViaRedirty()
      modifies this
      ensures Value() == old(Value()).(addedViaRedirty := true)
    {
      addedViaRedirty := true;
    }

    method MarkForgotten()
      modifies this
      ensures Value() == old(Value()).(forget := true)
    {
      forget := true;
    }

    ghost function Value(): Item
      reads this
    {
      Item(key, planned, redirtiedAt, redirtiedWithRatelimit, forget, requeues, originallyAdded, addedViaRedirty,
           delayedViaRateLimit)
    }
  }

  class Element {
    var prev: Element?
    var next: Element?
    const value: QueueItem

    constructor (value: QueueItem)
      ensures this.value == value
    {
      this.value := value;
      prev, next := null, null;
    }
  }

  /** The items the elements hold, as values. */
  ghost function Values(elements: seq<Element>): (s: seq<Item>)
    reads set e | e in elements :: e.value
    ensures |s| == |elements| && forall i :: 0 <= i < |s| ==> s[i] == elements[i].value.Value()
  {
    seq(|elements|, i requires 0 <= i < |elements|
                      reads (if 0 <= i < |elements| then {elements[i].value} else {}) => elements[i].value.Value())
  }

  /** The element at an index, and no element outside the list. */
  ghost function At(elements: seq<Element>, i: int): Element? {
    if 0 <= i < |elements| then elements[i] else null
  }

  ghost function Inserted<T>(s: seq<T>, i: nat, x: T): (r: seq<T>)
    requires i <= |s|
    ensures |r| == |s| + 1
    ensures forall j {:trigger r[j]} :: 0 <= j < |r| ==> r[j] == if j < i then s[j] else if j == i then x else s[j - 1]
  {
    s[..i] + [x] + s[i..]
  }

  ghost function Removed<T>(s: seq<T>, i: nat): (r: seq<T>)
    requires i < |s|
    ensures |r| == |s| - 1
    ensures forall j {:trigger r[j]} :: 0 <= j < |r| ==> r[j] == if j < i then s[j] else s[j + 1]
  {
    s[..i] + s[i + 1..]
  }

  ghost predicate Distinct(elements: seq<Element>) {
    forall i, j :: 0 <= i < j < |elements| ==> elements[i] != elements[j]
  }

  /** Each element points to its neighbours. */
  ghost predicate Links(elements: seq<Element>)
    reads elements
  {
    && (forall i {:trigger elements[i].prev} :: 0 <= i < |elements| ==> elements[i].prev == At(elements, i - 1))
    && (forall i {:trigger elements[i].next} :: 0 <= i < |elements| ==> elements[i].next == At(elements, i + 1))
  }

  /** Around index i the elements point to e; everywhere else to their neighbours. */
  ghost predicate LinksAround(was: seq<Element>, i: nat, e: Element)
    requires i <= |was|
    reads was, e
  {
    && (forall j {:trigger was[j].prev} :: 0 <= j < |was| ==> was[j].prev == if j == i then e else At(was, j - 1))
    && (forall j {:trigger was[j].next} :: 0 <= j < |was| ==> was[j].next == if j == i - 1 then e else At(was, j + 1))
    && e.prev == At(was, i - 1) && e.next == At(was, i)
  }

  lemma LinkedIn(was: seq<Element>, i: nat, e: Element)
    requires i <= |was| && LinksAround(was, i, e)
    ensures Links(Inserted(was, i, e))
  {
    var now := Inserted(was, i, e);
    forall j | 0 <= j < |now| ensures now[j].prev == At(now, j - 1) {
      if j != i {
        assert was[if j < i then j else j - 1].prev == At(now, j - 1);
      }
    }
    forall j | 0 <= j < |now| ensures now[j].next == At(now, j + 1) {
      if j != i {
        assert was[if j < i then j else j - 1].next == At(now, j + 1);
      }
    }
  }

  /** The neighbours of index i point past it; everything else but index i to its neighbours. */
  ghost predicate LinksPast(was: seq<Element>, i: nat)
    requires i < |was|
    reads was
  {
    && (forall j {:trigger was[j].prev} :: 0 <= j < |was| && j != i ==>
          was[j].prev == if j == i + 1 then At(was, i - 1) else At(was, j - 1))
    && (forall j {:trigger was[j].next} :: 0 <= j < |was| && j != i ==>
          was[j].next == if j == i - 1 then At(was, i + 1) else At(was, j + 1))
  }

  lemma LinkedOut(was: seq<Element>, i: nat)
    requires i < |was| && LinksPast(was, i)
    ensures Links(Removed(was, i))
  {
    var now := Removed(was, i);
    forall j | 0 <= j < |now| ensures now[j].prev == At(now, j - 1) {
      assert was[if j < i then j else j + 1].prev == At(now, j - 1);
    }
    forall j | 0 <= j < |now| ensures now[j].next == At(now, j + 1) {
      assert was[if j < i then j else j + 1].next == At(now, j + 1);
    }
  }

  ghost function AsSet(elements: seq<Element>): set<Element> {
    set e | e in elements
  }

  class List {
    var front: Element?
    var back: Element?
    var length: nat
    ghost var elements: seq<Element>

    ghost predicate Valid()
      reads this, elements
    {
      && length == |elements|
      && front == At(elements, 0)
      && back == At(elements, |elements| - 1)
      && Links(elements)
      && Distinct(elements)
    }

    constructor ()
      ensures Valid() && elements == []
    {
      front, back, length, elements := null, null, 0, [];
    }

    /** Link a detached element behind `at`, or in front of everything. */
    method Link(e: Element, at: Element?, ghost i: nat)
      requires Valid() && e !in elements
      requires i <= |elements| && at == At(elements, i - 1)
      modifies this, elements, e
      ensures Valid()
      ensures elements == Inserted(old(elements), i, e)
    {
      ghost var was := elements;
      var next := if at == null then front else at.next;
      assert next == At(was, i);
      e.prev, e.next := at, next;
      if at == null {
        front := e;
      } else {
        at.next := e;
      }
      if next == null {
        back := e;
      } else {
        next.prev := e;
      }
      length := length + 1;
      assert LinksAround(was, i, e);
      LinkedIn(was, i, e);
      elements := Inserted(was, i, e);
    }

    method Unlink(e: Element, ghost i: nat)
      requires Valid()
      requires i < |elements| && e == elements[i]
      modifies this, elements
      ensures Valid()
      ensures elements == Removed(old(elements), i)
    {
      ghost var was := elements;
      assert was[i].prev == At(was, i - 1) && was[i].next == At(was, i + 1);
      if e.prev == null {
        front := e.next;
      } else {
        e.prev.next := e.next;
      }
      if e.next == null {
        back := e.prev;
      } else {
        e.next.prev := e.prev;
      }
      e.prev, e.next := null, null;
      length := length - 1;
      assert LinksPast(was, i);
      LinkedOut(was, i);
      elements := Removed(was, i);
    }

    /**
     The backward walk of both insertion and repositioning: from an element towards the front, to
     the first one planned before t, or past the front.
     */
    method WalkBack(from: Element?, t: Time, ghost start: nat) returns (at: Element?, ghost i: nat)
      requires Valid() && start <= |elements| && from == At(elements, start - 1)
      ensures i <= start && at == At(elements, i - 1)
      ensures i > 0 ==> elements[i - 1].value.planned < t
      ensures forall j :: i <= j < start ==> t <= elements[j].value.planned
    {
      at, i := from, start;
      while at != null
        invariant i <= start && at == At(elements, i - 1)
        invariant forall j :: i <= j < start ==> t <= elements[j].value.planned
        decreases i
      {
        if at.value.planned < t {
          return;
        }
        assert at == elements[i - 1];
        at, i := at.prev, i - 1;
      }
    }

    method Move(e: Element, behind: Element?, ghost from: nat, ghost to: nat)
      requires Valid() && from < |elements| && e == elements[from]
      requires to <= |elements| - 1 && behind == At(Removed(elements, from), to - 1)
      modifies this, elements
      ensures Valid() && elements == old(Inserted(Removed(elements, from), to, e))
    {
      RemovedElements(elements, from);
      Unlink(e, from);
      Link(e, behind, to);
    }

    method Remove(e: Element, ghost i: nat)
      requires Valid() && i < |elements| && e == elements[i]
      modifies this, elements
      ensures Valid() && elements == old(Removed(elements, i))
      ensures AsSet(elements) == AsSet(old(elements)) - {e}
      ensures Values(elements) == old(Without(Values(elements), i))
    {
      hide Links, Distinct, Removed, Without;
      RemovedElements(elements, i);
      ValuesRemoved(elements, i);
      ghost var rest := Removed(elements, i);
      Unlink(e, i);
      assert Values(rest) == old(Values(rest));
    }

    /** Link a detached element in at its rank. */
    method LinkAtRank(e: Element, at: Element?, ghost i: nat)
      requires Valid() && e !in elements
      requires i == Rank(Values(elements), e.value.planned) && at == At(elements, i - 1)
      modifies this, elements, e
      ensures Valid()
      ensures AsSet(elements) == AsSet(old(elements)) + {e}
      ensures Values(elements) == old(Place(Values(elements), e.value.Value()))
    {
      hide Links, Distinct, Place, Inserted, Rank;
      PlacedAt(elements, i, e);
      InsertedElements(elements, i, e);
      ghost var placed := Values(Inserted(elements, i, e));
      Link(e, at, i);
      assert Values(elements) == placed;
    }

    /** Insert a new element behind the last one planned earlier: in a sorted list, at its rank. */
    method InsertByTime(e: Element)
      requires Valid() && Sorted(Values(elements)) && e !in elements
      modifies this, elements, e
      ensures Valid()
      ensures AsSet(elements) == AsSet(old(elements)) + {e}
      ensures Values(elements) == old(Place(Values(elements), e.value.Value()))
    {
      hide Sorted, Links, Distinct, Place, Inserted, Rank;
      var at, i := WalkBack(back, e.value.planned, |elements|);
      RankFound(elements, e.value.planned, i);
      LinkAtRank(e, at, i);
    }

    /** The element to move behind, and its place in the list without the moved one. */
    method FindSlot(element: Element, ghost at: nat) returns (behind: Element?, ghost i: nat)
      requires Valid() && at < |elements| && element == elements[at]
      requires Sorted(Without(Values(elements), at))
      requires forall j :: at < j < |elements| ==> element.value.planned <= elements[j].value.planned
      ensures i < |elements| && i == Rank(Without(Values(elements), at), element.value.planned)
      ensures behind == At(Removed(elements, at), i - 1)
    {
      assert element.prev == At(elements, at - 1);
      behind, i := WalkBack(element.prev, element.value.planned, at);
      ValuesRemoved(elements, at);
      RankFoundWithout(elements, at, element.value.planned, i);
    }

    /** Move an element whose instant has become earlier: behind the last one planned before it. */
    method MoveByTime(element: Element, ghost at: nat)
      requires Valid() && at < |elements| && element == elements[at]
      requires Sorted(Without(Values(elements), at))
      requires forall j :: at < j < |elements| ==> element.value.planned <= elements[j].value.planned
      modifies this, elements
      ensures Valid()
      ensures AsSet(elements) == AsSet(old(elements))
      ensures Values(elements) == old(Place(Without(Values(elements), at), element.value.Value()))
    {
      hide Links, Place, Sorted, Removed, Inserted, Rank, Without;
      var behind, i := FindSlot(element, at);
      ghost var moved := Inserted(Removed(elements, at), i, element);
      MovedTo(elements, at, i);
      Move(element, behind, at, i);
      assert Values(moved) == old(Values(moved));
    }

    /** Reposition a waiting item for an earlier instant; a later instant changes nothing. */
    method AdjustPosition(qi: QueueItem, element: Element, when: Time, ghost at: nat)
      requires Valid() && Sorted(Values(elements)) && DistinctKeys(Values(elements))
      requires at < |elements| && element == elements[at] && qi == element.value
      requires Listed(Values(elements), qi.key) && at == IndexOf(Values(elements), qi.key)
      modifies this, elements, qi
      ensures Valid() && AsSet(elements) == old(AsSet(elements))
      ensures Values(elements) == old(BringForward(Values(elements), qi.key, when))
    {
      if when > qi.planned {
        return;
      }
      hide List.Valid, Links, Distinct, DistinctKeys, Place, Sorted, Without, Find;
      Replanned(Values(elements), at, when);
      Replan(qi, when, at);
      MoveByTime(element, at);
    }

    method Replan(qi: QueueItem, when: Time, ghost at: nat)
      requires DistinctKeys(Values(elements))
      requires at < |elements| && qi == elements[at].value
      modifies qi
      ensures qi.planned == when
      ensures Values(elements) == old(Values(elements)[at := Values(elements)[at].(planned := when)])
    {
      forall j | 0 <= j < |elements| && j != at ensures elements[j].value != qi {
        assert Values(elements)[j].key != Values(elements)[at].key;
      }
      qi.planned := when;
    }
  }

  /** Replanning one item for an earlier instant leaves the others in order around it. */
  lemma Replanned(items: seq<Item>, at: nat, when: Time)
    requires Sorted(items) && at < |items| && when <= items[at].planned
    ensures var after := items[at := items[at].(planned := when)];
      && Without(after, at) == Without(items, at) && Sorted(Without(items, at))
      && forall j :: at < j < |items| ==> when <= after[j].planned
  {
    WithoutIsSorted(items, at);
  }

  /** Where the walk stops is the rank: the item in front is planned earlier, the others are not. */
  lemma RankFound(elements: seq<Element>, t: Time, i: nat)
    requires i <= |elements| && Sorted(Values(elements))
    requires i > 0 ==> elements[i - 1].value.planned < t
    requires forall j :: i <= j < |elements| ==> t <= elements[j].value.planned
    ensures i == Rank(Values(elements), t)
  {
    var items := Values(elements);
    forall j | 0 <= j < i ensures items[j].planned < t {
      assert items[j].planned <= items[i - 1].planned;
    }
    SplitIsRank(items, t, i);
  }

  lemma RankFoundWithout(elements: seq<Element>, at: nat, t: Time, i: nat)
    requires i <= at < |elements| && Sorted(Values(Removed(elements, at)))
    requires i > 0 ==> elements[i - 1].value.planned < t
    requires forall j :: i <= j < |elements| ==> t <= elements[j].value.planned
    ensures i == Rank(Values(Removed(elements, at)), t)
    ensures At(Removed(elements, at), i - 1) == At(elements, i - 1)
  {
    RankFound(Removed(elements, at), t, i);
  }

  lemma MovedTo(elements: seq<Element>, from: nat, to: nat)
    requires from < |elements| && Distinct(elements)
    requires to == Rank(Without(Values(elements), from), elements[from].value.planned)
    ensures var moved := Inserted(Removed(elements, from), to, elements[from]);
      && AsSet(moved) == AsSet(elements)
      && Values(moved) == Place(Without(Values(elements), from), elements[from].value.Value())
  {
    RemovedElements(elements, from);
    ValuesRemoved(elements, from);
    InsertedElements(Removed(elements, from), to, elements[from]);
    PlacedAt(Removed(elements, from), to, elements[from]);
  }

  lemma InsertedElements(elements: seq<Element>, i: nat, e: Element)
    requires i <= |elements|
    ensures AsSet(Inserted(elements, i, e)) == AsSet(elements) + {e}
  {
    assert elements == elements[..i] + elements[i..];
  }

  lemma RemovedElements(elements: seq<Element>, i: nat)
    requires i < |elements| && Distinct(elements)
    ensures AsSet(Removed(elements, i)) == AsSet(elements) - {elements[i]}
  {
    assert elements == elements[..i] + [elements[i]] + elements[i + 1..];
  }

  lemma PlacedAt(elements: seq<Element>, i: nat, e: Element)
    requires i == Rank(Values(elements), e.value.planned)
    ensures Values(Inserted(elements, i, e)) == Place(Values(elements), e.value.Value())
  {
  }

  lemma ValuesRemoved(elements: seq<Element>, i: nat)
    requires i < |elements|
    ensures Values(Removed(elements, i)) == Without(Values(elements), i)
  {
  }
}
