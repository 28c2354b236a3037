/**
 The queue's data structure in its own form: a linked list of items ordered by planned instant, a
 map from key to list element, a map of the items in processing. Each method is one locked section
 of the queue and computes exactly the WorkQueue function of the same name.
 */
module LinkedWorkQueue {
  import opened Wrappers
  import opened WorkQueue
  import opened ItemList

  /** What the locked part of the waiting loop finds. */
  datatype Poll = Empty | NotDue(wait: Duration) | Took(item: QueueItem)

  /** The index holds exactly the keys of the elements, each with its own element. */
  ghost predicate Indexes(index: map<Key, Element>, elements: set<Element>) {
    && (forall e :: e in elements ==> e.value.key in index && index[e.value.key] == e)
    && (forall k :: k in index ==> index[k] in elements && index[k].value.key == k)
  }

  lemma IndexAdded(index: map<Key, Element>, elements: set<Element>, e: Element)
    requires Indexes(index, elements) && e.value.key !in index
    ensures Indexes(index[e.value.key := e], elements + {e})
  {
  }

  lemma IndexRemoved(index: map<Key, Element>, elements: set<Element>, e: Element)
    requires Indexes(index, elements) && e in elements
    ensures Indexes(index - {e.value.key}, elements - {e})
  {
  }

  /** The state after inserting an absent key and then setting fields of its new item. */
  lemma InsertedThenStamped(q: State, key: Key, ratelimit: bool, delay: Option<Duration>, now: Time,
                            limiter: Duration, stamped: Item)
    requires Inv(q) && !Listed(q.items, key) && key !in q.processing
    requires stamped.key == key && stamped.planned == Fresh(key, ratelimit, delay, now, limiter).planned
    ensures var q1 := WorkQueue.Insert(q, key, ratelimit, delay, now, limiter);
      && Listed(q1.items, key) && Find(q1.items, key) == Some(Fresh(key, ratelimit, delay, now, limiter))
      && q1.(items := Replace(q1.items, key, stamped)) == q.(items := Place(q.items, stamped))
  {
    PlaceThenReplace(q.items, Fresh(key, ratelimit, delay, now, limiter), stamped);
  }

  /** The items in processing, as values. */
  ghost function ProcessingValues(processing: map<Key, QueueItem>): map<Key, Item>
    reads processing.Values
  {
    map k | k in processing :: processing[k].Value()
  }

  class Queue {
    const items: List
    var itemsInQueue: map<Key, Element>
    var itemsBeingProcessed: map<Key, QueueItem>
    /** Whether the wakeup channel, of capacity one, holds a token. */
    var wakeup: bool

    /** The list's nodes and every item, waiting or in processing. */
    ghost function Parts(): set<object>
      reads this`itemsBeingProcessed, items
    {
      var nodes: set<object> := AsSet(items.elements);
      nodes + (set e | e in items.elements :: e.value) + itemsBeingProcessed.Values
    }

    ghost function Repr(): set<object>
      reads this`itemsBeingProcessed, items
    {
      {this, items} + Parts()
    }

    ghost function View(): State
      reads this`itemsBeingProcessed, items, Parts()
    {
      State(Values(items.elements), ProcessingValues(itemsBeingProcessed))
    }

    ghost predicate Valid()
      reads this`itemsInQueue, this`itemsBeingProcessed, items, Parts()
    {
      items.Valid() && Indexes(itemsInQueue, AsSet(items.elements)) && Inv(View())
    }

    constructor ()
      ensures Valid() && fresh(Repr()) && View() == EMPTY && !wakeup
    {
      items := new List();
      itemsInQueue, itemsBeingProcessed, wakeup := map[], map[], false;
    }

    /** The index answers as the list does, and its element stands at the key's place in the list. */
    lemma IndexAgrees(key: Key) returns (i: nat)
      requires Valid()
      ensures key in itemsInQueue <==> Listed(View().items, key)
      ensures key in itemsInQueue ==>
        && i == IndexOf(View().items, key) && i < |items.elements|
        && items.elements[i] == itemsInQueue[key]
    {
      i := 0;
      if key in itemsInQueue {
        assert itemsInQueue[key] in AsSet(items.elements);
        i :| 0 <= i < |items.elements| && items.elements[i] == itemsInQueue[key];
        FindAt(View().items, i);
      }
      if Listed(View().items, key) {
        i := IndexOf(View().items, key);
        assert items.elements[i] in AsSet(items.elements) && items.elements[i].value.key == key;
      }
    }

    lemma ProcessingIsNotWaiting(key: Key)
      requires Valid() && key in itemsBeingProcessed
      ensures key !in itemsInQueue && !Listed(View().items, key)
    {
      assert View().processing[key].key == key;
      var at := IndexAgrees(key);
    }

    /** An item in processing is not on the list. */
    lemma ProcessingIsNotListed(key: Key)
      requires Valid() && key in itemsBeingProcessed
      ensures itemsBeingProcessed[key].key == key
      ensures forall i :: 0 <= i < |items.elements| ==> items.elements[i].value != itemsBeingProcessed[key]
    {
      assert View().processing[key].key == key;
      FindNone(View().items, key);
      forall i | 0 <= i < |items.elements| ensures items.elements[i].value != itemsBeingProcessed[key] {
        assert View().items[i].key != key;
      }
    }

    lemma IndexedIsListed(key: Key)
      requires Valid() && key in itemsInQueue
      ensures itemsInQueue[key] in items.elements && itemsInQueue[key].value.key == key
    {
    }

    method InsertProcessing(key: Key, ratelimit: bool, delay: Option<Duration>, now: Time, limiter: Duration)
      returns (item: QueueItem)
      requires Valid() && key in itemsBeingProcessed
      modifies itemsBeingProcessed[key]
      ensures item == itemsBeingProcessed[key] && item.key == key
      ensures (forall o :: o in Repr() ==> o in old(Repr()) || fresh(o))
      ensures View() == old(WorkQueue.Insert(View(), key, ratelimit, delay, now, limiter))
    {
      hide Inv, List.Valid, Indexes, Links, Distinct, Place, Find, BringForward, Fresh;
      ProcessingIsNotListed(key);
      item := itemsBeingProcessed[key];
      forall k | k in itemsBeingProcessed && k != key ensures itemsBeingProcessed[k] != item {
        ProcessingIsNotListed(k);
      }
      ghost var goal := WorkQueue.Insert(View(), key, ratelimit, delay, now, limiter);
      item.Redirty(now + delay.GetOr(0), ratelimit);
      assert Values(items.elements) == goal.items;
    }

    /** Reposition a waiting item; the index keeps pointing at its element. */
    method BringForwardWaiting(key: Key, when: Time, ghost at: nat) returns (item: QueueItem)
      requires items.Valid() && key in itemsInQueue
      requires Sorted(Values(items.elements)) && DistinctKeys(Values(items.elements))
      requires Listed(Values(items.elements), key) && at == IndexOf(Values(items.elements), key)
      requires at < |items.elements| && items.elements[at] == itemsInQueue[key] && itemsInQueue[key].value.key == key
      modifies items, items.elements, itemsInQueue[key].value
      ensures items.Valid() && AsSet(items.elements) == old(AsSet(items.elements))
      ensures item == itemsInQueue[key].value
      ensures Values(items.elements) == old(BringForward(Values(items.elements), key, when))
    {
      hide Links, Distinct, BringForward, IndexOf, Find, Sorted, DistinctKeys;
      var element := itemsInQueue[key];
      item := element.value;
      items.AdjustPosition(item, element, when, at);
    }

    /** List a new element and index it under its key. */
    method AddWaiting(element: Element)
      requires items.Valid() && Indexes(itemsInQueue, AsSet(items.elements)) && Sorted(Values(items.elements))
      requires element.value.key !in itemsInQueue && element !in items.elements
      modifies this`itemsInQueue, items, items.elements, element
      ensures items.Valid() && AsSet(items.elements) == old(AsSet(items.elements)) + {element}
      ensures itemsInQueue == old(itemsInQueue)[element.value.key := element]
      ensures Indexes(itemsInQueue, AsSet(items.elements))
      ensures Values(items.elements) == old(Place(Values(items.elements), element.value.Value()))
    {
      hide *;
      IndexAdded(itemsInQueue, AsSet(items.elements), element);
      items.InsertByTime(element);
      itemsInQueue := itemsInQueue[element.value.key := element];
    }

    method ListNew(key: Key, ratelimit: bool, delay: Option<Duration>, now: Time, limiter: Duration)
      returns (item: QueueItem)
      requires Valid() && key !in itemsInQueue && key !in itemsBeingProcessed
      modifies this`itemsInQueue, items, items.elements
      ensures items.Valid() && Indexes(itemsInQueue, AsSet(items.elements))
      ensures fresh(item) && key in itemsInQueue && fresh(itemsInQueue[key]) && itemsInQueue[key].value == item
      ensures AsSet(items.elements) == old(AsSet(items.elements)) + {itemsInQueue[key]}
      ensures item.key == key && item.Value() == Fresh(key, ratelimit, delay, now, limiter)
      ensures Values(items.elements) == old(Place(Values(items.elements), Fresh(key, ratelimit, delay, now, limiter)))
    {
      hide List.Valid, Links, Distinct, Place, Indexes, DistinctKeys, Find;
      var planned := now;
      var delayed: Option<Duration> := None;
      if ratelimit {
        var actual := limiter;
        if delay.Some? {
          actual := delay.value;
        }
        planned := planned + actual;
        delayed := Some(actual);
      } else {
        planned := planned + delay.GetOr(0);
      }
      item := new QueueItem(key, planned, now, delayed);
      assert item.Value() == Fresh(key, ratelimit, delay, now, limiter);
      ghost var was := Values(items.elements);
      var element := new Element(item);
      assert Values(items.elements) == was;
      AddWaiting(element);
    }

    /** The items in processing hold what they held. */
    ghost predicate ProcessingIs(values: map<Key, Item>)
      reads this`itemsBeingProcessed, itemsBeingProcessed.Values
    {
      ProcessingValues(itemsBeingProcessed) == values
    }

    method InsertWaiting(key: Key, ratelimit: bool, delay: Option<Duration>, now: Time, limiter: Duration)
      returns (item: QueueItem)
      requires Valid() && key in itemsInQueue
      modifies items, items.elements, itemsInQueue[key].value
      ensures items.Valid() && AsSet(items.elements) == old(AsSet(items.elements))
      ensures item == itemsInQueue[key].value && item.key == key
      ensures (forall o :: o in Repr() ==> o in old(Repr()) || fresh(o))
      ensures View() == old(WorkQueue.Insert(View(), key, ratelimit, delay, now, limiter))
    {
      hide List.Valid, Links, Distinct, Place, Sorted, DistinctKeys, Find, Fresh, BringForward, IndexOf;
      ghost var at := IndexAgrees(key);
      ghost var goal := WorkQueue.Insert(View(), key, ratelimit, delay, now, limiter);
      var when := now + delay.GetOr(0);
      forall k | k in itemsBeingProcessed ensures itemsBeingProcessed[k] != itemsInQueue[key].value {
        ProcessingIsNotListed(k);
      }
      assert key !in itemsBeingProcessed && goal.items == BringForward(Values(items.elements), key, when);
      item := BringForwardWaiting(key, when, at);
      assert ProcessingIs(goal.processing);
    }

    method InsertNew(key: Key, ratelimit: bool, delay: Option<Duration>, now: Time, limiter: Duration)
      returns (item: QueueItem)
      requires Valid() && key !in itemsInQueue && key !in itemsBeingProcessed
      modifies this`itemsInQueue, items, items.elements
      ensures items.Valid() && Indexes(itemsInQueue, AsSet(items.elements))
      ensures fresh(item) && key in itemsInQueue && fresh(itemsInQueue[key]) && itemsInQueue[key].value == item
      ensures AsSet(items.elements) == old(AsSet(items.elements)) + {itemsInQueue[key]}
      ensures item.key == key && item.Value() == Fresh(key, ratelimit, delay, now, limiter)
      ensures (forall o :: o in Repr() ==> o in old(Repr()) || fresh(o))
      ensures View() == old(WorkQueue.Insert(View(), key, ratelimit, delay, now, limiter))
    {
      hide List.Valid, Links, Distinct, Place, Sorted, DistinctKeys, Find, Fresh, Indexes;
      ghost var at := IndexAgrees(key);
      ghost var goal := WorkQueue.Insert(View(), key, ratelimit, delay, now, limiter);
      assert goal.items == Place(Values(items.elements), Fresh(key, ratelimit, delay, now, limiter));
      item := ListNew(key, ratelimit, delay, now, limiter);
      assert ProcessingIs(goal.processing);
      forall e | e in items.elements ensures e == itemsInQueue[key] || e in old(items.elements) {
        assert e in AsSet(items.elements);
      }
    }

    /** A token is left in the wakeup channel unless one is there. */
    method Wake()
      requires Valid()
      modifies this`wakeup
      ensures Valid() && wakeup && View() == old(View()) && Repr() == old(Repr())
    {
      hide List.Valid, Indexes, Inv;
      ghost var q := View();
      wakeup := true;
      assert Values(items.elements) == q.items && ProcessingIs(q.processing);
    }

    method InsertItem(key: Key, ratelimit: bool, delay: Option<Duration>, now: Time, limiter: Duration)
      returns (item: QueueItem)
      requires Valid()
      modifies Repr()
      ensures Valid() && (forall o :: o in Repr() ==> o in old(Repr()) || fresh(o)) && item.key == key
      ensures View() == old(WorkQueue.Insert(View(), key, ratelimit, delay, now, limiter))
      ensures old(key !in itemsInQueue && key !in itemsBeingProcessed) ==>
        key in itemsInQueue && itemsInQueue[key].value == item && fresh(item)
    {
      hide List.Valid, Indexes, Inv, WorkQueue.Insert, Find, Fresh;
      InsertByKey(View(), key, ratelimit, delay, now, limiter);
      if key in itemsBeingProcessed {
        item := InsertProcessing(key, ratelimit, delay, now, limiter);
      } else if key in itemsInQueue {
        IndexedIsListed(key);
        item := InsertWaiting(key, ratelimit, delay, now, limiter);
      } else {
        item := InsertNew(key, ratelimit, delay, now, limiter);
      }
    }

    /**
     Insert a key: record the request on an item in processing, bring a waiting item forward, or
     list a new one. A token is always left in the wakeup channel.
     */
    method Insert(key: Key, ratelimit: bool, delay: Option<Duration>, now: Time, limiter: Duration)
      returns (item: QueueItem)
      requires Valid()
      modifies Repr()
      ensures Valid() && (forall o :: o in Repr() ==> o in old(Repr()) || fresh(o)) && item.key == key
      ensures wakeup
      ensures View() == old(WorkQueue.Insert(View(), key, ratelimit, delay, now, limiter))
      ensures old(key !in itemsInQueue && key !in itemsBeingProcessed) ==>
        key in itemsInQueue && itemsInQueue[key].value == item && fresh(item)
    {
      hide List.Valid, Indexes, Inv, WorkQueue.Insert, Find, Fresh;
      item := InsertItem(key, ratelimit, delay, now, limiter);
      Wake();
    }

    /** Take an element off the list and its key out of the index. */
    method Delist(element: Element, ghost at: nat)
      requires items.Valid() && Indexes(itemsInQueue, AsSet(items.elements))
      requires at < |items.elements| && element == items.elements[at] && element in AsSet(items.elements)
      modifies this`itemsInQueue, items, items.elements
      ensures items.Valid() && Indexes(itemsInQueue, AsSet(items.elements))
      ensures AsSet(items.elements) == old(AsSet(items.elements)) - {element}
      ensures Values(items.elements) == old(Without(Values(items.elements), at))
    {
      hide *;
      IndexRemoved(itemsInQueue, AsSet(items.elements), element);
      itemsInQueue := itemsInQueue - {element.value.key};
      items.Remove(element, at);
    }

    /** Fewer elements, fewer parts. */
    lemma PartsShrink(was: seq<Element>)
      requires AsSet(items.elements) <= AsSet(was)
      ensures Parts() <= AsSet(was) + (set e | e in was :: e.value) + itemsBeingProcessed.Values
    {
      forall e | e in items.elements ensures e in was {
        assert e in AsSet(items.elements);
      }
    }

    method ForgetWaiting(key: Key)
      requires Valid() && key in itemsInQueue
      modifies this`itemsInQueue, items, items.elements
      ensures items.Valid() && Indexes(itemsInQueue, AsSet(items.elements))
      ensures Repr() <= old(Repr())
      ensures View() == old(WorkQueue.Forget(View(), key))
    {
      hide List.Valid, Links, Distinct, Sorted, DistinctKeys, Find, Indexes, IndexOf, Without;
      ghost var at := IndexAgrees(key);
      ghost var goal := WorkQueue.Forget(View(), key);
      assert goal.items == Without(Values(items.elements), at);
      IndexedIsListed(key);
      ghost var was := items.elements;
      Delist(itemsInQueue[key], at);
      assert ProcessingIs(goal.processing);
      PartsShrink(was);
    }

    method MarkForgotten(key: Key)
      requires Valid() && key in itemsBeingProcessed
      modifies itemsBeingProcessed[key]
      ensures View() == old(WorkQueue.Forget(View(), key))
    {
      hide Inv, List.Valid, Indexes, Links, Distinct, Find;
      ProcessingIsNotListed(key);
      ProcessingIsNotWaiting(key);
      var qi := itemsBeingProcessed[key];
      forall k | k in itemsBeingProcessed && k != key ensures itemsBeingProcessed[k] != qi {
        ProcessingIsNotListed(k);
      }
      ghost var goal := WorkQueue.Forget(View(), key);
      qi.MarkForgotten();
      assert Values(items.elements) == goal.items;
    }

    lemma NothingToForget(key: Key)
      requires Valid() && key !in itemsInQueue && key !in itemsBeingProcessed
      ensures WorkQueue.Forget(View(), key) == View()
    {
      var i := IndexAgrees(key);
    }

    /** Forget a key: take a waiting item off the list, or mark the item in processing. */
    method Forget(key: Key)
      requires Valid()
      modifies Repr()
      ensures Valid() && Repr() <= old(Repr()) && wakeup == old(wakeup)
      ensures View() == old(WorkQueue.Forget(View(), key))
    {
      hide List.Valid, Indexes, Inv, WorkQueue.Forget, Find;
      ForgetByKey(View(), key);
      if key in itemsInQueue {
        ForgetWaiting(key);
      } else if key in itemsBeingProcessed {
        MarkForgotten(key);
      } else {
        NothingToForget(key);
      }
    }

    method TakeDue(element: Element) returns (qi: QueueItem)
      requires Valid() && items.elements != [] && element == items.elements[0]
      modifies this`itemsInQueue, this`itemsBeingProcessed, items, items.elements
      ensures items.Valid() && Indexes(itemsInQueue, AsSet(items.elements)) && Repr() <= old(Repr())
      ensures qi == element.value && qi.Value() == old(View().items[0])
      ensures itemsBeingProcessed == old(itemsBeingProcessed)[qi.key := qi]
      ensures View() == old(Take(View()))
    {
      hide List.Valid, Links, Distinct, Sorted, DistinctKeys, Find, Inv, Indexes, Take, Without;
      ghost var goal := Take(View());
      qi := element.value;
      FrontTaken();
      FrontIsIndexed();
      ghost var was := items.elements;
      itemsBeingProcessed := itemsBeingProcessed[qi.key := qi];
      Delist(element, 0);
      assert ProcessingIs(goal.processing);
      PartsShrink(was);
    }

    lemma FrontTaken()
      requires items.elements != []
      ensures var q := View();
        && Take(q).items == Without(Values(items.elements), 0)
        && Take(q).processing == ProcessingValues(itemsBeingProcessed)[q.items[0].key := q.items[0]]
    {
      assert Without(Values(items.elements), 0) == Values(items.elements)[1..];
    }

    lemma FrontIsIndexed()
      requires Valid() && items.elements != []
      ensures items.elements[0] in AsSet(items.elements)
      ensures items.front == items.elements[0] && items.elements[0].value.Value() == View().items[0]
    {
    }

    /** The locked part of the waiting loop: take the front item if it may start now. */
    method TryTake(now: Time) returns (r: Poll)
      requires Valid()
      modifies this`itemsInQueue, this`itemsBeingProcessed, items, items.elements
      ensures Valid() && Repr() <= old(Repr())
      ensures View() == old(if Due(View(), now) then Take(View()) else View())
      ensures match r
        case Empty => old(View().items == [])
        case NotDue(wait) => old(View().items != []) && wait == old(View().items[0].planned) - now && wait > 0
        case Took(qi) =>
          && old(Due(View(), now)) && qi.Value() == old(View().items[0])
          && qi.key !in old(itemsBeingProcessed) && qi.key in itemsBeingProcessed && itemsBeingProcessed[qi.key] == qi
    {
      hide Links, Distinct, Sorted, DistinctKeys, Find, Inv, Indexes, Take;
      var element := items.front;
      if element == null {
        return Empty;
      }
      FrontIsIndexed();
      TakeByKey(View());
      var wait := element.value.planned - now;
      if wait <= 0 {
        var qi := TakeDue(element);
        return Took(qi);
      }
      return NotDue(wait);
    }

    /** The waiting item of a key is one list element's, and no other part of the queue. */
    lemma OnlyThisItem(key: Key)
      requires Valid() && key in itemsInQueue && Listed(View().items, key)
      ensures var at := IndexOf(View().items, key); var item := itemsInQueue[key].value;
        && items.elements[at].value == item
        && (forall i :: 0 <= i < |items.elements| && i != at ==> items.elements[i].value != item)
        && (forall k :: k in itemsBeingProcessed ==> itemsBeingProcessed[k] != item)
    {
      var at := IndexAgrees(key);
      forall i | 0 <= i < |items.elements| && i != at ensures items.elements[i].value != itemsInQueue[key].value {
        assert View().items[i].key != View().items[at].key;
      }
      forall k | k in itemsBeingProcessed ensures itemsBeingProcessed[k] != itemsInQueue[key].value {
        ProcessingIsNotListed(k);
      }
    }

    method StampRetried(item: QueueItem, requeues: nat, originallyAdded: Time)
      requires Valid() && item.key in itemsInQueue && itemsInQueue[item.key].value == item
      requires Listed(View().items, item.key)
      modifies item
      ensures items.Valid() && Indexes(itemsInQueue, AsSet(items.elements)) && Repr() == old(Repr())
      ensures View() == old(var q := View();
        q.(items := Replace(q.items, item.key, Find(q.items, item.key).value.(requeues := requeues,
                                                                              originallyAdded := originallyAdded))))
    {
      hide List.Valid, Indexes, Links, Distinct, Inv, Sorted, DistinctKeys, Find, IndexOf;
      OnlyThisItem(item.key);
      ghost var q := View();
      assert item.Value() == Find(q.items, item.key).value;
      item.CarryOver(requeues, originallyAdded);
      assert Values(items.elements) == Replace(q.items, item.key, item.Value());
      assert ProcessingIs(q.processing);
    }

    method StampRedirtied(item: QueueItem)
      requires Valid() && item.key in itemsInQueue && itemsInQueue[item.key].value == item
      requires Listed(View().items, item.key)
      modifies item
      ensures items.Valid() && Indexes(itemsInQueue, AsSet(items.elements)) && Repr() == old(Repr())
      ensures View() == old(var q := View();
        q.(items := Replace(q.items, item.key, Find(q.items, item.key).value.(addedViaRedirty := true))))
    {
      hide List.Valid, Indexes, Links, Distinct, Inv, Sorted, DistinctKeys, Find, IndexOf;
      OnlyThisItem(item.key);
      ghost var q := View();
      assert item.Value() == Find(q.items, item.key).value;
      item.MarkAddedViaRedirty();
      assert Values(items.elements) == Replace(q.items, item.key, item.Value());
      assert ProcessingIs(q.processing);
    }

    /** The key of a returned handler leaves processing. */
    method EndProcessing(qi: QueueItem)
      requires Valid() && qi.key in itemsBeingProcessed && itemsBeingProcessed[qi.key] == qi
      modifies this`itemsBeingProcessed
      ensures Valid() && Repr() <= old(Repr()) && qi.Value() == old(View().processing[qi.key])
      ensures qi.key !in itemsInQueue && qi.key !in itemsBeingProcessed && qi !in Repr()
      ensures View() == old(View()).(processing := old(View()).processing - {qi.key})
      ensures !Listed(View().items, qi.key)
    {
      hide List.Valid, Indexes, Inv, Links, Distinct, Find;
      EndingKeepsInv(View(), qi.key);
      ProcessingIsNotWaiting(qi.key);
      ProcessingIsNotListed(qi.key);
      forall k | k in itemsBeingProcessed && k != qi.key ensures itemsBeingProcessed[k] != qi {
        ProcessingIsNotListed(k);
      }
      itemsBeingProcessed := itemsBeingProcessed - {qi.key};
      assert View().processing == old(View()).processing - {qi.key};
    }

    method RequeueFailed(qi: QueueItem, delay: Option<Duration>, now: Time, limiter: Duration)
      requires Valid() && qi !in Repr()
      requires qi.key !in itemsInQueue && qi.key !in itemsBeingProcessed
      requires Listed(WorkQueue.Insert(View(), qi.key, true, delay, now, limiter).items, qi.key)
      modifies Repr()
      ensures items.Valid() && Indexes(itemsInQueue, AsSet(items.elements))
      ensures wakeup && (forall o :: o in Repr() ==> o in old(Repr()) || fresh(o))
      ensures View() == old(
        var q := WorkQueue.Insert(View(), qi.key, true, delay, now, limiter);
        q.(items := Replace(q.items, qi.key, Find(q.items, qi.key).value.(requeues := qi.requeues + 1,
                                                                          originallyAdded := qi.originallyAdded))))
    {
      hide *;
      var newQI := Insert(qi.key, true, delay, now, limiter);
      StampRetried(newQI, qi.requeues + 1, qi.originallyAdded);
    }

    method RequeueRedirtied(qi: QueueItem, measured: Time, now: Time, limiter: Duration)
      requires Valid() && qi !in Repr()
      requires qi.key !in itemsInQueue && qi.key !in itemsBeingProcessed
      requires Listed(WorkQueue.Insert(View(), qi.key, qi.redirtiedWithRatelimit, Some(qi.redirtiedAt - measured),
                                       now, limiter).items, qi.key)
      modifies Repr()
      ensures items.Valid() && Indexes(itemsInQueue, AsSet(items.elements))
      ensures wakeup && (forall o :: o in Repr() ==> o in old(Repr()) || fresh(o))
      ensures View() == old(
        var q := WorkQueue.Insert(View(), qi.key, qi.redirtiedWithRatelimit, Some(qi.redirtiedAt - measured),
                                  now, limiter);
        q.(items := Replace(q.items, qi.key, Find(q.items, qi.key).value.(addedViaRedirty := true))))
    {
      hide *;
      var delay := qi.redirtiedAt - measured;
      var newQI := Insert(qi.key, qi.redirtiedWithRatelimit, Some(delay), now, limiter);
      StampRedirtied(newQI);
    }

    method Retry(qi: QueueItem, delay: Option<Duration>, now: Time, limiter: Duration)
      requires Valid() && qi !in Repr()
      requires qi.key !in itemsInQueue && qi.key !in itemsBeingProcessed
      requires Inv(View()) && !Listed(View().items, qi.key) && qi.key !in View().processing
      modifies Repr()
      ensures items.Valid() && Indexes(itemsInQueue, AsSet(items.elements))
      ensures wakeup && (forall o :: o in Repr() ==> o in old(Repr()) || fresh(o))
      ensures View() == old(var q := View(); q.(items := Place(q.items, RetryItem(qi.Value(), delay, now, limiter))))
    {
      hide List.Valid, Indexes, Inv, Find, Place, WorkQueue.Insert, IndexOf, Replace, View, Valid, Repr, AsSet;
      InsertedThenStamped(View(), qi.key, true, delay, now, limiter, RetryItem(qi.Value(), delay, now, limiter));
      RequeueFailed(qi, delay, now, limiter);
    }

    method RunAgain(qi: QueueItem, measured: Time, now: Time, limiter: Duration)
      requires Valid() && qi !in Repr()
      requires qi.key !in itemsInQueue && qi.key !in itemsBeingProcessed
      requires Inv(View()) && !Listed(View().items, qi.key) && qi.key !in View().processing
      modifies Repr()
      ensures items.Valid() && Indexes(itemsInQueue, AsSet(items.elements))
      ensures wakeup && (forall o :: o in Repr() ==> o in old(Repr()) || fresh(o))
      ensures View() == old(var q := View(); q.(items :=
          Place(q.items, RedirtiedItem(qi.Value(), measured, now, limiter))))
    {
      hide List.Valid, Indexes, Inv, Find, Place, WorkQueue.Insert, IndexOf, Replace, View, Valid, Repr, AsSet;
      InsertedThenStamped(View(), qi.key, qi.redirtiedWithRatelimit, Some(qi.redirtiedAt - measured), now, limiter,
                          RedirtiedItem(qi.Value(), measured, now, limiter));
      RequeueRedirtied(qi, measured, now, limiter);
    }

    /** List the key of an ended item again, if it is retried or was redirtied. */
    method Requeue(qi: QueueItem, failed: bool, verdict: Verdict, measured: Time, now: Time, limiter: Duration)
      returns (c: Completion)
      requires Valid() && qi !in Repr()
      requires qi.key !in itemsInQueue && qi.key !in itemsBeingProcessed
      requires Inv(View()) && !Listed(View().items, qi.key) && qi.key !in View().processing
      modifies Repr()
      ensures items.Valid() && Indexes(itemsInQueue, AsSet(items.elements)) &&
          (forall o :: o in Repr() ==> o in old(Repr()) || fresh(o))
      ensures c == old(CompletionOf(qi.Value(), failed, verdict))
      ensures wakeup == (old(wakeup) || c == Retried || (c != Forgotten && old(qi.redirtiedAt) != ZERO_TIME))
      ensures View() == old(var q := View(); var it := qi.Value();
        match CompletionOf(it, failed, verdict)
        case Forgotten => q
        case Retried => q.(items := Place(q.items, RetryItem(it, verdict.delay, now, limiter)))
        case _ => if it.redirtiedAt == ZERO_TIME then q
                  else q.(items := Place(q.items, RedirtiedItem(it, measured, now, limiter))))
    {
      hide List.Valid, Indexes, Inv, Find, Place, IndexOf, Repr, View, AsSet, RetryItem, RedirtiedItem;
      if qi.forget {
        return Forgotten;
      }
      if failed {
        match verdict {
          case Retry(delay) =>
            Retry(qi, delay, now, limiter);
            return Retried;
          case GiveUp =>
        }
      }
      if qi.redirtiedAt != ZERO_TIME {
        RunAgain(qi, measured, now, limiter);
      }
      return if failed then GaveUp else Succeeded;
    }

    /**
     What follows a handler: the key leaves processing; a forgotten item is dropped, a failed one
     is retried if the verdict says so, and otherwise the key is listed again if it was redirtied.
     */
    method Complete(qi: QueueItem, failed: bool, verdict: Verdict, measured: Time, now: Time, limiter: Duration)
      returns (c: Completion)
      requires Valid() && qi.key in itemsBeingProcessed && itemsBeingProcessed[qi.key] == qi
      requires qi.key in View().processing
      modifies Repr()
      ensures Valid() && (forall o :: o in Repr() ==> o in old(Repr()) || fresh(o))
      ensures (c == Forgotten <==> old(qi.forget)) && (c == Retried <==> !old(qi.forget) && failed && verdict.Retry?)
      ensures c == Succeeded <==> !old(qi.forget) && !failed
      ensures wakeup == (old(wakeup) ||
        (!old(qi.forget) && ((failed && verdict.Retry?) || old(qi.redirtiedAt) != ZERO_TIME)))
      ensures View() == old(WorkQueue.Complete(View(), qi.key, failed, verdict, measured, now, limiter))
    {
      hide List.Valid, Indexes, Inv, Find, Place, Parts, View, AsSet, RetryItem, RedirtiedItem;
      CompleteByKey(View(), qi.key, failed, verdict, measured, now, limiter);
      EndProcessing(qi);
      c := Requeue(qi, failed, verdict, measured, now, limiter);
    }

    /** Waiting items and items in processing; list and index never disagree about how many wait. */
    method Len() returns (n: nat)
      requires Valid()
      ensures n == |View().items| + |View().processing|
    {
      CountsAgree();
      if items.length != |itemsInQueue| {
        assert false;
      }
      n := items.length + |itemsBeingProcessed|;
    }

    method UnprocessedLen() returns (n: nat)
      requires Valid()
      ensures n == |View().items|
    {
      CountsAgree();
      if items.length != |itemsInQueue| {
        assert false;
      }
      n := |itemsInQueue|;
    }

    lemma CountsAgree()
      requires Valid()
      ensures |itemsInQueue| == |items.elements| == items.length
      ensures |View().processing| == |itemsBeingProcessed|
    {
      KeysCount(items.elements);
      assert itemsInQueue.Keys == KeysOf(items.elements) by {
        forall e | e in items.elements ensures e.value.key in itemsInQueue {
          assert e in AsSet(items.elements);
        }
      }
      assert View().processing.Keys == itemsBeingProcessed.Keys;
    }
  }

  ghost function KeysOf(elements: seq<Element>): set<Key> {
    set e | e in elements :: e.value.key
  }

  lemma {:induction false} KeysCount(elements: seq<Element>)
    requires forall i, j :: 0 <= i < j < |elements| ==> elements[i].value.key != elements[j].value.key
    ensures |KeysOf(elements)| == |elements|
  {
    if elements != [] {
      var n := |elements| - 1;
      KeysCount(elements[..n]);
      assert elements == elements[..n] + [elements[n]];
      assert KeysOf(elements) == KeysOf(elements[..n]) + {elements[n].value.key};
    }
  }
}
