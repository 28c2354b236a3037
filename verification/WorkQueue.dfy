/**
 The delayed work queue as values: what one locked section of the queue does to the list of
 waiting items and to the items in processing. LinkedWorkQueue shows that the linked list with
 its key index computes exactly this; the protocols are built on it.
 */
module WorkQueue {
  import opened Wrappers

  type Key = string
  type Time = int
  type Duration = int

  /** The zero instant; the queue reads a redirty instant equal to it as "not redirtied". */
  const ZERO_TIME: Time := 0

  const MAX_RETRIES: nat := 20

  datatype Item = Item(
    key: Key,
    planned: Time,
    redirtiedAt: Time,
    redirtiedWithRatelimit: bool,
    forget: bool,
    requeues: nat,
    originallyAdded: Time,
    addedViaRedirty: bool,
    delayedViaRateLimit: Option<Duration>)

  datatype State = State(items: seq<Item>, processing: map<Key, Item>)

  /** What the retry function answers about a failed item. */
  datatype Verdict = Retry(delay: Option<Duration>) | GiveUp

  /** What became of an item whose handler returned. */
  datatype Completion = Forgotten | Retried | GaveUp | Succeeded

  const EMPTY := State([], map[])

  // ---------------------------------------------------------------- the list, seen by key

  predicate Sorted(items: seq<Item>) {
    forall i, j :: 0 <= i < j < |items| ==> items[i].planned <= items[j].planned
  }

  predicate DistinctKeys(items: seq<Item>) {
    forall i, j :: 0 <= i < j < |items| ==> items[i].key != items[j].key
  }

  /** The waiting item of a key. */
  function Find(items: seq<Item>, key: Key): (r: Option<Item>)
    ensures r.Some? ==> r.value in items && r.value.key == key
  {
    if items == [] then None
    else if items[0].key == key then Some(items[0])
    else Find(items[1..], key)
  }

  predicate Listed(items: seq<Item>, key: Key) {
    Find(items, key).Some?
  }

  function IndexOf(items: seq<Item>, key: Key): (i: nat)
    requires Listed(items, key)
    ensures i < |items| && items[i] == Find(items, key).value
  {
    if items[0].key == key then 0 else 1 + IndexOf(items[1..], key)
  }

  lemma {:induction false} FindAt(items: seq<Item>, i: nat)
    requires DistinctKeys(items) && i < |items|
    ensures Find(items, items[i].key) == Some(items[i])
  {
    if i != 0 {
      FindAt(items[1..], i - 1);
    }
  }

  lemma {:induction false} FindNone(items: seq<Item>, key: Key)
    ensures Find(items, key).None? <==> forall i :: 0 <= i < |items| ==> items[i].key != key
  {
    if items != [] {
      FindNone(items[1..], key);
      if forall i :: 0 <= i < |items| ==> items[i].key != key {
        forall i | 0 <= i < |items[1..]| ensures items[1..][i].key != key {
          assert items[1..][i] == items[i + 1];
        }
      }
    }
  }

  /** With distinct keys, a list is read by key: an item is found iff it is an element. */
  lemma FindIff(items: seq<Item>, it: Item)
    requires DistinctKeys(items)
    ensures Find(items, it.key) == Some(it) <==> it in items
  {
    if it in items {
      var i :| 0 <= i < |items| && items[i] == it;
      FindAt(items, i);
    }
  }

  /** Two lists with distinct keys and the same elements answer every key alike. */
  lemma SameElementsSameFind(a: seq<Item>, b: seq<Item>, key: Key)
    requires DistinctKeys(a) && DistinctKeys(b)
    requires forall it: Item :: it.key == key ==> (it in a <==> it in b)
    ensures Find(a, key) == Find(b, key)
  {
    match Find(a, key) {
      case Some(it) => FindIff(a, it); FindIff(b, it);
      case None =>
        if Find(b, key).Some? {
          FindIff(b, Find(b, key).value);
          FindIff(a, Find(b, key).value);
        }
    }
  }

  // ---------------------------------------------------------------- placing by time

  /** How many waiting items are planned strictly before t. */
  function Rank(items: seq<Item>, t: Time): (r: nat)
    ensures r <= |items|
  {
    if items == [] then 0
    else (if items[0].planned < t then 1 else 0) + Rank(items[1..], t)
  }

  predicate SplitsAt(items: seq<Item>, t: Time, r: nat) {
    && r <= |items|
    && (forall i :: 0 <= i < r ==> items[i].planned < t)
    && (forall i :: r <= i < |items| ==> t <= items[i].planned)
  }

  lemma {:induction false} RankSplits(items: seq<Item>, t: Time)
    requires Sorted(items)
    ensures SplitsAt(items, t, Rank(items, t))
  {
    if items != [] {
      var tail := items[1..];
      forall i, j | 0 <= i < j < |tail| ensures tail[i].planned <= tail[j].planned {
        assert items[i + 1].planned <= items[j + 1].planned;
      }
      RankSplits(tail, t);
      if t <= items[0].planned {
        assert forall i :: 0 <= i < |tail| ==> t <= tail[i].planned;
        SplitIsRank(tail, t, 0);
      }
      assert forall i :: 1 <= i < |items| ==> items[i] == tail[i - 1];
    }
  }

  lemma {:induction false} SplitIsRank(items: seq<Item>, t: Time, r: nat)
    requires SplitsAt(items, t, r)
    ensures r == Rank(items, t)
  {
    if items != [] {
      var tail := items[1..];
      var r' := if r == 0 then 0 else r - 1;
      forall i | 0 <= i < r' ensures tail[i].planned < t {
        assert tail[i] == items[i + 1];
      }
      SplitIsRank(tail, t, r');
    }
  }

  /** Put an item behind everything planned earlier and in front of everything else. */
  function Place(items: seq<Item>, it: Item): (s: seq<Item>)
    ensures |s| == |items| + 1
  {
    var r := Rank(items, it.planned);
    items[..r] + [it] + items[r..]
  }

  lemma PlaceIsSorted(items: seq<Item>, it: Item)
    requires Sorted(items)
    ensures Sorted(Place(items, it))
  {
    RankSplits(items, it.planned);
  }

  lemma PlaceElements(items: seq<Item>, it: Item)
    ensures forall x: Item :: x in Place(items, it) <==> x == it || x in items
  {
    var r := Rank(items, it.planned);
    assert items == items[..r] + items[r..];
  }

  lemma PlaceIsDistinct(items: seq<Item>, it: Item)
    requires DistinctKeys(items) && !Listed(items, it.key)
    ensures DistinctKeys(Place(items, it))
  {
    FindNone(items, it.key);
    var r := Rank(items, it.planned);
    var s := Place(items, it);
    assert forall j :: 0 <= j < |s| ==>
      s[j] == if j < r then items[j] else if j == r then it else items[j - 1];
  }

  lemma PlaceKeepsOrder(items: seq<Item>, it: Item)
    requires Sorted(items) && DistinctKeys(items) && !Listed(items, it.key)
    ensures Sorted(Place(items, it)) && DistinctKeys(Place(items, it))
    ensures forall x: Item :: x in Place(items, it) <==> x == it || x in items
    ensures Find(Place(items, it), it.key) == Some(it)
    ensures forall k :: k != it.key ==> Find(Place(items, it), k) == Find(items, k)
  {
    var s := Place(items, it);
    PlaceIsSorted(items, it);
    PlaceElements(items, it);
    PlaceIsDistinct(items, it);
    FindIff(s, it);
    forall k | k != it.key ensures Find(s, k) == Find(items, k) {
      SameElementsSameFind(s, items, k);
    }
  }

  /**
   A new item goes behind the strictly earlier ones and in front of its equals: equal instants are
   not first come, first served.
   */
  lemma PlacedBeforeEquals(items: seq<Item>, it: Item)
    requires Sorted(items)
    ensures var s, r := Place(items, it), Rank(items, it.planned);
      && s[r] == it && s[..r] + s[r + 1..] == items
      && (forall i :: 0 <= i < r ==> s[i].planned < it.planned)
      && (forall i :: r < i < |s| ==> it.planned <= s[i].planned)
  {
    RankSplits(items, it.planned);
    PlacedAtRank(items, it);
    hide Place, Rank, Sorted;
    var s, r := Place(items, it), Rank(items, it.planned);
    assert forall i :: r < i < |s| ==> s[i] == items[i - 1];
  }

  lemma PlacedAtRank(items: seq<Item>, it: Item)
    ensures var s, r := Place(items, it), Rank(items, it.planned);
      && r < |s| && s[r] == it && s[..r] + s[r + 1..] == items
      && (forall i :: 0 <= i < r ==> s[i] == items[i])
      && (forall i :: r < i < |s| ==> s[i] == items[i - 1])
  {
    hide Rank;
    var r := Rank(items, it.planned);
    var s := items[..r] + [it] + items[r..];
    assert s[..r] == items[..r];
    assert s[r + 1..] == items[r..];
  }

  /** The list with the item of a key replaced where it stands. */
  function Replace(items: seq<Item>, key: Key, it: Item): seq<Item>
    requires Listed(items, key)
  {
    items[IndexOf(items, key) := it]
  }

  /** A waiting item asked for at its own instant or earlier is put in front of its new equals. */
  lemma BroughtBeforeEquals(items: seq<Item>, key: Key, when: Time)
    requires Sorted(items) && DistinctKeys(items) && Listed(items, key) && when <= Find(items, key).value.planned
    ensures var s := BringForward(items, key, when);
      exists r :: 0 <= r < |s| && s[r].key == key && s[r].planned == when
        && (forall i :: 0 <= i < r ==> s[i].planned < when)
        && (forall i :: r < i < |s| ==> when <= s[i].planned)
  {
    hide Sorted, DistinctKeys, Without, Place, Rank, Find;
    var i := IndexOf(items, key);
    WithoutIsSorted(items, i);
    var others, it := Without(items, i), items[i].(planned := when);
    assert BringForward(items, key, when) == Place(others, it);
    PlacedBeforeEquals(others, it);
    var s, r := Place(others, it), Rank(others, when);
    assert s[r].key == key && s[r].planned == when;
  }

  /** Fields other than the key and the planned instant may be set after placing. */
  lemma PlaceThenReplace(items: seq<Item>, it: Item, it': Item)
    requires it'.key == it.key && it'.planned == it.planned
    requires DistinctKeys(items) && !Listed(items, it.key)
    ensures Find(Place(items, it), it.key) == Some(it)
    ensures Replace(Place(items, it), it.key, it') == Place(items, it')
  {
    PlaceIsDistinct(items, it);
    var r := Rank(items, it.planned);
    var s := Place(items, it);
    assert s[r] == it;
    FindAt(s, r);
    var i := IndexOf(s, it.key);
    assert i == r;
  }

  /** The list without one index. */
  function Without(items: seq<Item>, i: nat): (s: seq<Item>)
    requires i < |items|
  {
    items[..i] + items[i + 1..]
  }

  lemma WithoutIsSorted(items: seq<Item>, i: nat)
    requires i < |items|
    ensures Sorted(items) ==> Sorted(Without(items, i))
    ensures DistinctKeys(items) ==> DistinctKeys(Without(items, i))
  {
    var s := Without(items, i);
    assert forall j :: 0 <= j < |s| ==> s[j] == if j < i then items[j] else items[j + 1];
  }

  lemma WithoutElements(items: seq<Item>, i: nat)
    requires DistinctKeys(items) && i < |items|
    ensures forall x: Item :: x in Without(items, i) <==> x in items && x.key != items[i].key
  {
    var s := Without(items, i);
    forall j | 0 <= j < |s| ensures s[j] in items && s[j].key != items[i].key {
      assert s[j] == if j < i then items[j] else items[j + 1];
    }
    forall j | 0 <= j < |items| && items[j].key != items[i].key ensures items[j] in s {
      assert items[j] == s[if j < i then j else j - 1];
    }
  }

  lemma WithoutKeepsOrder(items: seq<Item>, i: nat)
    requires DistinctKeys(items) && i < |items|
    ensures Sorted(items) ==> Sorted(Without(items, i))
    ensures DistinctKeys(Without(items, i))
    ensures Find(Without(items, i), items[i].key).None?
    ensures forall x :: x in Without(items, i) ==> x in items
    ensures forall k :: k != items[i].key ==> Find(Without(items, i), k) == Find(items, k)
  {
    hide Sorted, DistinctKeys, Without;
    WithoutIsSorted(items, i);
    WithoutElements(items, i);
    var s := Without(items, i);
    forall k | k != items[i].key ensures Find(s, k) == Find(items, k) {
      SameElementsSameFind(s, items, k);
    }
  }

  // ---------------------------------------------------------------- the locked operations

  /** An item as insert creates it. */
  function Fresh(key: Key, ratelimit: bool, delay: Option<Duration>, now: Time, limiter: Duration): Item {
    var wait := delay.GetOr(if ratelimit then limiter else 0);
    Item(key, now + wait, ZERO_TIME, false, false, 0, now, false, if ratelimit then Some(wait) else None)
  }

  /** A request for an item that is being processed: keep the earliest instant, lift a forget. */
  function Redirty(it: Item, when: Time, ratelimit: bool): Item {
    if it.redirtiedAt == ZERO_TIME || when < it.redirtiedAt
    then it.(redirtiedAt := when, redirtiedWithRatelimit := ratelimit, forget := false)
    else it.(forget := false)
  }

  /** A request for a waiting item: never later than planned, and in front of its equals. */
  function BringForward(items: seq<Item>, key: Key, when: Time): seq<Item>
    requires Listed(items, key)
  {
    var i := IndexOf(items, key);
    if when > items[i].planned then items
    else Place(Without(items, i), items[i].(planned := when))
  }

  function Insert(q: State, key: Key, ratelimit: bool, delay: Option<Duration>, now: Time, limiter: Duration): State {
    var when := now + delay.GetOr(0);
    if key in q.processing then
      q.(processing := q.processing[key := Redirty(q.processing[key], when, ratelimit)])
    else if Listed(q.items, key) then
      q.(items := BringForward(q.items, key, when))
    else
      q.(items := Place(q.items, Fresh(key, ratelimit, delay, now, limiter)))
  }

  function Forget(q: State, key: Key): State {
    if Listed(q.items, key) then q.(items := Without(q.items, IndexOf(q.items, key)))
    else if key in q.processing then
      q.(processing := q.processing[key := q.processing[key].(forget := true)])
    else q
  }

  /** Whether the first waiting item may start now. */
  predicate Due(q: State, now: Time) {
    q.items != [] && q.items[0].planned <= now
  }

  /** Move the first waiting item into processing. */
  function Take(q: State): State
    requires q.items != []
  {
    State(q.items[1..], q.processing[q.items[0].key := q.items[0]])
  }

  function CompletionOf(it: Item, failed: bool, verdict: Verdict): Completion {
    if it.forget then Forgotten
    else if !failed then Succeeded
    else if verdict.Retry? then Retried
    else GaveUp
  }

  /** The item that replaces a retried one: a fresh item that has counted the failure. */
  function RetryItem(it: Item, delay: Option<Duration>, now: Time, limiter: Duration): Item {
    Fresh(it.key, true, delay, now, limiter).(requeues := it.requeues + 1, originallyAdded := it.originallyAdded)
  }

  /**
   The item that a redirtied one leaves behind when it succeeds or is given up. The delay is
   measured first and added to the instant of insertion, which is a second reading of the clock.
   */
  function RedirtiedItem(it: Item, measured: Time, now: Time, limiter: Duration): Item {
    Fresh(it.key, it.redirtiedWithRatelimit, Some(it.redirtiedAt - measured), now, limiter).(addedViaRedirty := true)
  }

  /** What follows the handler of a key in processing. */
  function Complete(q: State, key: Key, failed: bool, verdict: Verdict,
                    measured: Time, now: Time, limiter: Duration): State
    requires key in q.processing
  {
    var it := q.processing[key];
    var rest := q.(processing := q.processing - {key});
    match CompletionOf(it, failed, verdict)
    case Forgotten => rest
    case Retried => rest.(items := Place(rest.items, RetryItem(it, verdict.delay, now, limiter)))
    case _ =>
      if it.redirtiedAt == ZERO_TIME then rest
      else rest.(items := Place(rest.items, RedirtiedItem(it, measured, now, limiter)))
  }

  /** The default retry function: the number of tries must stay below the maximum. */
  function DefaultRetry(timesTried: nat): Verdict {
    if timesTried < MAX_RETRIES then Retry(None) else GiveUp
  }

  // ---------------------------------------------------------------- the queue invariant

  /**
   Sorted, one item per key, no key both waiting and in processing, each entry in processing
   filed under its own key; waiting items carry no mark made during processing.
   */
  ghost predicate Inv(q: State) {
    && Sorted(q.items)
    && DistinctKeys(q.items)
    && (forall k :: k in q.processing ==> q.processing[k].key == k && !Listed(q.items, k))
    && (forall it :: it in q.items ==> it.redirtiedAt == ZERO_TIME && !it.forget)
  }

  /** Everything about every key but one is as it was. */
  ghost predicate OthersUnchanged(q: State, q': State, key: Key) {
    && (forall k :: k != key ==> Find(q'.items, k) == Find(q.items, k))
    && (forall k :: k != key ==> (k in q'.processing <==> k in q.processing))
    && (forall k :: k != key && k in q.processing && k in q'.processing ==> q'.processing[k] == q.processing[k])
  }

  /** Bringing a key forward changes only its own instant, to the earlier of the two. */
  lemma BringForwardByKey(items: seq<Item>, key: Key, when: Time)
    requires Sorted(items) && DistinctKeys(items) && Listed(items, key)
    ensures var s := BringForward(items, key, when); var was := Find(items, key).value;
      && Sorted(s) && DistinctKeys(s)
      && Find(s, key) == Some(was.(planned := if when < was.planned then when else was.planned))
      && (forall k :: k != key ==> Find(s, k) == Find(items, k))
      && (forall x :: x in s ==> x in items || x == was.(planned := when))
  {
    hide Sorted, DistinctKeys, Place, Without;
    var i := IndexOf(items, key);
    if when <= items[i].planned {
      WithoutKeepsOrder(items, i);
      PlaceKeepsOrder(Without(items, i), items[i].(planned := when));
    }
  }

  lemma InsertProcessing(q: State, key: Key, ratelimit: bool, delay: Option<Duration>, now: Time, limiter: Duration)
    requires Inv(q) && key in q.processing
    ensures var q' := Insert(q, key, ratelimit, delay, now, limiter);
      && Inv(q') && OthersUnchanged(q, q', key)
      && q'.items == q.items && key in q'.processing
      && q'.processing[key] == Redirty(q.processing[key], now + delay.GetOr(0), ratelimit)
  {
    hide Sorted, DistinctKeys, Find;
  }

  lemma InsertListed(q: State, key: Key, ratelimit: bool, delay: Option<Duration>, now: Time, limiter: Duration)
    requires Inv(q) && Listed(q.items, key)
    ensures var q' := Insert(q, key, ratelimit, delay, now, limiter);
      var when := now + delay.GetOr(0); var was := Find(q.items, key).value;
      && Inv(q') && OthersUnchanged(q, q', key)
      && q'.processing == q.processing
      && Find(q'.items, key) == Some(was.(planned := if when < was.planned then when else was.planned))
  {
    hide Sorted, DistinctKeys, BringForward, Find;
    BringForwardByKey(q.items, key, now + delay.GetOr(0));
  }

  lemma InsertAbsent(q: State, key: Key, ratelimit: bool, delay: Option<Duration>, now: Time, limiter: Duration)
    requires Inv(q) && !Listed(q.items, key) && key !in q.processing
    ensures var q' := Insert(q, key, ratelimit, delay, now, limiter);
      && Inv(q') && OthersUnchanged(q, q', key)
      && q'.processing == q.processing
      && Find(q'.items, key) == Some(Fresh(key, ratelimit, delay, now, limiter))
  {
    hide Sorted, DistinctKeys, Place, Find;
    PlaceKeepsOrder(q.items, Fresh(key, ratelimit, delay, now, limiter));
  }

  /**
   Insert by key: a waiting key is planned for the earlier of its own instant and the requested
   one; a key in processing records the earlier redirty instant and is no longer forgotten; an
   absent key waits for now plus the delay that applies.
   */
  lemma InsertByKey(q: State, key: Key, ratelimit: bool, delay: Option<Duration>, now: Time, limiter: Duration)
    requires Inv(q)
    ensures var q' := Insert(q, key, ratelimit, delay, now, limiter);
      var when := now + delay.GetOr(0);
      && Inv(q') && OthersUnchanged(q, q', key)
      && (Listed(q.items, key) ==>
            && q'.processing == q.processing
            && var was := Find(q.items, key).value;
               Find(q'.items, key) == Some(was.(planned := if when < was.planned then when else was.planned)))
      && (key in q.processing ==>
            && q'.items == q.items && key in q'.processing
            && !q'.processing[key].forget
            && q'.processing[key] == Redirty(q.processing[key], when, ratelimit))
      && (!Listed(q.items, key) && key !in q.processing ==>
            && q'.processing == q.processing
            && Find(q'.items, key) == Some(Fresh(key, ratelimit, delay, now, limiter)))
  {
    hide Insert, Sorted, DistinctKeys, Find, OthersUnchanged;
    if key in q.processing {
      InsertProcessing(q, key, ratelimit, delay, now, limiter);
    } else if Listed(q.items, key) {
      InsertListed(q, key, ratelimit, delay, now, limiter);
    } else {
      InsertAbsent(q, key, ratelimit, delay, now, limiter);
    }
  }

  /** Forget by key: a waiting key leaves; a key in processing is only marked. */
  lemma ForgetByKey(q: State, key: Key)
    requires Inv(q)
    ensures var q' := Forget(q, key);
      && Inv(q') && OthersUnchanged(q, q', key) && Find(q'.items, key).None?
      && (key in q.processing ==> key in q'.processing && q'.processing[key] == q.processing[key].(forget := true))
      && (key !in q.processing ==> key !in q'.processing)
  {
    if Listed(q.items, key) {
      WithoutKeepsOrder(q.items, IndexOf(q.items, key));
      assert forall it :: it in Forget(q, key).items ==> it in q.items;
    }
  }

  /**
   Take by key: the item that starts is one of least planned instant, it moves as it is from the
   list into processing, where nothing was filed under its key.
   */
  lemma TakeByKey(q: State)
    requires Inv(q) && q.items != []
    ensures var q' := Take(q); var key := q.items[0].key;
      && Inv(q') && OthersUnchanged(q, q', key)
      && Find(q.items, key) == Some(q.items[0])
      && (forall k :: Listed(q.items, k) ==> q.items[0].planned <= Find(q.items, k).value.planned)
      && key !in q.processing && Find(q'.items, key).None?
      && key in q'.processing && q'.processing[key] == q.items[0]
  {
    var key := q.items[0].key;
    FindAt(q.items, 0);
    WithoutKeepsOrder(q.items, 0);
    assert Without(q.items, 0) == q.items[1..];
    forall k | Listed(q.items, k) ensures q.items[0].planned <= Find(q.items, k).value.planned {
      var i := IndexOf(q.items, k);
    }
    forall k | k in Take(q).processing
      ensures Take(q).processing[k].key == k && !Listed(Take(q).items, k) {}
  }

  /** Nothing that waits is marked to be forgotten. */
  lemma WaitingIsUnmarked(q: State)
    requires Inv(q) && q.items != []
    ensures !q.items[0].forget
  {
    assert q.items[0] in q.items;
  }

  lemma ProcessingIsNotListed(q: State, key: Key)
    requires Inv(q) && key in q.processing
    ensures !Listed(q.items, key)
  {
  }

  lemma EndingKeepsInv(q: State, key: Key)
    requires Inv(q)
    ensures Inv(q.(processing := q.processing - {key}))
  {
  }

  /**
   Complete by key: the key leaves processing; what waits for it afterwards is always a new item,
   never another item overwritten. A forgotten item leaves nothing, whatever its handler returned;
   otherwise there is one if the handler failed and is retried, or the item was redirtied.
   */
  lemma CompleteByKey(q: State, key: Key, failed: bool, verdict: Verdict,
                      measured: Time, now: Time, limiter: Duration)
    requires Inv(q) && key in q.processing
    ensures var q' := Complete(q, key, failed, verdict, measured, now, limiter);
      var it := q.processing[key];
      && Inv(q') && OthersUnchanged(q, q', key) && key !in q'.processing
      && (Listed(q'.items, key) <==> !it.forget && ((failed && verdict.Retry?) || it.redirtiedAt != ZERO_TIME))
      && (!it.forget && failed && verdict.Retry? ==>
            Find(q'.items, key) == Some(RetryItem(it, verdict.delay, now, limiter)))
      && (!(failed && verdict.Retry?) && Listed(q'.items, key) ==>
            Find(q'.items, key) == Some(RedirtiedItem(it, measured, now, limiter)))
  {
    var it := q.processing[key];
    match CompletionOf(it, failed, verdict) {
      case Forgotten =>
      case Retried => PlaceKeepsOrder(q.items, RetryItem(it, verdict.delay, now, limiter));
      case _ =>
        if it.redirtiedAt != ZERO_TIME {
          PlaceKeepsOrder(q.items, RedirtiedItem(it, measured, now, limiter));
        }
    }
  }

  /** The item that waits after a completion, field by field. */
  lemma CompletedItem(q: State, key: Key, failed: bool, verdict: Verdict,
                      measured: Time, now: Time, limiter: Duration)
    requires Inv(q) && key in q.processing
    requires Listed(Complete(q, key, failed, verdict, measured, now, limiter).items, key)
    ensures var it := q.processing[key];
      var again := Find(Complete(q, key, failed, verdict, measured, now, limiter).items, key).value;
      && again.key == key && again.redirtiedAt == ZERO_TIME && !again.forget && !again.redirtiedWithRatelimit
      && if failed && verdict.Retry? then
           && again.planned == now + verdict.delay.GetOr(limiter)
           && again.delayedViaRateLimit == Some(verdict.delay.GetOr(limiter))
           && again.requeues == it.requeues + 1 && again.originallyAdded == it.originallyAdded
           && !again.addedViaRedirty
         else
           && again.planned - now == it.redirtiedAt - measured
           && again.delayedViaRateLimit == (if it.redirtiedWithRatelimit then Some(again.planned - now) else None)
           && again.requeues == 0 && again.originallyAdded == now && again.addedViaRedirty
  {
    CompleteByKey(q, key, failed, verdict, measured, now, limiter);
    hide Find, Complete, Sorted, DistinctKeys;
  }

  /** What a request leaves for a key neither waiting nor in processing, field by field. */
  lemma InsertedItem(q: State, key: Key, ratelimit: bool, delay: Option<Duration>, now: Time, limiter: Duration)
    requires Inv(q) && !Listed(q.items, key) && key !in q.processing
    ensures var q' := Insert(q, key, ratelimit, delay, now, limiter);
      && Listed(q'.items, key)
      && var it := Find(q'.items, key).value;
         && it.planned == now + (if delay.Some? then delay.value else if ratelimit then limiter else 0)
         && it.delayedViaRateLimit == (if ratelimit then Some(it.planned - now) else None)
         && it.originallyAdded == now && it.requeues == 0 && it.redirtiedAt == ZERO_TIME
         && !it.forget && !it.addedViaRedirty
  {
    InsertByKey(q, key, ratelimit, delay, now, limiter);
    hide Find, Insert, Sorted, DistinctKeys;
  }

  /** What a request leaves of an item in processing: the earlier instant with its rate limit, and no forget mark. */
  lemma RequestedInProcessing(q: State, key: Key, ratelimit: bool, delay: Option<Duration>, now: Time,
                              limiter: Duration)
    requires Inv(q) && key in q.processing
    ensures var when := now + delay.GetOr(0);
      var q' := Insert(q, key, ratelimit, delay, now, limiter); var it := q.processing[key];
      && q'.items == q.items && key in q'.processing
      && var it' := q'.processing[key]; var earlier := it.redirtiedAt == ZERO_TIME || when < it.redirtiedAt;
         && !it'.forget
         && it'.redirtiedAt == (if earlier then when else it.redirtiedAt)
         && it'.redirtiedWithRatelimit == (if earlier then ratelimit else it.redirtiedWithRatelimit)
         && it'.(redirtiedAt := it.redirtiedAt, redirtiedWithRatelimit := it.redirtiedWithRatelimit,
                 forget := it.forget) == it
  {
    InsertByKey(q, key, ratelimit, delay, now, limiter);
    hide Find, Insert, Sorted, DistinctKeys;
  }
}
