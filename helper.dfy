/**
 * The support structures of the Fortune sweep in api/helper.py: the
 * lazy-deletion priority queue, sweep-line segments and arcs, and the
 * circle-event check on an arc.
 *
 * The queue keeps its entries `[key, count, item]` in a list that `heapq`
 * orders as a binary heap; `entry_finder` maps each queued item to its
 * entry, and removing an item overwrites the item slot of that shared
 * entry with "Removed". Here the list is a sequence of entries whose heap
 * order is abstracted away: `heappop` takes the entry least by key and then
 * by count, and the entry `entry_finder` shares is the one with the count
 * it records (counts are never reused).
 */
module Helper {
  import opened Common

  /** `Point(x, y)`: compared, like every Python object here, by identity. */
  class Point {
    const x: real
    const y: real

    constructor (x: real, y: real)
      ensures this.x == x && this.y == y
    {
      this.x := x;
      this.y := y;
    }
  }

  // ---------------------------------------------------------------------
  // The priority queue, as values
  // ---------------------------------------------------------------------

  /** The item slot of an entry: the item, or the "Removed" marker. */
  datatype Slot<T> = Live(item: T) | Removed

  /** A heap entry `[key, count, item]`. */
  datatype Entry<T> = Entry(key: real, count: nat, slot: Slot<T>)

  /** The queue's three fields: `heap`, `entry_finder` (item to entry count) and the next count. */
  datatype QueueState<T> = QueueState(heap: seq<Entry<T>>, finder: map<T, nat>, counter: nat)

  /** `KeyError(message)`. */
  datatype QueueError = KeyError(message: string)

  /** List comparison on `[key, count, item]`: by key, then by count. */
  predicate NotAfter<T>(a: Entry<T>, b: Entry<T>)
  {
    a.key < b.key || (a.key == b.key && a.count <= b.count)
  }

  predicate DistinctCounts<T>(heap: seq<Entry<T>>)
  {
    forall i, j :: 0 <= i < |heap| && 0 <= j < |heap| && i != j ==> heap[i].count != heap[j].count
  }

  /**
   * What the queue keeps true: counts are distinct and below the counter;
   * every live entry is the one `entry_finder` records for its item, keyed
   * by the item's `x`; and every recorded item has that live entry.
   */
  ghost predicate Inv<T>(q: QueueState<T>, keyOf: T -> real)
  {
    && DistinctCounts(q.heap)
    && (forall e :: e in q.heap ==> e.count < q.counter)
    && (forall e :: e in q.heap && e.slot.Live? ==>
          e.slot.item in q.finder && q.finder[e.slot.item] == e.count && e.key == keyOf(e.slot.item))
    && (forall t :: t in q.finder ==> Entry(keyOf(t), q.finder[t], Live(t)) in q.heap)
  }

  /** The entries that still hold an item. */
  function LiveEntries<T(==)>(heap: seq<Entry<T>>): set<Entry<T>>
  {
    set e | e in heap && e.slot.Live?
  }

  /** The entry `heapq.heappop` takes: one least by key, then count. */
  function LeastIndex<T>(heap: seq<Entry<T>>): (i: nat)
    requires |heap| > 0
    ensures i < |heap| && forall j :: 0 <= j < |heap| ==> NotAfter(heap[i], heap[j])
  {
    if |heap| == 1 then 0
    else
      var k := LeastIndex(heap[1..]) + 1;
      if NotAfter(heap[0], heap[k]) then 0 else k
  }

  /** The heap without its `i`-th entry. */
  function Without<T>(heap: seq<Entry<T>>, i: nat): (r: seq<Entry<T>>)
    requires i < |heap|
    ensures |r| == |heap| - 1
  {
    heap[..i] + heap[i + 1..]
  }

  /** The live entry least by key, then count: the one the next `pop` returns. */
  function LeastLive<T>(heap: seq<Entry<T>>): (r: Option<Entry<T>>)
    ensures r.None? <==> forall e :: e in heap ==> e.slot.Removed?
    ensures r.Some? ==> r.value in heap && r.value.slot.Live?
    ensures r.Some? ==> forall e :: e in heap && e.slot.Live? ==> NotAfter(r.value, e)
  {
    if heap == [] then None
    else
      var rest := LeastLive(heap[1..]);
      assert forall j :: 1 <= j < |heap| ==> heap[j] == heap[1..][j - 1];
      if heap[0].slot.Removed? then rest
      else if rest.None? || NotAfter(heap[0], rest.value) then Some(heap[0])
      else rest
  }

  /** With distinct counts, a live entry that is not after any live entry is the least live one. */
  lemma LeastLiveUnique<T>(heap: seq<Entry<T>>, i: nat)
    requires DistinctCounts(heap) && i < |heap| && heap[i].slot.Live?
    requires forall e :: e in heap && e.slot.Live? ==> NotAfter(heap[i], e)
    ensures LeastLive(heap) == Some(heap[i])
  {
    var m := LeastLive(heap).value;
    var k :| 0 <= k < |heap| && heap[k] == m;
    assert NotAfter(heap[i], heap[k]) && NotAfter(heap[k], heap[i]);
    assert heap[i].count == heap[k].count;
  }

  /** Dropping the `i`-th entry keeps the others and their distinct counts. */
  lemma WithoutFacts<T>(heap: seq<Entry<T>>, i: nat)
    requires DistinctCounts(heap) && i < |heap|
    ensures DistinctCounts(Without(heap, i))
    ensures forall j :: 0 <= j < |heap| && j != i ==> heap[j] in Without(heap, i)
    ensures forall e :: e in Without(heap, i) <==> e in heap && e != heap[i]
  {
    var r := Without(heap, i);
    assert forall j :: 0 <= j < i ==> r[j] == heap[j];
    assert forall j :: i <= j < |r| ==> r[j] == heap[j + 1];
    forall j | 0 <= j < |heap| && j != i
      ensures heap[j] in r
    {
      if j < i { assert r[j] == heap[j]; } else { assert r[j - 1] == heap[j]; }
    }
    forall e | e in r
      ensures e in heap && e != heap[i]
    {
      var k :| 0 <= k < |r| && r[k] == e;
      if k < i {
        assert e == heap[k] && heap[k].count != heap[i].count;
      } else {
        assert e == heap[k + 1] && heap[k + 1].count != heap[i].count;
      }
    }
  }

  /** `push`: nothing when the item is queued; otherwise one live entry with the next count. */
  function Pushed<T(==)>(q: QueueState<T>, keyOf: T -> real, item: T): QueueState<T>
  {
    if item in q.finder then q
    else QueueState(q.heap + [Entry(keyOf(item), q.counter, Live(item))], q.finder[item := q.counter], q.counter + 1)
  }

  /** Overwrite the item slot of the entry with count `count`: the entry `entry_finder` shares. */
  function MarkRemoved<T>(heap: seq<Entry<T>>, count: nat): (r: seq<Entry<T>>)
    ensures |r| == |heap|
  {
    seq(|heap|, i requires 0 <= i < |heap| => if heap[i].count == count then heap[i].(slot := Removed) else heap[i])
  }

  /** `remove_entry`: forget the item and mark its entry; nothing when it is not queued. */
  function RemovedEntry<T(==)>(q: QueueState<T>, item: T): QueueState<T>
  {
    if item in q.finder then QueueState(MarkRemoved(q.heap, q.finder[item]), q.finder - {item}, q.counter)
    else q
  }

  /**
   * `pop`: take least entries off the heap until a live one comes; return
   * its item and forget it. An exhausted heap raises `KeyError`.
   */
  function Popped<T(==)>(q: QueueState<T>): (Result<T, QueueError>, QueueState<T>)
    decreases |q.heap|
  {
    if q.heap == [] then (Err(KeyError("pop from an empty priority queue")), q)
    else
      var i := LeastIndex(q.heap);
      var e := q.heap[i];
      var rest := Without(q.heap, i);
      if e.slot.Live? then (Ok(e.slot.item), QueueState(rest, q.finder - {e.slot.item}, q.counter))
      else Popped(QueueState(rest, q.finder, q.counter))
  }

  /** `top`: `pop`, then push the item back under a new count. */
  function Topped<T(==)>(q: QueueState<T>, keyOf: T -> real): (Result<T, QueueError>, QueueState<T>)
  {
    match Popped(q)
    case (Ok(item), after) => (Ok(item), Pushed(after, keyOf, item))
    case (Err(_), after) => (Err(KeyError("top from an empty priority queue")), after)
  }

  /**
   * `push` keeps the invariant and queues the item. A queued item changes
   * nothing; a new one gets a live entry whose count exceeds every count
   * in the heap.
   */
  lemma PushedSpec<T>(q: QueueState<T>, keyOf: T -> real, item: T)
    requires Inv(q, keyOf)
    ensures Inv(Pushed(q, keyOf, item), keyOf)
    ensures Pushed(q, keyOf, item).finder.Keys == q.finder.Keys + {item}
    ensures item in q.finder ==> Pushed(q, keyOf, item) == q
    ensures item !in q.finder ==>
              && Pushed(q, keyOf, item).heap == q.heap + [Entry(keyOf(item), q.counter, Live(item))]
              && Pushed(q, keyOf, item).counter == q.counter + 1
              && forall j :: 0 <= j < |q.heap| ==> q.heap[j].count < q.counter
  {
    if item !in q.finder {
      var p := Pushed(q, keyOf, item);
      var e := Entry(keyOf(item), q.counter, Live(item));
      assert forall f :: f in p.heap <==> f in q.heap || f == e;
      assert forall j :: 0 <= j < |q.heap| ==> q.heap[j] in q.heap;
      forall t | t in p.finder
        ensures Entry(keyOf(t), p.finder[t], Live(t)) in p.heap
      {
        if t != item {
          assert Entry(keyOf(t), q.finder[t], Live(t)) in q.heap;
        }
      }
    }
  }

  /** The entry holding a queued item is the only one with its count. */
  lemma EntryOfItem<T>(q: QueueState<T>, keyOf: T -> real, t: T, k: nat)
    requires Inv(q, keyOf) && t in q.finder && k < |q.heap| && q.heap[k].count == q.finder[t]
    ensures q.heap[k] == Entry(keyOf(t), q.finder[t], Live(t))
  {
    var m :| 0 <= m < |q.heap| && q.heap[m] == Entry(keyOf(t), q.finder[t], Live(t));
    assert q.heap[m].count == q.heap[k].count;
  }

  /**
   * `remove_entry` keeps the invariant and forgets the item: no live entry
   * holds it any more, so no `pop` returns it until it is pushed again, and
   * pushing it again adds an entry.
   */
  lemma RemovedEntrySpec<T>(q: QueueState<T>, keyOf: T -> real, item: T)
    requires Inv(q, keyOf)
    ensures Inv(RemovedEntry(q, item), keyOf)
    ensures RemovedEntry(q, item).finder.Keys == q.finder.Keys - {item}
    ensures item !in q.finder ==> RemovedEntry(q, item) == q
    ensures forall e :: e in RemovedEntry(q, item).heap && e.slot.Live? ==> e.slot.item != item
    ensures |Pushed(RemovedEntry(q, item), keyOf, item).heap| == |q.heap| + 1
  {
    if item in q.finder {
      var c := q.finder[item];
      var r := RemovedEntry(q, item);
      assert forall k :: 0 <= k < |r.heap| ==> r.heap[k].count == q.heap[k].count;
      assert DistinctCounts(r.heap);
      forall e | e in r.heap
        ensures e.count < q.counter
        ensures e.slot.Live? ==> e.slot.item != item && e.slot.item in r.finder
                                 && r.finder[e.slot.item] == e.count && e.key == keyOf(e.slot.item)
      {
        var k :| 0 <= k < |r.heap| && r.heap[k] == e;
        assert q.heap[k] in q.heap;
        if e.slot.Live? {
          assert r.heap[k] == q.heap[k];
        }
      }
      forall t | t in r.finder
        ensures Entry(keyOf(t), r.finder[t], Live(t)) in r.heap
      {
        var k :| 0 <= k < |q.heap| && q.heap[k] == Entry(keyOf(t), q.finder[t], Live(t));
        assert r.heap[k] == q.heap[k];
      }
    }
  }

  /** Dropping the least entry keeps the invariant, forgetting its item when it is live. */
  lemma InvWithout<T>(q: QueueState<T>, keyOf: T -> real, i: nat)
    requires Inv(q, keyOf) && i < |q.heap|
    ensures var e := q.heap[i];
            var finder := if e.slot.Live? then q.finder - {e.slot.item} else q.finder;
            Inv(QueueState(Without(q.heap, i), finder, q.counter), keyOf)
  {
    var e := q.heap[i];
    var finder := if e.slot.Live? then q.finder - {e.slot.item} else q.finder;
    var rest := Without(q.heap, i);
    WithoutFacts(q.heap, i);
    forall t | t in finder
      ensures Entry(keyOf(t), finder[t], Live(t)) in rest
    {
      assert Entry(keyOf(t), q.finder[t], Live(t)) in q.heap;
    }
  }

  /** A live least entry is taken, forgetting its item, with the invariant kept. */
  lemma PopLive<T>(q: QueueState<T>, keyOf: T -> real)
    requires Inv(q, keyOf) && q.heap != [] && q.heap[LeastIndex(q.heap)].slot.Live?
    ensures var e := q.heap[LeastIndex(q.heap)];
            var after := QueueState(Without(q.heap, LeastIndex(q.heap)), q.finder - {e.slot.item}, q.counter);
            && LeastLive(q.heap) == Some(e)
            && Inv(after, keyOf)
            && LiveEntries(after.heap) == LiveEntries(q.heap) - {e}
  {
    var i := LeastIndex(q.heap);
    LeastLiveUnique(q.heap, i);
    WithoutFacts(q.heap, i);
    InvWithout(q, keyOf, i);
  }

  /** A removed least entry is dropped without changing the queue's contents or its invariant. */
  lemma PopRemoved<T>(q: QueueState<T>, keyOf: T -> real)
    requires Inv(q, keyOf) && q.heap != [] && q.heap[LeastIndex(q.heap)].slot.Removed?
    ensures var after := QueueState(Without(q.heap, LeastIndex(q.heap)), q.finder, q.counter);
            && LeastLive(after.heap) == LeastLive(q.heap)
            && Inv(after, keyOf)
            && LiveEntries(after.heap) == LiveEntries(q.heap)
  {
    var i := LeastIndex(q.heap);
    DropRemoved(q.heap, i);
    InvWithout(q, keyOf, i);
  }

  /** Dropping a removed entry keeps the live entries and the least of them. */
  lemma DropRemoved<T>(heap: seq<Entry<T>>, i: nat)
    requires DistinctCounts(heap) && i < |heap| && heap[i].slot.Removed?
    ensures LeastLive(Without(heap, i)) == LeastLive(heap)
    ensures LiveEntries(Without(heap, i)) == LiveEntries(heap)
  {
    var rest := Without(heap, i);
    WithoutFacts(heap, i);
    SameLive(heap, rest);
    if LeastLive(heap).Some? {
      var m := LeastLive(heap).value;
      var k :| 0 <= k < |rest| && rest[k] == m;
      LeastLiveUnique(rest, k);
    } else {
      assert forall e :: e in rest ==> e.slot.Removed?;
    }
  }

  /** Two heaps with the same live entries. */
  lemma SameLive<T>(a: seq<Entry<T>>, b: seq<Entry<T>>)
    requires forall e: Entry<T> :: e.slot.Live? ==> (e in a <==> e in b)
    ensures LiveEntries(a) == LiveEntries(b)
  {
  }

  /**
   * `pop` returns the item of the least live entry (by `x`, then by push
   * order) and forgets it, keeping every other live entry; with no live
   * entry it raises `KeyError` and leaves an empty heap.
   */
  lemma {:induction false} PoppedSpec<T>(q: QueueState<T>, keyOf: T -> real)
    requires Inv(q, keyOf)
    ensures Inv(Popped(q).1, keyOf) && Popped(q).1.counter == q.counter
    ensures Popped(q).0.Err? <==> LeastLive(q.heap).None?
    ensures Popped(q).0.Err? ==>
              && Popped(q).0.error == KeyError("pop from an empty priority queue")
              && Popped(q).1 == QueueState([], q.finder, q.counter) && q.finder == map[]
    ensures Popped(q).0.Ok? ==>
              var e := LeastLive(q.heap).value;
              && Popped(q).0.value == e.slot.item
              && Popped(q).1.finder == q.finder - {e.slot.item}
              && e.slot.item in q.finder
              && LiveEntries(Popped(q).1.heap) == LiveEntries(q.heap) - {e}
    decreases |q.heap|
  {
    if q.heap != [] {
      var i := LeastIndex(q.heap);
      if q.heap[i].slot.Live? {
        PopLive(q, keyOf);
      } else {
        PopRemoved(q, keyOf);
        PoppedSpec(QueueState(Without(q.heap, i), q.finder, q.counter), keyOf);
      }
    }
  }

  /**
   * `top` returns what `pop` would and keeps the same items queued: the
   * item's entry is replaced by one with the next count, behind every
   * entry of equal key. An empty queue raises `KeyError`.
   */
  lemma ToppedSpec<T>(q: QueueState<T>, keyOf: T -> real)
    requires Inv(q, keyOf)
    ensures Inv(Topped(q, keyOf).1, keyOf)
    ensures Topped(q, keyOf).0.Ok? <==> Popped(q).0.Ok?
    ensures Topped(q, keyOf).0.Ok? ==> Topped(q, keyOf).0.value == Popped(q).0.value
    ensures Topped(q, keyOf).0.Err? ==> Topped(q, keyOf).0.error == KeyError("top from an empty priority queue")
    ensures Topped(q, keyOf).1.finder.Keys == q.finder.Keys
    ensures Topped(q, keyOf).0.Ok? ==>
              var item := Topped(q, keyOf).0.value;
              && Topped(q, keyOf).1.finder[item] == q.counter
              && (forall j :: 0 <= j < |q.heap| ==> q.heap[j].count < q.counter)
              && Entry(keyOf(item), q.counter, Live(item)) in Topped(q, keyOf).1.heap
  {
    PoppedSpec(q, keyOf);
    var (r, after) := Popped(q);
    if r.Ok? {
      PushedSpec(after, keyOf, r.value);
      var p := Pushed(after, keyOf, r.value);
      assert p.heap[|after.heap|] == Entry(keyOf(r.value), q.counter, Live(r.value));
    }
  }

  /** With the invariant, no live entry remains exactly when no item is queued. */
  lemma NoLiveIffNoItems<T>(q: QueueState<T>, keyOf: T -> real)
    requires Inv(q, keyOf)
    ensures LeastLive(q.heap).None? <==> q.finder == map[]
  {
    if q.finder != map[] {
      var t :| t in q.finder;
      assert Entry(keyOf(t), q.finder[t], Live(t)) in q.heap;
    }
    if LeastLive(q.heap).Some? {
      var e := LeastLive(q.heap).value;
      var k :| 0 <= k < |q.heap| && q.heap[k] == e;
      assert e.slot.item in q.finder;
    }
  }

  /** `PriorityQueue`: the three fields, with `keyOf` reading an item's `x`. */
  class PriorityQueue<T(==)> {
    const keyOf: T -> real
    var heap: seq<Entry<T>>
    var entryFinder: map<T, nat>
    var counter: nat

    function State(): QueueState<T>
      reads this
    {
      QueueState(heap, entryFinder, counter)
    }

    ghost predicate Valid()
      reads this
    {
      Inv(State(), keyOf)
    }

    constructor (keyOf: T -> real)
      ensures Valid() && this.keyOf == keyOf
      ensures heap == [] && entryFinder == map[] && counter == 0
    {
      this.keyOf := keyOf;
      heap := [];
      entryFinder := map[];
      counter := 0;
    }

    method Push(item: T)
      requires Valid()
      modifies this`heap, this`entryFinder, this`counter
      ensures Valid() && State() == Pushed(old(State()), keyOf, item)
    {
      PushedSpec(State(), keyOf, item);
      if item in entryFinder {
        return;
      }
      var count := counter;
      counter := counter + 1;
      var entry := Entry(keyOf(item), count, Live(item));
      entryFinder := entryFinder[item := count];
      heap := heap + [entry];
    }

    method RemoveEntry(item: T)
      requires Valid()
      modifies this`heap, this`entryFinder
      ensures Valid() && State() == RemovedEntry(old(State()), item)
    {
      RemovedEntrySpec(State(), keyOf, item);
      if item in entryFinder {
        var count := entryFinder[item];
        entryFinder := entryFinder - {item};
        heap := MarkRemoved(heap, count);
      }
    }

    method Pop() returns (r: Result<T, QueueError>)
      requires Valid()
      modifies this`heap, this`entryFinder
      ensures Valid() && (r, State()) == Popped(old(State()))
    {
      PoppedSpec(State(), keyOf);
      while heap != []
        invariant counter == old(counter) && Popped(State()) == Popped(old(State()))
        decreases |heap|
      {
        var i := LeastIndex(heap);
        var entry := heap[i];
        heap := heap[..i] + heap[i + 1..];
        if entry.slot.Live? {
          entryFinder := entryFinder - {entry.slot.item};
          return Ok(entry.slot.item);
        }
      }
      r := Err(KeyError("pop from an empty priority queue"));
    }

    method Top() returns (r: Result<T, QueueError>)
      requires Valid()
      modifies this`heap, this`entryFinder, this`counter
      ensures Valid() && (r, State()) == Topped(old(State()), keyOf)
    {
      PoppedSpec(State(), keyOf);
      while heap != []
        invariant counter == old(counter) && Popped(State()) == Popped(old(State()))
        decreases |heap|
      {
        var i := LeastIndex(heap);
        var entry := heap[i];
        heap := heap[..i] + heap[i + 1..];
        if entry.slot.Live? {
          entryFinder := entryFinder - {entry.slot.item};
          Push(entry.slot.item);
          return Ok(entry.slot.item);
        }
      }
      r := Err(KeyError("top from an empty priority queue"));
    }

    /** True when every entry is marked removed: exactly when `pop` would raise, and when no item is queued. */
    function Empty(): (e: bool)
      reads this
      ensures e <==> LeastLive(heap).None?
      ensures Valid() ==> (e <==> entryFinder == map[])
    {
      NoLiveIffNoItemsWhenValid();
      forall j | 0 <= j < |heap| :: heap[j].slot.Removed?
    }

    lemma NoLiveIffNoItemsWhenValid()
      ensures Valid() ==> (LeastLive(heap).None? <==> entryFinder == map[])
    {
      if Valid() {
        NoLiveIffNoItems(State(), keyOf);
      }
    }
  }

  // ---------------------------------------------------------------------
  // Sweep-line objects
  // ---------------------------------------------------------------------

  /** `Segment(start)`: an edge whose end is fixed by the first `finish`. */
  class Segment {
    const start: Point
    var end: Point?
    var done: bool

    constructor (start: Point)
      ensures this.start == start && end == null && !done
    {
      this.start := start;
      end := null;
      done := false;
    }

    method Finish(p: Point)
      modifies this`end, this`done
      ensures (end, done) == Finished(old(end), old(done), p)
    {
      if !done {
        end := p;
        done := true;
      }
    }
  }

  /** `finish(p)` on a segment with `end` and `done`: the first call wins. */
  function Finished(end: Point?, done: bool, p: Point): (Point?, bool)
  {
    if done then (end, done) else (p, true)
  }

  /** After a `finish`, the segment is done, and further calls change nothing. */
  lemma FinishFirstWins(end: Point?, done: bool, p: Point, q: Point)
    ensures Finished(end, done, p).1
    ensures !done ==> Finished(end, done, p).0 == p
    ensures done ==> Finished(end, done, p) == (end, done)
    ensures Finished(Finished(end, done, p).0, Finished(end, done, p).1, q) == Finished(end, done, p)
  {
  }

  /** `Arc(point, prev, next)`: a beach-line arc with its neighbours. */
  class Arc {
    const point: Point
    var prev: Arc?
    var next: Arc?
    var event: Event?
    var leftSegment: Segment?
    var rightSegment: Segment?

    constructor (point: Point, prev: Arc?, next: Arc?)
      ensures this.point == point && this.prev == prev && this.next == next
      ensures event == null && leftSegment == null && rightSegment == null
    {
      this.point := point;
      this.prev := prev;
      this.next := next;
      event := null;
      leftSegment := null;
      rightSegment := null;
    }
  }

  /** `Event(x, point, arc)`: a circle event at sweep position `x`, valid until invalidated. */
  class Event {
    const x: real
    const point: Point
    const arc: Arc
    var valid: bool

    constructor (x: real, point: Point, arc: Arc)
      ensures this.x == x && this.point == point && this.arc == arc && valid
    {
      this.x := x;
      this.point := point;
      this.arc := arc;
      valid := true;
    }
  }

  /**
   * What `circle(a, b, c)` answers: no circle (a right turn, or collinear
   * points), or the circle's rightmost `x` and its centre.
   */
  datatype CircleResult = NoCircle | Circle(x: real, ox: real, oy: real)

  /**
   * `check_circle_event(arc, min_x, event_queue_circles)`. `circle` is the
   * geometric test, taken as given. An event of the arc not at `minX` is
   * invalidated; the arc's event is then dropped and, when the arc has both
   * neighbours and they make a circle to the right of `minX`, replaced by a
   * new event that is pushed on the queue.
   */
  method CheckCircleEvent(arc: Arc, minX: real, queue: PriorityQueue<Event>,
                          circle: (Point, Point, Point) -> CircleResult)
    requires queue.Valid() && forall e: Event :: queue.keyOf(e) == e.x
    modifies arc`event, arc.event, queue`heap, queue`entryFinder, queue`counter
    ensures queue.Valid()
    ensures old(arc.event) != null ==> old(arc.event).valid == (old(arc.event.valid) && old(arc.event).x == minX)
    ensures arc.event == null || (fresh(arc.event) && arc.event.x > minX && arc.event.valid && arc.event.arc == arc)
    ensures arc.prev == null || arc.next == null ==> arc.event == null && queue.State() == old(queue.State())
    ensures arc.prev != null && arc.next != null ==>
              var c := circle(arc.prev.point, arc.point, arc.next.point);
              if c.Circle? && c.x > minX then
                && arc.event != null && arc.event.x == c.x
                && arc.event.point.x == c.ox && arc.event.point.y == c.oy
                && queue.State() == Pushed(old(queue.State()), queue.keyOf, arc.event)
              else arc.event == null && queue.State() == old(queue.State())
  {
    if arc.event != null && arc.event.x != minX {
      arc.event.valid := false;
    }
    arc.event := null;
    if arc.prev == null || arc.next == null {
      return;
    }
    var c := circle(arc.prev.point, arc.point, arc.next.point);
    if c.Circle? && c.x > minX {
      var lowest := new Point(c.ox, c.oy);
      var event := new Event(c.x, lowest, arc);
      arc.event := event;
      queue.Push(event);
    }
  }
}
