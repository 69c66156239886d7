/** The moving window: a ring buffer that keeps the last entries appended to it. */
module MovingWindow {

  /** `unsigned int` wraps here. */
  const WORD := 0x1_0000_0000

  /** The last `n` entries, or all if there are fewer. */
  function Newest<T>(history: seq<T>, n: nat): seq<T> {
    if |history| <= n then history else history[|history| - n..]
  }

  /** Where iteration starts: the source moves back from the next index by the number of entries. */
  function StartIndex(next: nat, count: nat): nat {
    if count > next then count - (count - next) else next - count
  }

  /** The slot of the entry that an iterator visits after `n` others; the sum is a machine word. */
  function Slot(next: nat, count: nat, capacity: nat, n: nat): nat
    requires capacity > 0
  {
    ((StartIndex(next, count) + n) % WORD) % capacity
  }

  /** What `total` entries appended to a window leave in its two indices. */
  ghost predicate IndicesAfter(total: nat, next: nat, count: nat, capacity: nat) {
    && 0 < capacity < WORD
    && next == total % capacity
    && count == if total < capacity then total else capacity
  }

  lemma Shift(a: nat, b: nat, capacity: nat)
    requires capacity > 0 && a >= capacity
    ensures (a % capacity + b) % capacity == (a - capacity + b) % capacity
  {
    var q, r := a / capacity, a % capacity;
    assert a == q * capacity + r;
    ModAdd(r + b, q - 1, capacity);
    assert (q - 1) * capacity == q * capacity - capacity;
  }

  lemma {:induction false} ModAdd(x: nat, k: nat, m: nat)
    requires m > 0
    ensures (x + k * m) % m == x % m
  {
    if k > 0 {
      ModAdd(x, k - 1, m);
      var y := x + (k - 1) * m;
      assert x + k * m == y + m;
      assert (y + m) / m == y / m + 1 && (y + m) % m == y % m by { ModOne(y, m); }
    }
  }

  lemma ModOne(y: nat, m: nat)
    requires m > 0
    ensures (y + m) / m == y / m + 1 && (y + m) % m == y % m
  {
    var q, r := y / m, y % m;
    assert (q + 1) * m == q * m + m;
    QuotientIs(y + m, q + 1, r, m);
  }

  lemma TimesApart(a: nat, b: nat, m: nat)
    requires a > b
    ensures a * m >= b * m + m
  {
    assert a * m == b * m + (a - b) * m;
    assert (a - b) * m == m + (a - b - 1) * m;
  }

  lemma QuotientIs(x: nat, q: nat, r: nat, m: nat)
    requires m > 0 && r < m && x == q * m + r
    ensures x / m == q && x % m == r
  {
    var q', r' := x / m, x % m;
    assert q' * m + r' == q * m + r;
    if q' > q {
      TimesApart(q', q, m);
    } else if q' < q {
      TimesApart(q, q', m);
    }
  }

  /** The iterator reads the entry `count - n` places before the newest, unless the sum wraps. */
  lemma SlotIsRight(total: nat, next: nat, count: nat, capacity: nat, n: nat)
    requires IndicesAfter(total, next, count, capacity) && n < count && StartIndex(next, count) + n < WORD
    ensures Slot(next, count, capacity, n) == (total - count + n) % capacity
  {
    var x := StartIndex(next, count) + n;
    QuotientIs(x, 0, x, WORD);
    if total < capacity {
      QuotientIs(total, 0, total, capacity);
      assert x == total - count + n;
    } else {
      Shift(total, n, capacity);
      assert x == total % capacity + n;
    }
  }

  /** If it wraps, the iterator reads another slot: the one as far from the start of the buffer as the sum is past the
      word. */
  lemma WrapReadsAnother(total: nat, next: nat, count: nat, capacity: nat, n: nat)
    requires IndicesAfter(total, next, count, capacity) && n < count && StartIndex(next, count) + n >= WORD
    ensures Slot(next, count, capacity, n) == StartIndex(next, count) + n - WORD != (total - count + n) % capacity
  {
    var x := next + n;
    assert total >= capacity && StartIndex(next, count) == next by { NotYetFull(total, next, count, capacity, n); }
    assert next < capacity;
    WrapApart(x, capacity);
    Shift(total, n, capacity);
  }

  /** A window that is not full starts at its first slot. */
  lemma NotYetFull(total: nat, next: nat, count: nat, capacity: nat, n: nat)
    requires IndicesAfter(total, next, count, capacity) && n < count
    ensures total < capacity ==> StartIndex(next, count) + n < WORD
    ensures total >= capacity ==> StartIndex(next, count) == next
  {
    if total < capacity { QuotientIs(total, 0, total, capacity); }
  }

  lemma WrapApart(x: nat, capacity: nat)
    requires capacity < WORD <= x < 2 * capacity
    ensures (x % WORD) % capacity == x - WORD && x % capacity == x - capacity
  {
    QuotientIs(x, 1, x - WORD, WORD);
    QuotientIs(x - WORD, 0, x - WORD, capacity);
    QuotientIs(x, 1, x - capacity, capacity);
  }

  /** The `n`th entry that an iterator visits is the `n`th of the newest ones. */
  ghost predicate ReadsRight(total: nat, next: nat, count: nat, capacity: nat, n: nat)
    requires capacity > 0 && count <= total
  {
    Slot(next, count, capacity, n) == (total - count + n) % capacity
  }

  ghost predicate AlwaysReadsRight(capacity: nat)
    requires capacity > 0
  {
    forall total: nat, next: nat, count: nat, n: nat ::
      IndicesAfter(total, next, count, capacity) && n < count ==> ReadsRight(total, next, count, capacity, n)
  }

  /** Every rotation of a window is read correctly if and only if it has at most 2^31 slots. */
  lemma RightExactlyUpToHalfAWord(capacity: nat)
    requires 0 < capacity < WORD
    ensures AlwaysReadsRight(capacity) <==> capacity <= WORD / 2
  {
    if capacity <= WORD / 2 {
      forall total: nat, next: nat, count: nat, n: nat | IndicesAfter(total, next, count, capacity) && n < count
        ensures ReadsRight(total, next, count, capacity, n)
      {
        SlotIsRight(total, next, count, capacity, n);
      }
    } else {
      var total, last := 2 * capacity - 1, capacity - 1;
      QuotientIs(total, 1, last, capacity);
      assert IndicesAfter(total, last, capacity, capacity);
      QuotientIs(last + last, 1, capacity - 2, capacity);
      QuotientIs(last + last - WORD, 0, last + last - WORD, capacity);
      QuotientIs(last + last, 1, last + last - WORD, WORD);
      assert !ReadsRight(total, last, capacity, capacity, last);
    }
  }

  class Iterator<T> {
    var numberOfIterations: nat
    var current: T

    constructor (blank: T)
      ensures numberOfIterations == 0
    {
      numberOfIterations, current := 0, blank;
    }
  }

  class Window<T> {
    const data: array<T>
    var nextWindowIndex: nat
    var entryCount: nat
    ghost var history: seq<T>

    ghost predicate Valid()
      reads this, data
    {
      && IndicesAfter(|history|, nextWindowIndex, entryCount, data.Length)
      && forall k {:trigger history[k]} | |history| - entryCount <= k < |history| ::
        data[k % data.Length] == history[k]
    }

    constructor (capacity: nat, blank: T)
      requires 0 < capacity < WORD
      ensures Valid() && fresh(data) && data.Length == capacity && history == []
    {
      data := new T[capacity](_ => blank);
      nextWindowIndex, entryCount, history := 0, 0, [];
    }

    method Append(entry: T)
      requires Valid()
      modifies this, data
      ensures Valid() && history == old(history) + [entry]
    {
      data[nextWindowIndex] := entry;
      NextIndex(|history|, data.Length);
      nextWindowIndex := ((nextWindowIndex + 1) % WORD) % data.Length;
      if entryCount < data.Length {
        entryCount := entryCount + 1;
      }
      history := history + [entry];
      forall k | |history| - entryCount <= k < |history| ensures data[k % data.Length] == history[k] {
        if k < |history| - 1 { SlotsDiffer(k, |history| - 1, data.Length); }
      }
    }

    /** `moving_window_next`. */
    method Next(it: Iterator<T>) returns (more: bool)
      requires Valid() && it.numberOfIterations <= entryCount
      modifies it
      ensures more <==> old(it.numberOfIterations) < |Newest(history, data.Length)|
      ensures it.numberOfIterations == old(it.numberOfIterations) + if more then 1 else 0
      ensures !more ==> it.current == old(it.current)
      ensures more ==>
        it.current == data[Slot(nextWindowIndex, entryCount, data.Length, old(it.numberOfIterations))]
      ensures more && data.Length <= WORD / 2
        ==> it.current == Newest(history, data.Length)[old(it.numberOfIterations)]
    {
      if it.numberOfIterations == entryCount {
        return false;
      }
      var startIndex := if entryCount > nextWindowIndex
        then entryCount - (entryCount - nextWindowIndex)
        else nextWindowIndex - entryCount;
      it.current := data[((startIndex + it.numberOfIterations) % WORD) % data.Length];
      if data.Length <= WORD / 2 {
        SlotIsRight(|history|, nextWindowIndex, entryCount, data.Length, it.numberOfIterations);
      }
      it.numberOfIterations := it.numberOfIterations + 1;
      return true;
    }

    /** A fresh iterator yields as many entries as there are, from the slots that `Slot` says, and then stops. Up to
        2^31 slots those are exactly the newest entries, oldest first. */
    method Entries(blank: T) returns (entries: seq<T>)
      requires Valid()
      ensures |entries| == |Newest(history, data.Length)|
      ensures forall n | 0 <= n < |entries| :: entries[n] == data[Slot(nextWindowIndex, entryCount, data.Length, n)]
      ensures data.Length <= WORD / 2 ==> entries == Newest(history, data.Length)
    {
      var it := new Iterator<T>(blank);
      entries := [];
      var more := Next(it);
      while more
        invariant fresh(it) && it.numberOfIterations == |entries| + if more then 1 else 0
        invariant |entries| + (if more then 1 else 0) <= entryCount && (!more ==> |entries| == entryCount)
        invariant more ==> it.current == data[Slot(nextWindowIndex, entryCount, data.Length, |entries|)]
        invariant forall n | 0 <= n < |entries| :: entries[n] == data[Slot(nextWindowIndex, entryCount, data.Length, n)]
        decreases entryCount - |entries|
      {
        entries := entries + [it.current];
        more := Next(it);
      }
      if data.Length <= WORD / 2 {
        forall n | 0 <= n < |entries| ensures entries[n] == Newest(history, data.Length)[n] {
          SlotIsRight(|history|, nextWindowIndex, entryCount, data.Length, n);
        }
      }
    }
  }

  lemma NextIndex(total: nat, capacity: nat)
    requires 0 < capacity < WORD
    ensures ((total % capacity + 1) % WORD) % capacity == (total + 1) % capacity
  {
    var q, r := total / capacity, total % capacity;
    QuotientIs(r + 1, 0, r + 1, WORD);
    if r + 1 == capacity {
      assert (q + 1) * capacity == q * capacity + capacity;
      QuotientIs(total + 1, q + 1, 0, capacity);
      QuotientIs(r + 1, 1, 0, capacity);
    } else {
      QuotientIs(total + 1, q, r + 1, capacity);
      QuotientIs(r + 1, 0, r + 1, capacity);
    }
  }

  lemma SlotsDiffer(j: nat, k: nat, capacity: nat)
    requires j < k < j + capacity
    ensures j % capacity != k % capacity
  {
    var p, q := j / capacity, k / capacity;
    if j % capacity == k % capacity {
      if q > p { TimesApart(q, p, capacity); } else if p > q { TimesApart(p, q, capacity); }
    }
  }
}
