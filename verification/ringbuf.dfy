/**
 * A bounded FIFO with the semantics of the ring buffer (`HeapRb`) that the
 * capture pipeline uses for its pre-buffer, its utterance buffer and its
 * frame-assembly buffer.  Only the observable behaviour is modelled: the
 * occupied samples in order and the fixed capacity.  `push_slice` copies as
 * many elements as fit, from the front of the slice; `pop_slice` removes as
 * many as were asked for, or all there are; `try_push` refuses a new element
 * when the buffer is full.
 */
module RingBuf {

  datatype Ring<T> = Ring(items: seq<T>, capacity: nat) {

    /** The capacity is positive, as `HeapRb::new` demands, and the occupied length never exceeds it. */
    predicate Valid() {
      0 < capacity && |items| <= capacity
    }

    function OccupiedLen(): nat {
      |items|
    }

    function VacantLen(): nat
      requires Valid()
    {
      capacity - |items|
    }

    /** Appends the longest prefix of `s` that fits and says how long it was. */
    function PushSlice(s: seq<T>): (r: (Ring<T>, nat))
      requires Valid()
      ensures r.0.Valid() && r.0.capacity == capacity
      ensures r.1 == if |s| <= VacantLen() then |s| else VacantLen()
      ensures r.0.items == items + s[..r.1]
    {
      var n := if |s| <= capacity - |items| then |s| else capacity - |items|;
      (Ring(items + s[..n], capacity), n)
    }

    /** Removes up to `n` elements from the front and returns them in order. */
    function PopSlice(n: nat): (r: (Ring<T>, seq<T>))
      requires Valid()
      ensures r.0.Valid() && r.0.capacity == capacity
      ensures |r.1| == if n <= |items| then n else |items|
      ensures r.1 + r.0.items == items
    {
      var k := if n <= |items| then n else |items|;
      (Ring(items[k..], capacity), items[..k])
    }

    /** Appends `x` when there is room; a full buffer is left as it was. */
    function TryPush(x: T): (r: (Ring<T>, bool))
      requires Valid()
      ensures r.0.Valid() && r.0.capacity == capacity
      ensures r.1 <==> |items| < capacity
      ensures r.0.items == if r.1 then items + [x] else items
    {
      if |items| < capacity then (Ring(items + [x], capacity), true)
      else (this, false)
    }

    function Clear(): (r: Ring<T>)
      requires Valid()
      ensures r.Valid() && r.capacity == capacity && r.items == []
    {
      Empty(capacity)
    }
  }

  /** A new buffer, as `HeapRb::new`, which panics on a zero capacity. */
  function Empty<T>(capacity: nat): (r: Ring<T>)
    requires 0 < capacity
    ensures r.Valid() && r.items == [] && r.capacity == capacity
  {
    Ring([], capacity)
  }

  /** The last `n` elements of `s`, or all of `s` when it is shorter. */
  function LastN<T>(n: nat, s: seq<T>): (r: seq<T>)
    ensures |r| == if n <= |s| then n else |s|
    ensures r == s[|s| - |r|..]
  {
    if n <= |s| then s[|s| - n..] else s
  }

  /** Keeping the last `n` twice is keeping the last `n` of everything. */
  lemma LastNAppend<T>(n: nat, a: seq<T>, b: seq<T>)
    ensures LastN(n, LastN(n, a) + b) == LastN(n, a + b)
  {
    if n <= |a| {
      var k := |a| - n;
      assert a + b == a[..k] + (a[k..] + b);
      assert LastN(n, a + b) == (a[k..] + b)[|b|..];
    }
  }
}
