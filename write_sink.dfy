/**
 * The growable in-memory sink that the in-memory encoders hand to the codec
 * as a write callback (native/src/raster_ffi.c:188-205).
 *
 * The first half is the sink as a value: its contents and its capacity, how
 * one append changes them, and what any sequence of appends starting from the
 * empty sink leads to. The second half is the sink as the source has it: a
 * context object whose buffer, size and capacity the callback updates in
 * place, proved to follow the value-level description.
 */
module WriteSink {
  import opened Common
  import opened Memory

  /** The capacity of the first allocation. */
  const InitialCapacity: nat := 4096

  /** Capacities reachable by growth: 4096, then repeated doubling of it. */
  predicate IsGrownCapacity(c: nat)
    decreases c
  {
    c == InitialCapacity || (c > InitialCapacity && c % 2 == 0 && IsGrownCapacity(c / 2))
  }

  function Pow2(k: nat): (r: nat)
    ensures r >= 1
  {
    if k == 0 then 1 else 2 * Pow2(k - 1)
  }

  /** Every grown capacity is 4096 times a power of two ... */
  lemma {:induction false} GrownCapacityIsPowerMultiple(c: nat)
    requires IsGrownCapacity(c)
    ensures exists k: nat :: c == InitialCapacity * Pow2(k)
    decreases c
  {
    if c == InitialCapacity {
      assert c == InitialCapacity * Pow2(0);
    } else {
      GrownCapacityIsPowerMultiple(c / 2);
      var k: nat :| c / 2 == InitialCapacity * Pow2(k);
      assert c == InitialCapacity * Pow2(k + 1);
    }
  }

  /** ... and every such multiple is a grown capacity. */
  lemma {:induction false} PowerMultipleIsGrownCapacity(k: nat)
    ensures IsGrownCapacity(InitialCapacity * Pow2(k))
  {
    if k > 0 {
      PowerMultipleIsGrownCapacity(k - 1);
      var c := InitialCapacity * Pow2(k - 1);
      assert InitialCapacity * Pow2(k) == 2 * c;
      assert (2 * c) / 2 == c;
    }
  }

  /**
   * The callback's first growth step: 4096 for a context without a buffer,
   * otherwise twice the capacity. It always grows, and it keeps the capacity
   * of the form 4096 * 2^k.
   */
  function FirstGrowth(c: nat): (r: nat)
    ensures r > c && r > 0
    ensures (c == 0 || IsGrownCapacity(c)) ==> IsGrownCapacity(r)
  {
    assert (2 * c) / 2 == c;
    if c == 0 then InitialCapacity else 2 * c
  }

  /**
   * The doubling loop of the callback: starting from `c`, double until the
   * capacity covers `needed`. The result is the least c * 2^k that is at
   * least `needed`.
   */
  function Grow(c: nat, needed: nat): (r: nat)
    requires c > 0
    ensures r >= needed && r >= c
    ensures r == c || r < 2 * needed
    ensures IsGrownCapacity(c) ==> IsGrownCapacity(r)
    decreases needed - c
  {
    if c >= needed then c else Grow(2 * c, needed)
  }

  /** The sink as a value: the bytes written so far and the allocated capacity. */
  datatype SinkState = SinkState(contents: seq<uint8>, capacity: nat)

  /** The context the encoders start from: no buffer, size 0, capacity 0. */
  const Empty := SinkState([], 0)

  /**
   * What every reachable sink satisfies: the bytes fit the capacity, the
   * capacity is 0 or a grown capacity, and a buffer exists exactly when some
   * byte has been written.
   */
  predicate SinkInvariant(s: SinkState)
  {
    && |s.contents| <= s.capacity
    && (s.capacity == 0 || IsGrownCapacity(s.capacity))
    && (s.capacity == 0 <==> s.contents == [])
  }

  /** One call of the write callback with `data`. */
  function Appended(s: SinkState, data: seq<uint8>): (r: SinkState)
    ensures r.contents == s.contents + data
    ensures |s.contents| + |data| <= s.capacity ==> r.capacity == s.capacity
    ensures |s.contents| + |data| > s.capacity ==>
      && r.capacity >= |r.contents|
      && (r.capacity == (if s.capacity == 0 then InitialCapacity else 2 * s.capacity)
          || r.capacity < 2 * |r.contents|)
    ensures SinkInvariant(s) ==> SinkInvariant(r)
  {
    var needed := |s.contents| + |data|;
    if needed > s.capacity then
      SinkState(s.contents + data,
                Grow(FirstGrowth(s.capacity), needed))
    else
      SinkState(s.contents + data, s.capacity)
  }

  /** A sequence of callback calls, in order. */
  function AppendAll(s: SinkState, chunks: seq<seq<uint8>>): SinkState
    decreases |chunks|
  {
    if chunks == [] then s else AppendAll(Appended(s, chunks[0]), chunks[1..])
  }

  lemma {:induction false} AppendAllSnoc(s: SinkState, chunks: seq<seq<uint8>>, chunk: seq<uint8>)
    ensures AppendAll(s, chunks + [chunk]) == Appended(AppendAll(s, chunks), chunk)
    decreases |chunks|
  {
    if chunks == [] {
      assert [chunk][1..] == [];
    } else {
      assert (chunks + [chunk])[1..] == chunks[1..] + [chunk];
      AppendAllSnoc(Appended(s, chunks[0]), chunks[1..], chunk);
    }
  }

  /** The sink holds the old bytes followed by every chunk, in order. */
  lemma {:induction false} AppendAllContents(s: SinkState, chunks: seq<seq<uint8>>)
    ensures AppendAll(s, chunks).contents == s.contents + Concat(chunks)
    decreases |chunks|
  {
    if chunks != [] {
      AppendAllContents(Appended(s, chunks[0]), chunks[1..]);
    }
  }

  /** Any sequence of appends keeps the sink invariant. */
  lemma {:induction false} AppendAllKeepsInvariant(s: SinkState, chunks: seq<seq<uint8>>)
    requires SinkInvariant(s)
    ensures SinkInvariant(AppendAll(s, chunks))
    decreases |chunks|
  {
    if chunks != [] {
      AppendAllKeepsInvariant(Appended(s, chunks[0]), chunks[1..]);
    }
  }

  /**
   * From the empty context, the capacity is 0 or 4096 * 2^k, it covers the
   * bytes written, and nothing is allocated unless some byte was written.
   */
  lemma EmptySinkAfterAppends(chunks: seq<seq<uint8>>)
    ensures var s := AppendAll(Empty, chunks);
      && s.contents == Concat(chunks)
      && |s.contents| <= s.capacity
      && (s.capacity == 0 <==> Concat(chunks) == [])
      && (s.capacity == 0 || exists k: nat :: s.capacity == InitialCapacity * Pow2(k))
  {
    AppendAllContents(Empty, chunks);
    AppendAllKeepsInvariant(Empty, chunks);
    var s := AppendAll(Empty, chunks);
    if s.capacity != 0 {
      GrownCapacityIsPowerMultiple(s.capacity);
    }
  }

  /**
   * The capacity the callback grows to when `needed` bytes do not fit in
   * `capacity`: 4096 for a context that has none yet, otherwise double it,
   * then keep doubling until `needed` fits.
   */
  method NextCapacity(capacity: nat, needed: nat) returns (newCapacity: nat)
    requires needed > capacity
    ensures newCapacity == Grow(FirstGrowth(capacity), needed)
  {
    newCapacity := if capacity == 0 then InitialCapacity else capacity * 2;
    ghost var first := newCapacity;
    while newCapacity < needed
      invariant newCapacity > 0
      invariant Grow(newCapacity, needed) == Grow(first, needed)
      decreases needed - newCapacity
    {
      newCapacity := newCapacity * 2;
    }
  }

  /** The in-place write context handed to the codec. */
  class WriteContext {
    var buffer: array?<uint8>
    var size: nat
    var capacity: nat

    /** The block this context owns, if it has allocated one. */
    ghost function Owned(): set<object>
      reads this
    {
      if buffer == null then {} else {buffer}
    }

    /** The buffer fields agree: the buffer exists iff capacity > 0, has that length, and is live. */
    ghost predicate Allocated(heap: Heap)
      reads this, heap
    {
      && size <= capacity
      && (buffer == null <==> capacity == 0)
      && (buffer != null ==> buffer.Length == capacity && buffer in heap.live)
    }

    /** The context invariant: the sink invariant on the fields. */
    ghost predicate Valid(heap: Heap)
      reads this, heap
    {
      && Allocated(heap)
      && (capacity == 0 <==> size == 0)
      && (capacity == 0 || IsGrownCapacity(capacity))
    }

    /** The context as a value: the first `size` bytes of its buffer, and its capacity. */
    ghost function State(): (s: SinkState)
      reads this, buffer
      requires size <= capacity && (buffer == null <==> capacity == 0)
      requires buffer != null ==> buffer.Length == capacity
    {
      SinkState(if buffer == null then [] else buffer[..size], capacity)
    }

    /** `WriteContext ctx = {NULL, 0, 0}`. */
    constructor ()
      ensures buffer == null && size == 0 && capacity == 0
    {
      buffer, size, capacity := null, 0, 0;
    }

    /**
     * The growth branch of the callback, taken when `needed` bytes do not
     * fit: reallocate to the grown capacity, keeping the bytes written so far.
     */
    method Reserve(heap: Heap, needed: nat)
      requires Allocated(heap) && needed > capacity
      modifies this, heap
      ensures Allocated(heap) && buffer != null && fresh(buffer)
      ensures size == old(size)
      ensures capacity == Grow(FirstGrowth(old(capacity)), needed)
      ensures buffer[..size] == old(State().contents)
      ensures heap.live - Owned() == old(heap.live - Owned())
    {
      ghost var kept := State().contents;
      var newCapacity := NextCapacity(capacity, needed);
      buffer := heap.Realloc(buffer, newCapacity);
      capacity := newCapacity;
      assert buffer[..size] == kept;
    }

    /**
     * write_callback(ctx, data, |data|): grow the buffer if the bytes do not
     * fit, then copy them in after the existing ones. No block other than the
     * one this context owns is touched.
     */
    method Append(heap: Heap, data: seq<uint8>)
      requires Valid(heap)
      modifies this, heap, buffer
      ensures Valid(heap)
      ensures State() == Appended(old(State()), data)
      ensures size == old(size) + |data|
      ensures old(size) + |data| <= old(capacity) ==> buffer == old(buffer) && capacity == old(capacity)
      ensures buffer == old(buffer) || fresh(buffer)
      ensures heap.live - Owned() == old(heap.live - Owned())
    {
      ghost var before := State();
      var needed := size + |data|;
      if needed > capacity {
        Reserve(heap, needed);
      }
      assert buffer != null ==> buffer[..size] == before.contents;
      CopyIn(heap, buffer, size, data);
      size := size + |data|;
      assert buffer != null ==> buffer[..size] == before.contents + data;
    }
  }
}
