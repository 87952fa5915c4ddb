/**
 * Heap blocks owned during one boundary call. Both kinds of allocation the
 * layer makes are tracked here: native blocks (malloc/realloc/free, and the
 * buffers the stb codecs return) and host byte arrays (allocated with the
 * host's array allocator and released by dropping their only reference).
 * `live` is the set of blocks currently allocated and not yet released;
 * releasing a block that is not live is a double free and is refused by
 * Free's precondition.
 */
module Memory {
  import opened Common

  class Heap {
    ghost var live: set<object>

    /** Allocate a block of `n` bytes (contents unspecified). */
    method Alloc(n: nat) returns (a: array<uint8>)
      modifies this
      ensures fresh(a) && a.Length == n
      ensures live == old(live) + {a}
    {
      a := new uint8[n];
      live := live + {a};
    }

    /**
     * realloc(block, n): a fresh block of `n` bytes whose prefix is the old
     * block's contents; the old block (if any) is released. A null block
     * makes this a plain allocation.
     */
    method Realloc(block: array?<uint8>, n: nat) returns (a: array<uint8>)
      requires block != null ==> block in live && block.Length <= n
      modifies this
      ensures fresh(a) && a.Length == n
      ensures block != null ==> a[..block.Length] == block[..]
      ensures live == old(live) - (if block == null then {} else {block}) + {a}
    {
      a := new uint8[n];
      live := live + {a};
      if block != null {
        Memcpy(this, a, 0, block, block.Length);
        live := live - {block};
      }
    }

    /** Release a live block. */
    method Free(a: array<uint8>)
      requires a in live
      modifies this
      ensures live == old(live) - {a}
    {
      live := live - {a};
    }
  }

  /**
   * memcpy(dst + offset, src, n) between two blocks of the heap. Both must
   * be live (reading or writing a released block is a use after free) and,
   * as memcpy demands, distinct. The destination becomes its old prefix up
   * to `offset`, then the first `n` bytes of the source, then its old suffix.
   */
  method Memcpy(heap: Heap, dst: array<uint8>, offset: nat, src: array<uint8>, n: nat)
    requires dst in heap.live && src in heap.live && dst != src
    requires n <= src.Length && offset + n <= dst.Length
    modifies dst
    ensures dst[..] == old(dst[..offset]) + old(src[..n]) + old(dst[offset + n..])
    ensures src[..] == old(src[..])
  {
    CopyIn(heap, dst, offset, src[..n]);
  }

  /**
   * memcpy(dst + offset, bytes, |bytes|) from memory the heap does not track:
   * the bytes a codec hands to the write callback, or the pixels a codec or
   * the resampler writes into a block. Only the destination must be live. A
   * null destination is allowed only for an empty copy at offset 0, which
   * writes nothing.
   */
  method CopyIn(heap: Heap, dst: array?<uint8>, offset: nat, bytes: seq<uint8>)
    requires dst == null ==> offset == 0 && bytes == []
    requires dst != null ==> dst in heap.live && offset + |bytes| <= dst.Length
    modifies dst
    ensures dst != null ==> dst[..] == old(dst[..offset]) + bytes + old(dst[offset + |bytes|..])
  {
    if dst != null {
      var i := 0;
      while i < |bytes|
        invariant 0 <= i <= |bytes|
        invariant dst[..offset] == old(dst[..offset])
        invariant dst[offset..offset + i] == bytes[..i]
        invariant dst[offset + |bytes|..] == old(dst[offset + |bytes|..])
      {
        dst[offset + i] := bytes[i];
        i := i + 1;
      }
      assert dst[..] == dst[..offset] + dst[offset..offset + |bytes|] + dst[offset + |bytes|..];
    }
  }
}
