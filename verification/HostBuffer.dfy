/**
  The growable host buffers: an anonymous mapping with an absolute, page-aligned base, and a
  cursor that is an address. Growing relocates the mapping and zero-fills the new pages.
*/
module HostBuffer {
  import opened Common
  import opened AddressArithmetic
  import opened Chunks

  const DEFAULT_TRACE_SIZE: nat := 0x80000

  /** A mapping the kernel can hand out: page-aligned, and neither the first nor the last page of all. */
  predicate Mappable(base: nat, size: nat) {
    base % PAGE_SIZE == 0 && PAGE_SIZE <= base && base + size + PAGE_SIZE <= WORDS
  }

  /** The answers of mremap within one call, by attempt and requested size; None is MAP_FAILED. */
  type Remap = (nat, nat) -> Option<nat>

  ghost predicate Kernel(remap: Remap) {
    forall i, size :: remap(i, size).Some? ==> Mappable(remap(i, size).value, size)
  }

  /** A mapping of `size` bytes after `k` doublings. */
  function Doubled(size: nat, k: nat): nat {
    if k == 0 then size else 2 * Doubled(size, k - 1)
  }

  lemma {:induction false} DoubledIsPower(size: nat, k: nat)
    ensures Doubled(size, k) == size * Pow2(k)
  {
    if k > 0 {
      DoubledIsPower(size, k - 1);
    }
  }

  lemma {:induction false} DoubledShift(size: nat, k: nat)
    ensures Doubled(2 * size, k) == Doubled(size, k + 1)
  {
    if k > 0 {
      DoubledShift(size, k - 1);
    }
  }

  class Buffer {
    var base: nat            // trace_buf
    var mem: array<byte>     // the mapped bytes; mem.Length is trace_buf_size
    var ptr: int             // trace_buf_ptr

    ghost predicate Mapped()
      reads this
    {
      && mem.Length > 0 && mem.Length % PAGE_SIZE == 0
      && Mappable(base, mem.Length)
    }

    /** The cursor is inside the mapping and nothing was ever written beyond it. */
    ghost predicate Valid()
      reads this, mem
    {
      && Mapped()
      && base <= ptr <= base + mem.Length
      && (forall i | ptr - base <= i < mem.Length :: mem[i] == 0)
    }

    /** What an export would write: [buf, ptr). */
    ghost function Contents(): (s: seq<byte>)
      requires Valid()
      reads this, mem
      ensures |s| == ptr - base
    {
      mem[..ptr - base]
    }

    /**
      Weaker than Valid: a failed read may have moved the cursor back by up to seven bytes, even
      below the mapping. Nothing was written beyond the place where the next fetch starts.
    */
    ghost predicate Usable()
      reads this, mem
    {
      && Mapped()
      && base - 8 < ptr <= base + mem.Length
      && Aligned(ptr - base) <= mem.Length
      && (forall i | Aligned(ptr - base) <= i < mem.Length :: mem[i] == 0)
    }

    /** The bytes that the next fetch finds before its aligned cursor. */
    ghost function Settled(): (s: seq<byte>)
      requires Usable()
      reads this, mem
      ensures |s| == Aligned(ptr - base)
    {
      mem[..Aligned(ptr - base)]
    }

    constructor (base: nat)
      requires Mappable(base, DEFAULT_TRACE_SIZE)
      ensures Valid() && Contents() == [] && fresh(mem)
      ensures this.base == base && mem.Length == DEFAULT_TRACE_SIZE
    {
      this.base := base;
      this.ptr := base;
      this.mem := new byte[DEFAULT_TRACE_SIZE](_ => 0);
    }

    method Align()
      requires Usable()
      modifies this`ptr
      ensures Valid() && Contents() == old(Settled())
      ensures ptr == base + old(Aligned(ptr - base))
    {
      WordSize();
      AlignEight(base, ptr - base);
      ptr := AlignUp(ptr, 3);
    }

    /** mremap(buf, size, 2 * size, MREMAP_MAYMOVE) succeeding at `newBase`. */
    method Double(newBase: nat)
      requires Valid() && Mappable(newBase, 2 * mem.Length)
      modifies this
      ensures Valid() && Contents() == old(Contents()) && fresh(mem)
      ensures mem.Length == 2 * old(mem.Length) && base == newBase && ptr - base == old(ptr - base)
    {
      var grown := Grown(mem);
      ptr := newBase + (ptr - base);
      base := newBase;
      mem := grown;
      PagesDouble(old(mem.Length));
      assert Contents() == old(mem[..])[..ptr - base] == old(Contents());
    }

    /** The kernel or the device writes `bytes` at the cursor, and the cursor moves past them. */
    method Write(bytes: seq<byte>)
      requires Valid() && ptr - base + |bytes| <= mem.Length
      modifies this`ptr, mem
      ensures Valid() && Contents() == old(Contents()) + bytes
      ensures ptr == old(ptr) + |bytes|
    {
      var off := ptr - base;
      for i := 0 to |bytes|
        invariant forall j | 0 <= j < off :: mem[j] == old(mem[j])
        invariant forall j | 0 <= j < i :: mem[off + j] == bytes[j]
        invariant forall j | off + i <= j < mem.Length :: mem[j] == 0
        invariant unchanged(this)
      {
        mem[off + i] := bytes[i];
      }
      ptr := ptr + |bytes|;
      assert Contents() == old(Contents()) + bytes;
    }
  }

  /** Twice the pages, the new ones zero. */
  method Grown(mem: array<byte>) returns (grown: array<byte>)
    ensures fresh(grown) && grown.Length == 2 * mem.Length
    ensures grown[..mem.Length] == mem[..]
    ensures forall i | mem.Length <= i < grown.Length :: grown[i] == 0
  {
    grown := new byte[2 * mem.Length](_ => 0);
    for i := 0 to mem.Length
      invariant forall j | 0 <= j < i :: grown[j] == mem[j]
      invariant forall j | i <= j < grown.Length :: grown[j] == 0
    {
      grown[i] := mem[i];
    }
  }

  lemma PagesDouble(size: nat)
    requires size % PAGE_SIZE == 0
    ensures (2 * size) % PAGE_SIZE == 0
  {
    Remainder(2 * size, PAGE_SIZE, 2 * (size / PAGE_SIZE), 0);
  }

  lemma AlignedFits(off: nat, size: nat)
    requires off <= size && size % PAGE_SIZE == 0
    ensures Aligned(off) <= size
  {
    PageIsEven(size);
    if off < size {
      var k := size / 8 - Aligned(off) / 8;
      GapIsLeast(off);
      assert 8 * k == size - Aligned(off);
    } else {
      AlignedUnique(off, size);
    }
  }

  /** Without a failed read the next fetch starts after what there is, zero-padded. */
  lemma ValidIsUsable(b: Buffer)
    requires b.Valid()
    ensures b.Usable() && b.Settled() == Padded(b.Contents())
  {
    AlignedFits(b.ptr - b.base, b.mem.Length);
    assert b.Settled() == Padded(b.Contents());
  }
}
