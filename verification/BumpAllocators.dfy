/** lib/alloc/linear.hc and stack.HC: allocators that advance one mark through a buffer. */
module BumpAllocators {
  import opened Basics
  import opened Alignment
  import opened PoolBlocks

  datatype Extent = Extent(size: nat, align: nat)

  /** The blocks that clients hold, by their place in the buffer. */
  type Live = map<nat, Extent>

  predicate Aligned(x: nat, a: int) {
    AlignmentValid(a) && Mod(x, a) == 0
  }

  /** Held blocks are aligned, lie below the mark and do not overlap. */
  ghost predicate Books(base: nat, used: nat, capacity: nat, live: Live) {
    && used <= capacity
    && (forall p | p in live :: live[p].size > 0 && p + live[p].size <= used)
    && (forall p | p in live :: Aligned(base + p, live[p].align))
    && (forall p, q | p in live && q in live && p < q :: p + live[p].size <= q)
  }

  /** What a client may pass: no block, a block it holds with its size, or what is no block:
      a negative size, an address before the buffer, or an end beyond the mark. */
  predicate Truthful(base: nat, used: nat, live: Live, address: nat, size: int) {
    size < 0 || address == 0 || address < base || address - base + size > used || Held(base, live, address, size)
  }

  predicate Held(base: nat, live: Live, address: nat, size: int) {
    address != 0 && address >= base && address - base in live && live[address - base].size == size
  }

  // ----- the next place -----

  /** A free place for a block. */
  predicate Place(base: nat, used: nat, capacity: nat, size: nat, align: nat, p: nat) {
    used <= p && p + size <= capacity && Aligned(base + p, align)
  }

  ghost predicate Room(base: nat, used: nat, capacity: nat, size: nat, align: nat) {
    exists p: nat :: Place(base, used, capacity, size, align, p)
  }

  lemma PaddingLeast(x: nat, d: nat, a: nat)
    requires AlignmentValid(a) && Mod(x + d, a) == 0
    ensures Padding(x, a) <= d
  {
    var pad := Padding(x, a);
    if d < pad {
      AddMultiple(x + d, pad - d, a);
      assert false;
    }
  }

  /** Where a block of this alignment lands. */
  function Landing(base: nat, used: nat, align: nat): nat
    requires AlignmentValid(align)
  {
    used + Padding(base + used, align)
  }

  /** The first place with room, exactly when there is one. */
  method FindPlace(base: nat, used: nat, capacity: nat, size: nat, align: nat) returns (ok: bool, p: nat)
    requires used <= capacity <= I64_MAX && base + capacity <= U64_RANGE && size > 0 && AlignmentValid(align)
    ensures ok <==> Room(base, used, capacity, size, align)
    ensures ok ==> Place(base, used, capacity, size, align, p)
    ensures ok ==> forall q: nat | Place(base, used, capacity, size, align, q) :: p <= q
    ensures ok ==> p == Landing(base, used, align)
  {
    var address := (base + used) % U64_RANGE;
    var padding := Padding(base + used, align);
    forall q: nat | Place(base, used, capacity, size, align, q) ensures used + padding <= q {
      PaddingLeast(base + used, q - used, align);
    }
    ok, p := false, 0;
    if address < base { return; }
    var remaining := capacity - used;
    if padding > remaining || size > remaining - padding { return; }
    ok, p := true, used + padding;
    assert base + used + padding == base + p;
    assert Place(base, used, capacity, size, align, p);
  }

  // ----- keeping the books -----

  lemma BooksAdd(base: nat, used: nat, capacity: nat, live: Live, p: nat, size: nat, align: nat)
    requires Books(base, used, capacity, live) && Place(base, used, capacity, size, align, p) && size > 0
    ensures p !in live && Books(base, p + size, capacity, Put(live, p, size, align))
  {
  }

  /** The other blocks lie before the one that ends at the mark. */
  lemma BelowTop(base: nat, used: nat, capacity: nat, live: Live, p: nat)
    requires Books(base, used, capacity, live) && p in live && p + live[p].size == used
    ensures forall q | q in live && q != p :: q + live[q].size <= p
  {
  }

  /** The block that ends at the mark may grow and shrink. */
  lemma BooksTop(base: nat, used: nat, capacity: nat, live: Live, p: nat, size: nat, align: nat)
    requires Books(base, used, capacity, live) && p in live && p + live[p].size == used
    requires size > 0 && Aligned(base + p, align) && p + size <= capacity
    ensures Books(base, p + size, capacity, Put(live, p, size, align))
  {
    BelowTop(base, used, capacity, live, p);
  }

  /** Any block may shrink. */
  lemma BooksShrink(base: nat, used: nat, capacity: nat, live: Live, p: nat, size: nat, align: nat)
    requires Books(base, used, capacity, live) && p in live && 0 < size <= live[p].size && Aligned(base + p, align)
    ensures Books(base, used, capacity, Put(live, p, size, align))
  {
  }

  lemma BooksDrop(base: nat, used: nat, capacity: nat, live: Live, p: nat, mark: nat)
    requires Books(base, used, capacity, live) && p in live
    requires mark == used || (mark == p && p + live[p].size == used)
    ensures Books(base, mark, capacity, live - {p})
  {
  }

  /** n bytes from p on. */
  ghost function Slice(b: Bytes, p: int, n: int): Bytes {
    if 0 <= p <= p + n <= |b| then b[p..p + n] else []
  }

  /** A block at p. */
  ghost function Put(live: Live, p: nat, size: nat, align: nat): Live {
    live[p := Extent(size, align)]
  }

  /** A block moved from p to q. */
  ghost function Relocate(live: Live, p: nat, q: nat, size: nat, align: nat): Live {
    Put(live - {p}, q, size, align)
  }

  lemma AddThenDrop(was: Live, live: Live, now: Live, p: nat, q: nat, size: nat, align: nat)
    requires p != q && live == Put(was, q, size, align) && now == live - {p}
    ensures now == Relocate(was, p, q, size, align)
  {
  }

  /** The blocks below a mark. */
  ghost function Cut(live: Live, mark: nat): Live {
    map p | p in live && p + live[p].size <= mark :: live[p]
  }

  lemma BooksCut(base: nat, used: nat, capacity: nat, live: Live, mark: nat)
    requires Books(base, used, capacity, live) && mark <= used
    ensures Books(base, mark, capacity, Cut(live, mark))
  {
  }

  // ----- the linear allocator -----

  class LinearAllocator {
    const buffer: array<Byte>
    const base: nat
    var used: nat
    ghost var live: Live

    ghost predicate Valid()
      reads this
    {
      && buffer.Length <= I64_MAX && base + buffer.Length <= U64_RANGE && (base == 0 ==> buffer.Length == 0)
      && Books(base, used, buffer.Length, live)
    }

    constructor (buffer: array<Byte>, base: nat)
      requires buffer.Length <= I64_MAX && base + buffer.Length <= U64_RANGE && (base == 0 ==> buffer.Length == 0)
      ensures Valid() && live == map[] && used == 0 && this.buffer == buffer && this.base == base
    {
      this.buffer, this.base, used, live := buffer, base, 0, map[];
    }

    /** There is room above the mark. */
    ghost predicate Fits(size: int, align: int)
      reads this
    {
      size > 0 && AlignmentValid(align) && Room(base, used, buffer.Length, size, align)
    }

    /** A held block, asked for with an alignment it has. */
    ghost predicate Known(address: nat, size: int, align: int)
      reads this
    {
      Held(base, live, address, size) && Aligned(address, align)
    }

    /** The last block can stay while the buffer lasts, another one if it does not grow. */
    ghost predicate Stays(address: nat, oldSize: int, newSize: int)
      reads this
    {
      newSize <= if address - base + oldSize == used then buffer.Length - (address - base) else oldSize
    }

    /** A held block that is not the last one can be moved if there is room. */
    ghost predicate Moves(address: nat, oldSize: int, newSize: int, align: int)
      reads this
    {
      address - base + oldSize != used && newSize > oldSize && Fits(newSize, align)
    }

    ghost predicate SameBelow(was: seq<Byte>, mark: int)
      reads buffer
    {
      mark <= |was| == buffer.Length && forall k | 0 <= k < mark :: buffer[k] == was[k]
    }

    /** Advance the mark behind a new block. */
    method Take(p: nat, size: nat, align: nat)
      requires Valid() && size > 0 && Place(base, used, buffer.Length, size, align, p)
      modifies this
      ensures Valid() && used == p + size && live == Put(old(live), p, size, align)
    {
      BooksAdd(base, used, buffer.Length, live, p, size, align);
      used, live := p + size, Put(live, p, size, align);
    }

    /** A new block above the mark. */
    method Bump(newSize: nat, align: nat) returns (r: nat)
      requires Valid() && newSize > 0 && AlignmentValid(align)
      modifies this
      ensures Valid() && (r != 0 <==> old(Fits(newSize, align)))
      ensures r == 0 ==> used == old(used) && live == old(live)
      ensures r != 0 ==> LandedAt(r, old(used), newSize, align) && live == Put(old(live), r - base, newSize, align)
    {
      var ok, p := FindPlace(base, used, buffer.Length, newSize, align);
      if !ok { return 0; }
      Take(p, newSize, align);
      r := base + p;
    }

    /** MemCpy to a place behind. */
    method CopyUp(from: nat, to: nat, n: nat)
      requires from + n <= to && to + n <= buffer.Length
      modifies buffer
      ensures Slice(buffer[..], to, n) == old(Slice(buffer[..], from, n)) && SameBelow(old(buffer[..]), to)
    {
      forall k | 0 <= k < n { buffer[to + k] := buffer[from + k]; }
    }

    /** The block that ends at the mark. */
    method ResizeTop(address: nat, oldSize: int, newSize: nat, align: nat) returns (r: nat)
      requires Valid() && Known(address, oldSize, align) && address - base + oldSize == used
      modifies this
      ensures Valid()
      ensures Resized(r, address, oldSize, newSize, align)
    {
      var position := address - base;
      if newSize > buffer.Length - position { return 0; }
      if newSize == 0 {
        BooksDrop(base, used, buffer.Length, live, position, position);
        used, live := position, live - {position};
        return 0;
      }
      BooksTop(base, used, buffer.Length, live, position, newSize, align);
      used, live := position + newSize, Put(live, position, newSize, align);
      r := address;
    }

    /** Give up a block below the mark. */
    ghost method Drop(p: nat)
      requires Valid() && p in live
      modifies this`live
      ensures Valid() && live == old(live) - {p}
    {
      BooksDrop(base, used, buffer.Length, live, p, used);
      live := live - {p};
    }

    /** A larger block, with the bytes of the old one. */
    method Move(address: nat, oldSize: nat, newSize: nat, align: nat) returns (r: nat)
      requires Valid() && Held(base, live, address, oldSize) && newSize > oldSize && AlignmentValid(align)
      modifies this, buffer
      ensures Valid() && SameBelow(old(buffer[..]), old(used)) && (r != 0 <==> old(Fits(newSize, align)))
      ensures r == 0 ==> buffer[..] == old(buffer[..]) && used == old(used) && live == old(live)
      ensures r != 0 ==> LandedAt(r, old(used), newSize, align)
                         && live == Relocate(old(live), address - base, r - base, newSize, align)
      ensures r != 0 ==> Slice(buffer[..], r - base, oldSize) == old(Slice(buffer[..], address - base, oldSize))
    {
      r := Bump(newSize, align);
      if r != 0 {
        assert buffer[..] == old(buffer[..]);
        CopyUp(address - base, r - base, oldSize);
        ghost var both := live;
        Drop(address - base);
        AddThenDrop(old(live), both, live, address - base, r - base, newSize, align);
      }
    }

    /** At the first place above the old mark; it ends at the new one. */
    predicate LandedAt(r: nat, mark: nat, size: nat, align: nat)
      reads this
    {
      AlignmentValid(align) && r == base + Landing(base, mark, align) && used == r - base + size
    }

    /** The mark follows the end of the last block, and no other. */
    predicate TopMoves(mark: nat, address: nat, oldSize: int, newSize: int)
      reads this
    {
      used == if address - base + oldSize == mark then address - base + newSize else mark
    }

    /** A request for a new block. */
    twostate predicate Allocated(r: nat, oldSize: int, newSize: int, align: int)
      reads this
    {
      && (r != 0 <==> oldSize == 0 && old(Fits(newSize, align)))
      && if r != 0 then LandedAt(r, old(used), newSize, align) && live == Put(old(live), r - base, newSize, align)
         else live == old(live) && used == old(used)
    }

    /** A request about a block: refused, given up, resized in place, or moved with its bytes. */
    twostate predicate Resized(r: nat, address: nat, oldSize: int, newSize: int, align: int)
      reads this, buffer
    {
      if !old(Known(address, oldSize, align)) || newSize < 0
        || !old(Stays(address, oldSize, newSize) || Moves(address, oldSize, newSize, align)) then
        r == 0 && live == old(live) && used == old(used)
      else if newSize == 0 then
        r == 0 && live == old(live) - {address - base} && TopMoves(old(used), address, oldSize, 0)
      else if old(Stays(address, oldSize, newSize)) then
        r == address && live == Put(old(live), address - base, newSize, align)
          && TopMoves(old(used), address, oldSize, newSize)
      else
        && r != 0 && LandedAt(r, old(used), newSize, align)
          && live == Relocate(old(live), address - base, r - base, newSize, align)
        && Slice(buffer[..], r - base, oldSize) == Slice(old(buffer[..]), address - base, oldSize)
    }

    /** Another block. */
    method ResizeInner(address: nat, oldSize: int, newSize: nat, align: nat) returns (r: nat)
      requires Valid() && Known(address, oldSize, align) && address - base + oldSize != used
      modifies this, buffer
      ensures Valid() && SameBelow(old(buffer[..]), old(used)) && (r == 0 ==> buffer[..] == old(buffer[..]))
      ensures Resized(r, address, oldSize, newSize, align)
    {
      r := 0;
      if newSize == 0 {
        Drop(address - base);
      } else if newSize <= oldSize {
        BooksShrink(base, used, buffer.Length, live, address - base, newSize, align);
        live := Put(live, address - base, newSize, align);
        r := address;
      } else {
        r := Move(address, oldSize, newSize, align);
      }
    }

    /** The callback: a request is granted exactly when it can be; a refused one changes
        nothing; bytes below the mark never change. */
    method Realloc(address: nat, oldSize: int, newSize: int, align: int) returns (r: nat)
      requires Valid() && address < U64_RANGE && Truthful(base, used, live, address, oldSize)
      modifies this, buffer
      ensures Valid() && SameBelow(old(buffer[..]), old(used)) && (r == 0 ==> buffer[..] == old(buffer[..]))
      ensures if address == 0 then Allocated(r, oldSize, newSize, align)
              else Resized(r, address, oldSize, newSize, align)
    {
      if oldSize < 0 || newSize < 0 || !AlignmentValid(align) { return 0; }
      if address != 0 {
        MaskMod(address, align);
        if And(address, align - 1) != 0 || address < base { return 0; }
        var position := address - base;
        if position > I64_MAX || position > used || oldSize > used - position { return 0; }
        if position + oldSize == used {
          r := ResizeTop(address, oldSize, newSize, align);
        } else {
          r := ResizeInner(address, oldSize, newSize, align);
        }
      } else if oldSize != 0 || newSize == 0 {
        return 0;
      } else {
        r := Bump(newSize, align);
      }
    }

    method Mark() returns (mark: int)
      requires Valid()
      ensures mark == used
    {
      mark := used;
    }

    /** Back to an earlier mark: the blocks below it stay. */
    method Rewind(mark: int) returns (ok: bool)
      requires Valid()
      modifies this
      ensures Valid() && (ok <==> 0 <= mark <= old(used))
      ensures if ok then used == mark && live == Cut(old(live), mark) else used == old(used) && live == old(live)
    {
      if mark < 0 || mark > used { return false; }
      BooksCut(base, used, buffer.Length, live, mark);
      used, live := mark, Cut(live, mark);
      ok := true;
    }

    method Reset()
      requires Valid()
      modifies this
      ensures Valid() && used == 0 && live == map[]
    {
      used, live := 0, map[];
    }
  }

  // ----- the stack allocator -----

  class StackAllocator {
    const base: nat
    const capacity: nat
    var used: nat
    ghost var live: Live

    ghost predicate Valid()
      reads this
    {
      && capacity <= I64_MAX && base + capacity <= U64_RANGE && (base == 0 ==> capacity == 0)
      && Books(base, used, capacity, live)
    }

    constructor (base: nat, capacity: nat)
      requires capacity <= I64_MAX && base + capacity <= U64_RANGE && (base == 0 ==> capacity == 0)
      ensures Valid() && live == map[] && used == 0 && this.base == base && this.capacity == capacity
    {
      this.base, this.capacity, used, live := base, capacity, 0, map[];
    }

    ghost predicate Fits(size: int, align: int)
      reads this
    {
      size > 0 && AlignmentValid(align) && Room(base, used, capacity, size, align)
    }

    /** The block on top, asked for with an alignment it has. */
    ghost predicate Top(address: nat, size: int, align: int)
      reads this
    {
      Held(base, live, address, size) && Aligned(address, align) && address - base + size == used
    }

    /** The position tests of realloc and free. */
    method FindTop(address: nat, size: nat, align: nat) returns (ok: bool)
      requires Valid() && 0 < address < U64_RANGE && AlignmentValid(align) && Truthful(base, used, live, address, size)
      ensures ok <==> Top(address, size, align)
    {
      MaskMod(address, align);
      if And(address, align - 1) != 0 || address < base { return false; }
      var position := address - base;
      if position > I64_MAX { return false; }
      ok := position <= capacity && size <= capacity - position && position + size == used;
    }

    ghost method Drop(p: nat)
      requires Valid() && p in live && p + live[p].size == used
      modifies this`live
      ensures Books(base, p, capacity, live) && live == old(live) - {p}
    {
      BooksDrop(base, used, capacity, live, p, p);
      live := live - {p};
    }

    /** Advance the mark behind a new block. */
    method Take(p: nat, size: nat, align: nat)
      requires Valid() && size > 0 && Place(base, used, capacity, size, align, p)
      modifies this
      ensures Valid() && used == p + size && live == Put(old(live), p, size, align)
    {
      BooksAdd(base, used, capacity, live, p, size, align);
      used, live := p + size, Put(live, p, size, align);
    }

    /** A block goes behind the last one, at the first place with its alignment. */
    method Alloc(newSize: nat, align: nat) returns (r: nat)
      requires Valid() && newSize > 0 && AlignmentValid(align)
      modifies this
      ensures Valid() && (r != 0 <==> old(Fits(newSize, align)))
      ensures r == 0 ==> used == old(used) && live == old(live)
      ensures r != 0 ==> r == base + Landing(base, old(used), align) && used == r - base + newSize
      ensures r != 0 ==> live == Put(old(live), r - base, newSize, align)
    {
      var ok, p := FindPlace(base, used, capacity, newSize, align);
      if !ok { return 0; }
      Take(p, newSize, align);
      r := base + p;
    }

    /** Only the block on top changes its size. */
    method Resize(address: nat, oldSize: nat, newSize: nat, align: nat) returns (r: nat)
      requires Valid() && 0 < address < U64_RANGE && AlignmentValid(align)
               && Truthful(base, used, live, address, oldSize)
      modifies this
      ensures Valid()
      ensures r == if newSize > 0 && old(Top(address, oldSize, align))
              && newSize <= capacity - (address - base) then address else 0
      ensures r != 0 ==> used == address - base + newSize && live == Put(old(live), address - base, newSize, align)
      ensures r == 0 && newSize == 0 && old(Top(address, oldSize, align))
              ==> used == address - base && live == old(live) - {address - base}
      ensures r == 0 && !(newSize == 0 && old(Top(address, oldSize, align))) ==> used == old(used) && live == old(live)
    {
      r := 0;
      var top := FindTop(address, oldSize, align);
      if top {
        var position := address - base;
        if newSize == 0 {
          Drop(position);
          used := position;
        } else if newSize <= capacity - position {
          BooksTop(base, used, capacity, live, position, newSize, align);
          used, live, r := position + newSize, Put(live, position, newSize, align), address;
        }
      }
    }

    /** The callback: allocation, and resizing or releasing the block on top. */
    method Realloc(address: nat, oldSize: int, newSize: int, align: int) returns (r: nat)
      requires Valid() && address < U64_RANGE && Truthful(base, used, live, address, oldSize)
      modifies this
      ensures Valid()
      ensures address == 0 ==> (r != 0 <==> oldSize == 0 && old(Fits(newSize, align)))
      ensures address == 0 && r != 0 ==> r == base + Landing(base, old(used), align) && used == r - base + newSize
      ensures address != 0 ==> r == if newSize > 0 && old(Top(address, oldSize, align))
                               && newSize <= capacity - (address - base) then address else 0
      ensures address != 0 && r != 0 ==> used == address - base + newSize
      ensures r != 0 ==> live == Put(old(live), r - base, newSize, align)
      ensures r == 0 && address != 0 && newSize == 0 && old(Top(address, oldSize, align))
              ==> used == address - base && live == old(live) - {address - base}
      ensures r == 0 && !(address != 0 && newSize == 0 && old(Top(address, oldSize, align)))
              ==> used == old(used) && live == old(live)
    {
      if oldSize < 0 || newSize < 0 || !AlignmentValid(align) { return 0; }
      if address != 0 {
        r := Resize(address, oldSize, newSize, align);
      } else if oldSize != 0 || newSize == 0 {
        r := 0;
      } else {
        r := Alloc(newSize, align);
      }
    }

    /** Releases exactly the block on top, and gives back to its start. */
    method Free(address: nat, size: int, align: int)
      requires Valid() && address < U64_RANGE && Truthful(base, used, live, address, size)
      modifies this
      ensures Valid()
      ensures live == if old(Top(address, size, align)) then old(live) - {address - base} else old(live)
      ensures used == if old(Top(address, size, align)) then address - base else old(used)
    {
      if address == 0 || size < 0 || !AlignmentValid(align) { return; }
      var top := FindTop(address, size, align);
      if top {
        Drop(address - base);
        used := address - base;
      }
    }

    /** Back to an earlier mark: the blocks below it stay. */
    method Rewind(mark: int) returns (ok: bool)
      requires Valid()
      modifies this
      ensures Valid() && (ok <==> 0 <= mark <= old(used))
      ensures if ok then used == mark && live == Cut(old(live), mark) else used == old(used) && live == old(live)
    {
      if mark < 0 || mark > used { return false; }
      BooksCut(base, used, capacity, live, mark);
      used, live := mark, Cut(live, mark);
      ok := true;
    }

    method Reset()
      requires Valid()
      modifies this
      ensures Valid() && used == 0 && live == map[]
    {
      used, live := 0, map[];
    }

    /** A client that allocates all of these, going on without what is refused, and then
        frees them in reverse order: it is back at the old mark exactly when no block that
        was granted needed padding. */
    method UseAsStack(reqs: Requests)
      requires Valid()
      modifies this
      ensures Valid() && Kept(old(live))
      ensures used == PushPop(old(used), Granted(base, capacity, old(used), reqs))
      ensures used == old(used) <==> Unpadded(Granted(base, capacity, old(used), reqs))
    {
      LifoGivesBackIff(used, Granted(base, capacity, used, reqs));
      AllocateAndFree(reqs);
    }

    method AllocateAndFree(reqs: Requests)
      requires Valid()
      modifies this
      ensures Valid() && Kept(old(live)) && used == Ending(old(used), reqs)
      decreases reqs
    {
      if reqs == NoMore { return; }
      var r := RequestFirst(reqs);
      AllocateAndFree(reqs.rest);
      if r != 0 { Return(r, reqs.size, reqs.align, old(live)); }
    }

    /** A byte, and eight bytes aligned to eight, in an empty buffer with room for both:
        when both are freed, eight bytes are still in use. */
    method ByteAndWord()
      requires Valid() && used == 0 && capacity >= 16 && Mod(base, 8) == 0
      modifies this
      ensures Valid() && used == 8
    {
      LifoKeepsPadding(base, capacity, ByteThenWord());
      UseAsStack(ByteThenWord());
    }

    /** r is a block of the client. */
    ghost predicate Owns(r: nat, size: nat, align: nat)
      reads this
    {
      0 < r < U64_RANGE && r >= base && r - base in live && live[r - base] == Extent(size, align)
    }

    method Return(r: nat, size: nat, align: nat, ghost was: Live)
      requires Valid() && Owns(r, size, align) && r - base !in was && Kept(was)
      modifies this
      ensures Valid() && used == Pop(r - base, size, old(used)) && Kept(was)
    {
      Free(r, size, align);
    }

    ghost predicate Kept(was: Live)
      reads this
    {
      forall p | p in was :: p in live && live[p] == was[p]
    }

    method Request(size: nat, align: nat) returns (r: nat)
      requires Valid() && size > 0 && AlignmentValid(align)
      modifies this
      ensures Valid() && Kept(old(live))
      ensures r != 0 <==> Landing(base, old(used), align) + size <= capacity
      ensures r == 0 ==> used == old(used)
      ensures r != 0 ==> r == base + Landing(base, old(used), align) && used == r - base + size
      ensures r != 0 ==> Owns(r, size, align) && r - base !in old(live)
    {
      RoomIff(base, used, capacity, size, align);
      r := Realloc(0, 0, size, align);
    }

    /** The first of these. */
    method RequestFirst(reqs: Requests) returns (r: nat)
      requires Valid() && reqs != NoMore
      modifies this
      ensures Valid() && Kept(old(live)) && (r != 0 ==> Owns(r, reqs.size, reqs.align) && r - base !in old(live))
      ensures Ending(old(used), reqs)
              == if r == 0 then Ending(used, reqs.rest) else Pop(r - base, reqs.size, Ending(used, reqs.rest))
    {
      EndingFirst(used, reqs, Landing(base, used, reqs.align));
      r := Request(reqs.size, reqs.align);
    }

    /** The mark where a client ends that allocates these and frees them in reverse order. */
    function Ending(mark: nat, reqs: Requests): nat {
      PushPop(mark, Granted(base, capacity, mark, reqs))
    }

    lemma EndingFirst(mark: nat, reqs: Requests, p: nat)
      requires reqs != NoMore && p == Landing(base, mark, reqs.align)
      ensures Ending(mark, reqs)
              == if p + reqs.size <= capacity then Pop(p, reqs.size, Ending(p + reqs.size, reqs.rest))
                 else Ending(mark, reqs.rest)
    {
      GrantedFirst(base, capacity, mark, reqs, p);
    }
  }

  // ----- last in, first out -----

  type PowerOfTwo = a: nat | AlignmentValid(a) witness 1

  datatype Requests = NoMore | First(size: Positive, align: PowerOfTwo, rest: Requests)

  /** Blocks with the padding before each. */
  datatype Steps = Done | Step(pad: nat, size: Positive, rest: Steps)

  /** The blocks that are granted from this mark on: those that end in the buffer. */
  function Granted(base: nat, capacity: nat, used: nat, reqs: Requests): Steps
    decreases reqs
  {
    match reqs
    case NoMore => Done
    case First(size, align, rest) =>
      var p := Landing(base, used, align);
      if p + size <= capacity then Step(p - used, size, Granted(base, capacity, p + size, rest))
      else Granted(base, capacity, used, rest)
  }

  /** There is room for a block exactly when it fits where it lands. */
  lemma RoomIff(base: nat, used: nat, capacity: nat, size: nat, align: nat)
    requires AlignmentValid(align)
    ensures Room(base, used, capacity, size, align) <==> Landing(base, used, align) + size <= capacity
  {
    forall q: nat | Place(base, used, capacity, size, align, q) ensures Landing(base, used, align) <= q {
      PaddingLeast(base + used, q - used, align);
    }
    var p := Landing(base, used, align);
    assert base + used + Padding(base + used, align) == base + p;
    assert p + size <= capacity ==> Place(base, used, capacity, size, align, p);
  }

  /** The mark after allocating all of these and then freeing them in reverse order. */
  function PushPop(used: nat, steps: Steps): nat
    decreases steps
  {
    match steps
    case Done => used
    case Step(pad, size, rest) => Pop(used + pad, size, PushPop(used + pad + size, rest))
  }

  /** The mark after freeing a block at p: only the one on top goes. */
  function Pop(p: nat, size: nat, mark: nat): nat {
    if p + size == mark then p else mark
  }

  /** The first request, which lands at p. */
  lemma GrantedFirst(base: nat, capacity: nat, used: nat, reqs: Requests, p: nat)
    requires reqs != NoMore && p == Landing(base, used, reqs.align)
    ensures PushPop(used, Granted(base, capacity, used, reqs))
            == if p + reqs.size <= capacity
               then Pop(p, reqs.size, PushPop(p + reqs.size, Granted(base, capacity, p + reqs.size, reqs.rest)))
               else PushPop(used, Granted(base, capacity, used, reqs.rest))
  {
  }

  predicate Unpadded(steps: Steps) {
    steps == Done || (steps.pad == 0 && Unpadded(steps.rest))
  }

  /** Freeing in reverse order gives everything back exactly when no block was padded. */
  lemma {:induction false} LifoGivesBackIff(used: nat, steps: Steps)
    ensures PushPop(used, steps) >= used
    ensures PushPop(used, steps) == used <==> Unpadded(steps)
    decreases steps
  {
    if steps != Done { LifoGivesBackIff(used + steps.pad + steps.size, steps.rest); }
  }

  /** The start of the last block that was padded. */
  function LastPadded(used: nat, steps: Steps): nat
    requires !Unpadded(steps)
    decreases steps
  {
    if Unpadded(steps.rest) then used + steps.pad else LastPadded(used + steps.pad + steps.size, steps.rest)
  }

  /** Otherwise all that lies below the last padded block stays in use. */
  lemma {:induction false} LifoEndsAt(used: nat, steps: Steps)
    requires !Unpadded(steps)
    ensures PushPop(used, steps) == LastPadded(used, steps)
    decreases steps
  {
    LifoGivesBackIff(used + steps.pad + steps.size, steps.rest);
    if !Unpadded(steps.rest) { LifoEndsAt(used + steps.pad + steps.size, steps.rest); }
  }

  function ByteThenWord(): Requests {
    First(1, 1, First(8, 8, NoMore))
  }

  /** Of two blocks the second is padded: its start is where the mark stays. */
  lemma SecondPadded(base: nat, capacity: nat, used: nat, reqs: Requests, p: nat, q: nat)
    requires reqs.First? && reqs.rest.First? && reqs.rest.rest == NoMore
    requires p == Landing(base, used, reqs.align) && q == Landing(base, p + reqs.size, reqs.rest.align)
    requires p + reqs.size < q && q + reqs.rest.size <= capacity
    ensures PushPop(used, Granted(base, capacity, used, reqs)) == q
  {
    GrantedFirst(base, capacity, used, reqs, p);
    GrantedFirst(base, capacity, p + reqs.size, reqs.rest, q);
  }

  /** A block of one byte, then one of eight aligned to eight: the second is padded by seven
      bytes, and after both frees eight bytes are still in use. */
  lemma LifoKeepsPadding(base: nat, capacity: nat, reqs: Requests)
    requires capacity >= 16 && Mod(base, 8) == 0 && reqs == ByteThenWord()
    ensures PushPop(0, Granted(base, capacity, 0, reqs)) == 8
  {
    var p := Landing(base, 0, reqs.align);
    var q := Landing(base, p + reqs.size, reqs.rest.align);
    ByteLands(base, reqs.align);
    WordLands(base, p + reqs.size, reqs.rest.align);
    SecondPadded(base, capacity, 0, reqs, p, q);
  }

  lemma ByteLands(base: nat, align: nat)
    requires align == 1
    ensures AlignmentValid(align) && Landing(base, 0, align) == 0
  {
  }

  lemma WordLands(base: nat, mark: nat, align: nat)
    requires Mod(base, 8) == 0 && mark == 1 && align == 8 && AlignmentValid(align)
    ensures Landing(base, mark, align) == 8
  {
    assert base + (1 + Padding(base + 1, align)) == base + 1 + Padding(base + 1, align);
    SevenBytes(base, Padding(base + 1, align));
  }

  lemma SevenBytes(base: nat, pad: nat)
    requires Mod(base, 8) == 0 && pad < 8 && Mod(base + (1 + pad), 8) == 0
    ensures pad == 7
  {
    AddMultiple(base, 1 + pad, 8);
  }

  /** Under a padded block nothing is given back: the ones below are never on top again. */
  lemma LifoStops(used: nat, steps: Steps)
    requires steps != Done && !Unpadded(steps.rest)
    ensures PushPop(used, steps) == PushPop(used + steps.pad + steps.size, steps.rest)
  {
    LifoGivesBackIff(used + steps.pad + steps.size, steps.rest);
  }
}
