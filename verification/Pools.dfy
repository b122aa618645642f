/** The pool allocator object: what every call keeps, and what it hands out. */
module Pools {
  import opened Alignment
  import opened PoolBlocks
  import opened PoolAllocator

  class Pool {
    const buffer: array<Byte>
    const origin: nat
    var memory: nat
    var freeList: nat
    var blockSize: nat
    var stride: nat
    var count: nat
    var available: int
    var alignment: nat
    ghost var blocks: Blocks

    ghost function L(): Layout
      reads this
    {
      Layout(origin, if origin <= memory then memory - origin else 0, blockSize, stride, count, alignment)
    }

    ghost predicate Placed()
      reads this
    {
      origin <= memory && L().Fits(buffer.Length) && L().Aligned()
    }

    /** The list in memory and the counter are those of b. */
    ghost predicate Books(b: Blocks)
      reads this, buffer
    {
      Placed() && available == |b.free| && BooksFit(L(), buffer[..], b, freeList)
    }

    ghost predicate Valid()
      reads this, buffer
    {
      Books(blocks)
    }

    /** Some books fit: the list ends, and counts each free block once. */
    ghost predicate Sound()
      reads this, buffer
    {
      exists b :: Books(b)
    }

    constructor (buffer: array<Byte>, origin: nat)
      ensures this.buffer == buffer && this.origin == origin
    {
      this.buffer, this.origin := buffer, origin;
      memory, freeList, blockSize, stride, count, available, alignment := 0, 0, 0, 0, 0, 0, 0;
      blocks := Blocks([], {});
    }

    /** block->next = w */
    method SetNext(address: nat, w: nat)
      requires origin <= address && address - origin + WORD <= buffer.Length
      modifies buffer
      ensures var o := address - origin;
              buffer[..] == old(buffer[..])[..o] + Store(w, WORD) + old(buffer[..])[o + WORD..]
    {
      var o := address - origin;
      var bytes := Store(w, WORD);
      forall k | 0 <= k < WORD { buffer[o + k] := bytes[k]; }
    }

    /** block->next */
    method Next(address: nat) returns (w: nat)
      requires origin <= address && address - origin + WORD <= buffer.Length
      ensures w == Word(buffer[..], address - origin)
    {
      w := Load(buffer[address - origin..address - origin + WORD]);
      assert buffer[..][address - origin..address - origin + WORD] == buffer[address - origin..address - origin + WORD];
    }

    ghost predicate Listed()
      reads this, buffer
    {
      Placed() && Below(blocks.free, count) && Chain(L(), buffer[..], blocks.free, freeList)
    }

    /** block->next = free_list; free_list = block */
    method Link(ghost i: nat, address: nat)
      requires Placed() && i < count && address == L().Addr(i)
      modifies this`freeList, buffer
      ensures L() == old(L()) && freeList == address && Linked(L(), old(buffer[..]), buffer[..], old(freeList), i)
    {
      InBuffer(L(), i, buffer.Length);
      SetNext(address, freeList);
      freeList := address;
    }

    /** Put block i in front of the list. */
    method Push(ghost i: nat, address: nat)
      requires Listed() && i < count && i !in blocks.free && address == L().Addr(i)
      modifies this`freeList, this`blocks, buffer
      ensures Listed() && blocks == Released(old(blocks), i)
      ensures OnlyBlock(L(), old(buffer[..]), buffer[..], i)
    {
      Link(i, address);
      PushChain(L(), old(buffer[..]), buffer[..], blocks.free, old(freeList), i);
      blocks := Released(blocks, i);
    }

    /** Link all blocks, the last one first. */
    method LinkAll()
      requires Placed()
      modifies this`freeList, this`blocks, buffer
      ensures Listed() && blocks == Blocks(UpTo(0, count), {})
    {
      freeList := 0;
      blocks := Blocks([], {});
      var i := count;
      while i > 0
        invariant 0 <= i <= count && Listed() && blocks == Blocks(UpTo(i, count), {})
      {
        i := i - 1;
        UpToStep(i, count);
        Push(i, memory + Times(i, stride));
      }
    }

    method Reset()
      requires Placed()
      modifies this`freeList, this`available, this`blocks, buffer
      ensures Valid() && blocks == Blocks(UpTo(0, count), {})
    {
      LinkAll();
      available := count;
      AllFree(count);
    }

    /** The tests of init: padding, stride and number of blocks, exactly when one fits. */
    method Measure(memory: nat, capacity: int, blockSize: int, alignment: int) returns (ok: bool, l: Layout)
      requires memory != 0 && capacity > 0
               ==> memory == origin && capacity <= buffer.Length <= I64_MAX && origin + buffer.Length <= U64_RANGE
      ensures ok <==> (memory != 0 && capacity >= 0 && WORD <= blockSize <= I64_MAX - alignment + 1
                       && AlignmentValid(alignment) &&
        Padding(memory, alignment) + blockSize + Padding(blockSize, alignment) <= capacity)
      ensures ok ==> memory == origin && l.Fits(buffer.Length) && l.Aligned()
                     && AsManyAsFit(l.count, l.stride, capacity - l.start)
      ensures ok ==> l == Layout(memory, Padding(memory, alignment), blockSize,
                                 blockSize + Padding(blockSize, alignment), l.count, alignment)
    {
      ok, l := false, Layout(0, 0, 0, 0, 0, 0);
      if memory == 0 || capacity < 0 || blockSize < WORD || !AlignmentValid(alignment)
        || blockSize > I64_MAX - (alignment - 1) {
        return;
      }
      var padding := Padding(memory, alignment);
      if padding > capacity || (memory + padding) % U64_RANGE < memory {
        return;
      }
      var stride := blockSize + Padding(blockSize, alignment);
      var count := Div(capacity - padding, stride);
      if capacity > 0 { LaidOut(memory, buffer.Length, capacity, blockSize, alignment); }
      ok, l := count > 0, Layout(memory, padding, blockSize, stride, count, alignment);
    }

    /** Succeeds exactly when one block fits behind the padding; then all blocks are free. */
    method Init(memory: nat, capacity: int, blockSize: int, alignment: int) returns (ok: bool)
      requires memory != 0 && capacity > 0
               ==> memory == origin && capacity <= buffer.Length <= I64_MAX && origin + buffer.Length <= U64_RANGE
      modifies this, buffer
      ensures ok <==> (memory != 0 && capacity >= 0 && WORD <= blockSize <= I64_MAX - alignment + 1
                       && AlignmentValid(alignment) &&
        Padding(memory, alignment) + blockSize + Padding(blockSize, alignment) <= capacity)
      ensures ok ==> Valid() && blocks == Blocks(UpTo(0, count), {}) && this.blockSize == blockSize
                     && this.alignment == alignment
      ensures ok ==> this.memory == memory + Padding(memory, alignment)
                     && stride == blockSize + Padding(blockSize, alignment)
      ensures ok ==> AsManyAsFit(count, stride, capacity - Padding(memory, alignment))
    {
      var l;
      ok, l := Measure(memory, capacity, blockSize, alignment);
      if !ok { return; }
      this.memory, this.blockSize, stride, count, this.alignment := memory + l.start, blockSize, l.stride, l.count,
        alignment;
      assert L() == l;
      Reset();
    }

    ghost function At(address: nat): int
      reads this
    {
      BlockAt(L(), address)
    }

    predicate Serves(size: int, alignment: int)
      reads this
    {
      0 <= size <= blockSize && AlignmentValid(alignment) && alignment <= this.alignment
    }

    /** The position tests of realloc and free. */
    method Find(address: nat, alignment: int) returns (ok: bool, i: nat)
      requires Placed() && AlignmentValid(alignment) && alignment <= this.alignment && address < U64_RANGE
      ensures ok <==> At(address) >= 0
      ensures ok ==> i == At(address)
    {
      LookupIs(L(), address, alignment, buffer.Length);
      var r := Lookup(memory, stride, count, address, alignment);
      ok := r >= 0;
      i := if ok then r else 0;
    }

    lemma HeldLeaves(i: nat)
      requires Valid() && i in blocks.live
      ensures i < count && available < count && i !in blocks.free
    {
      assert |blocks.live| > 0;
    }

    /** The other blocks a client holds are as before. */
    twostate predicate Untouched()
      reads this, buffer
    {
      SameContents(L(), old(buffer[..]), buffer[..], old(blocks.live), blocks.live)
    }

    /** Links a block: the books are kept exactly when a client held it. */
    method Release(ghost i: nat, address: nat)
      requires Valid() && Starts(L(), address, i)
      modifies this`freeList, this`available, this`blocks, buffer
      ensures OnlyBlock(L(), old(buffer[..]), buffer[..], i)
      ensures Sound() <==> i in old(blocks.live)
      ensures i in old(blocks.live) ==> Valid() && blocks == Released(old(blocks), i) && Untouched()
    {
      ghost var b, was, head := blocks, buffer[..], freeList;
      Link(i, address);
      available := available + 1;
      ghost var l, now := L(), buffer[..];
      if i in b.live {
        LinkHeld(l, was, now, b, head, i);
        blocks := Released(b, i);
        assert L() == l && buffer[..] == now && |blocks.free| == available;
        assert Books(blocks);
      } else {
        LinkFree(l, was, now, b, head, i);
      }
    }

    ghost predicate Held(address: nat)
      reads this
    {
      At(address) >= 0 && At(address) in blocks.live
    }

    /** Allocation gives the first free block, exactly when the request can be served. */
    method Alloc(oldSize: int, newSize: int, alignment: int) returns (r: nat)
      requires Valid()
      modifies this`freeList, this`available, this`blocks
      ensures Valid()
      ensures r != 0 <==> oldSize == 0 && newSize > 0 && Serves(newSize, alignment) && old(blocks.free) != []
      ensures r == 0 ==> blocks == old(blocks)
      ensures r != 0 ==> Starts(L(), r, old(blocks.free[0])) && blocks == Taken(old(blocks))
    {
      if blocks.free != [] {
        InBuffer(L(), blocks.free[0], buffer.Length);
        TakePartition(blocks, count);
      }
      if oldSize < 0 || newSize < 0 || !AlignmentValid(alignment) || alignment > this.alignment { return 0; }
      if oldSize != 0 || newSize == 0 || newSize > blockSize || available == 0 || freeList == 0 { return 0; }
      r := freeList;
      freeList := Next(r);
      available := available - 1;
      blocks := Taken(blocks);
    }

    /** The request is refused, whatever the size asked for. */
    ghost predicate Refused(address: nat, size: int, alignment: int)
      reads this
    {
      !Serves(size, alignment) || At(address) < 0 || available >= count
    }

    /** What releasing a block does.  The books are kept exactly when the request is
        refused or the block was held. */
    twostate predicate AfterRelease(address: nat, size: int, alignment: int)
      reads this, buffer
    {
      && (Sound() <==> old(Refused(address, size, alignment)) || At(address) in old(blocks.live))
      && (old(Refused(address, size, alignment)) ==> Valid() && blocks == old(blocks) && buffer[..] == old(buffer[..]))
      && (!old(Refused(address, size, alignment)) && At(address) >= 0
          ==> OnlyBlock(L(), old(buffer[..]), buffer[..], At(address)))
      && (!old(Refused(address, size, alignment)) && At(address) in old(blocks.live) ==>
            Valid() && blocks == Released(old(blocks), At(address)) && Untouched())
    }

    /** Resizing in place, or releasing with size 0; an address at which no block starts is
        refused. */
    method Resize(address: nat, oldSize: int, newSize: int, alignment: int) returns (r: nat)
      requires Valid() && 0 < address < U64_RANGE
      modifies this`freeList, this`available, this`blocks, buffer
      ensures L() == old(L())
      ensures r == if newSize > 0 && !old(Refused(address, oldSize, alignment)) && newSize <= blockSize
                   then address else 0
      ensures newSize != 0 ==> Valid() && blocks == old(blocks) && buffer[..] == old(buffer[..])
      ensures newSize == 0 ==> AfterRelease(address, oldSize, alignment)
    {
      r := 0;
      assert Sound();
      if oldSize < 0 || newSize < 0 || !AlignmentValid(alignment) || alignment > this.alignment { return; }
      var ok, i := Find(address, alignment);
      if !ok || oldSize > blockSize || available >= count { return; }
      if newSize == 0 {
        Release(i, address);
      } else if newSize <= blockSize {
        r := address;
      }
    }

    /** The callback: allocation, resizing and release in one. */
    method Realloc(address: nat, oldSize: int, newSize: int, alignment: int) returns (r: nat)
      requires Valid() && address < U64_RANGE
      modifies this`freeList, this`available, this`blocks, buffer
      ensures L() == old(L())
      ensures address == 0 && old(blocks.free) != [] && oldSize == 0 && newSize > 0 && Serves(newSize, alignment) ==>
        Valid() && r != 0 && Starts(L(), r, old(blocks.free[0])) && blocks == Taken(old(blocks))
          && buffer[..] == old(buffer[..])
      ensures address == 0 && !(old(blocks.free) != [] && oldSize == 0 && newSize > 0 && Serves(newSize, alignment)) ==>
        Valid() && r == 0 && blocks == old(blocks) && buffer[..] == old(buffer[..])
      ensures address != 0 ==>
        r == if newSize > 0 && !old(Refused(address, oldSize, alignment)) && newSize <= blockSize then address else 0
      ensures address != 0 && newSize != 0 ==> Valid() && blocks == old(blocks) && buffer[..] == old(buffer[..])
      ensures address != 0 && newSize == 0 ==> AfterRelease(address, oldSize, alignment)
    {
      if address == 0 {
        r := Alloc(oldSize, newSize, alignment);
      } else {
        r := Resize(address, oldSize, newSize, alignment);
      }
    }

    method Free(address: nat, size: int, alignment: int)
      requires Valid() && address < U64_RANGE
      modifies this`freeList, this`available, this`blocks, buffer
      ensures L() == old(L()) && AfterRelease(address, size, alignment)
    {
      assert Sound();
      if At(address) >= 0 { InBuffer(L(), At(address), buffer.Length); }
      if address == 0 || size < 0 || size > blockSize || !AlignmentValid(alignment) || alignment > this.alignment
        || available >= count {
        return;
      }
      var ok, i := Find(address, alignment);
      if ok { Release(i, address); }
    }

    /** A client that frees a block it holds twice: the second time is harmless exactly
        when it was the last block held. */
    method FreeTwice(address: nat, size: int, alignment: int)
      requires Valid() && address < U64_RANGE && Held(address) && Serves(size, alignment)
      modifies this`freeList, this`available, this`blocks, buffer
      ensures Sound() <==> |old(blocks.live)| == 1
    {
      HeldLeaves(At(address));
      Free(address, size, alignment);
      Free(address, size, alignment);
    }

    /** A client writes into a block it holds. */
    method ClientWrites(i: nat, k: nat, v: Byte)
      requires Valid() && i in blocks.live && k < blockSize
      modifies buffer
      ensures Valid() && OnlyBlock(L(), old(buffer[..]), buffer[..], i)
      ensures forall j | j in blocks.live && j != i :: Contents(L(), buffer[..], j) == old(Contents(L(), buffer[..], j))
    {
      ghost var was := buffer[..];
      HeldLeaves(i);
      InBuffer(L(), i, buffer.Length);
      buffer[memory - origin + Times(i, stride) + k] := v;
      assert OnlyBlock(L(), was, buffer[..], i);
      OthersKept(L(), was, buffer[..], i, blocks.live - {i});
      ChainApart(L(), was, buffer[..], blocks.free, freeList, i);
    }
  }
}
