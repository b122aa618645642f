/** lib/alloc/pool.hc: blocks of one size, the free ones linked through their first word. */
module PoolAllocator {
  import opened Alignment
  import opened PoolBlocks

  /** Where the blocks are: `start` is the offset of the first one in the caller's buffer,
      which begins at the address `origin`. */
  datatype Layout = Layout(origin: nat, start: nat, blockSize: nat, stride: nat, count: nat, alignment: nat) {
    function Off(i: nat): nat { start + Times(i, stride) }

    function Addr(i: nat): nat { origin + Off(i) }

    /** Blocks hold a word, and lie inside a buffer of this length. */
    predicate Fits(length: nat) {
      && origin > 0 && origin + length <= U64_RANGE && length <= I64_MAX
      && WORD <= blockSize <= stride && count > 0 && start + Times(count, stride) <= length
    }

    ghost predicate Aligned() {
      AlignmentValid(alignment) && Mod(origin + start, alignment) == 0 && Mod(stride, alignment) == 0
    }
  }

  predicate Below(s: seq<nat>, count: nat) {
    forall k | 0 <= k < |s| :: s[k] < count
  }

  /** Which blocks are free, in list order, and which the clients hold. */
  datatype Blocks = Blocks(free: seq<nat>, live: set<nat>)

  ghost predicate Partition(b: Blocks, count: nat) {
    && (forall i, j | 0 <= i < j < |b.free| :: b.free[i] != b.free[j])
    && Below(b.free, count) && (forall i | i in b.live :: i < count)
    && (forall i | 0 <= i < count :: i in b.free <==> i !in b.live)
    && |b.free| + |b.live| == count
  }

  function Word(bytes: Bytes, o: nat): nat
    requires o + WORD <= |bytes|
  {
    Load(bytes[o..o + WORD])
  }

  /** From the address `head`, the words of the blocks lead through `free` and end. */
  predicate Chain(l: Layout, bytes: Bytes, free: seq<nat>, head: nat)
    requires l.Fits(|bytes|) && Below(free, l.count)
    decreases |free|
  {
    if free == [] then head == 0 else
    InBuffer(l, free[0], |bytes|);
    head == l.Addr(free[0]) && Chain(l, bytes, free[1..], Word(bytes, l.Off(free[0])))
  }

  // ----- geometry -----

  lemma InBuffer(l: Layout, i: nat, length: nat)
    requires l.Fits(length) && i < l.count
    ensures l.start <= l.Off(i) && l.Off(i) + l.stride <= length && 0 < l.Addr(i) < U64_RANGE
  {
    TimesLess(i, l.count, l.stride);
  }

  lemma Apart(l: Layout, i: nat, j: nat)
    requires i != j
    ensures l.Off(i) + l.stride <= l.Off(j) || l.Off(j) + l.stride <= l.Off(i)
  {
    if i < j { TimesLess(i, j, l.stride); } else { TimesLess(j, i, l.stride); }
  }

  /** A block handed out is aligned as asked, inside the buffer, and apart from the others. */
  lemma BlockGeometry(l: Layout, i: nat, j: nat, length: nat, alignment: nat)
    requires l.Fits(length) && l.Aligned() && i < l.count && i != j && AlignmentValid(alignment)
             && alignment <= l.alignment
    ensures Mod(l.Addr(i), alignment) == 0 && And(l.Addr(i), alignment - 1) == 0
    ensures l.origin <= l.Addr(i) && l.Addr(i) + l.blockSize <= l.origin + length
    ensures l.Addr(i) + l.blockSize <= l.Addr(j) || l.Addr(j) + l.blockSize <= l.Addr(i)
  {
    InBuffer(l, i, length);
    BlockAligned(l, i, alignment);
    Apart(l, i, j);
  }

  lemma BlockAligned(l: Layout, i: nat, alignment: nat)
    requires l.Aligned() && AlignmentValid(alignment) && alignment <= l.alignment
    ensures Mod(l.Addr(i), alignment) == 0 && And(l.Addr(i), alignment - 1) == 0
  {
    TimesMultiple(i, l.stride, l.alignment);
    AddMultiple(l.origin + l.start, Times(i, l.stride), l.alignment);
    WeakerAligned(l.Addr(i), alignment, l.alignment);
  }

  predicate AsManyAsFit(count: nat, stride: nat, room: int) {
    Times(count, stride) <= room < Times(count, stride) + stride
  }

  /** As many blocks as fit behind the padding. */
  lemma LaidOut(origin: nat, length: nat, capacity: nat, blockSize: nat, alignment: nat)
    requires 0 < origin && capacity <= length <= I64_MAX && origin + length <= U64_RANGE
    requires WORD <= blockSize && AlignmentValid(alignment) && Padding(origin, alignment) <= capacity
    ensures var padding, stride := Padding(origin, alignment), blockSize + Padding(blockSize, alignment);
            var count := Div(capacity - padding, stride);
            && AsManyAsFit(count, stride, capacity - padding)
            && (count > 0 <==> stride <= capacity - padding)
            && (count > 0 ==> var l := Layout(origin, padding, blockSize, stride, count,
                                              alignment); l.Fits(length) && l.Aligned())
  {
    var padding, stride := Padding(origin, alignment), blockSize + Padding(blockSize, alignment);
    DivMod(capacity - padding, stride);
  }

  /** Block i starts at this address. */
  ghost predicate Starts(l: Layout, address: nat, i: nat) {
    i < l.count && l.Addr(i) == address
  }

  /** The block that starts at this address, or -1. */
  ghost function BlockAt(l: Layout, address: nat): (r: int)
    ensures r >= 0 ==> Starts(l, address, r)
    ensures r < 0 ==> forall i: nat :: !Starts(l, address, i)
  {
    if i: nat :| Starts(l, address, i) then i else -1
  }

  /** The tests on an address: the index of the block there, or -1. */
  function Lookup(memory: nat, stride: nat, count: nat, address: nat, alignment: nat): int
    requires stride > 0 && alignment > 0
  {
    if And(address, alignment - 1) != 0 || address < memory || address - memory > I64_MAX then -1 else
    var position := address - memory;
    if Mod(position, stride) != 0 || Div(position, stride) >= count then -1 else Div(position, stride)
  }

  /** They find exactly the block that starts there. */
  lemma LookupIs(l: Layout, address: nat, alignment: nat, length: nat)
    requires l.Fits(length) && l.Aligned() && AlignmentValid(alignment) && alignment <= l.alignment
    ensures Lookup(l.origin + l.start, l.stride, l.count, address, alignment) == BlockAt(l, address)
  {
    var memory := l.origin + l.start;
    var i := BlockAt(l, address);
    if i >= 0 {
      BlockAligned(l, i, alignment);
      InBuffer(l, i, length);
      DivModOf(i, 0, l.stride);
    } else if memory <= address {
      var p := address - memory;
      assert !Starts(l, address, Div(p, l.stride));
      DivMod(p, l.stride);
    }
  }

  // ----- the list -----

  predicate SameWord(l: Layout, bytes: Bytes, bytes1: Bytes, i: nat) {
    var o := l.Off(i);
    o + WORD <= |bytes| && |bytes1| == |bytes| && bytes1[o..o + WORD] == bytes[o..o + WORD]
  }

  /** Only the words of the listed blocks matter. */
  lemma {:induction false} ChainKeeps(l: Layout, bytes: Bytes, bytes1: Bytes, free: seq<nat>, head: nat)
    requires l.Fits(|bytes|) && |bytes1| == |bytes| && Below(free, l.count) && Chain(l, bytes, free, head)
    requires forall k | 0 <= k < |free| :: SameWord(l, bytes, bytes1, free[k])
    ensures Chain(l, bytes1, free, head)
    decreases |free|
  {
    if free != [] {
      InBuffer(l, free[0], |bytes|);
      assert SameWord(l, bytes, bytes1, free[0]);
      ChainKeeps(l, bytes, bytes1, free[1..], Word(bytes, l.Off(free[0])));
    }
  }

  /** The two differ at most inside block i. */
  predicate OnlyBlock(l: Layout, bytes: Bytes, bytes1: Bytes, i: nat) {
    && |bytes1| == |bytes|
    && forall k | 0 <= k < |bytes| :: l.Off(i) <= k < l.Off(i) + l.blockSize || bytes1[k] == bytes[k]
  }

  function Contents(l: Layout, bytes: Bytes, i: nat): Bytes {
    var o := l.Off(i);
    if o + l.blockSize <= |bytes| then bytes[o..o + l.blockSize] else []
  }

  /** Blocks held before and after have the bytes they had. */
  ghost predicate SameContents(l: Layout, bytes: Bytes, bytes1: Bytes, before: set<nat>, after: set<nat>) {
    forall j | j in before && j in after :: Contents(l, bytes1, j) == Contents(l, bytes, j)
  }

  lemma OtherBlock(l: Layout, bytes: Bytes, bytes1: Bytes, i: nat, j: nat)
    requires l.Fits(|bytes|) && j < l.count && i != j && OnlyBlock(l, bytes, bytes1, i)
    ensures SameWord(l, bytes, bytes1, j) && Contents(l, bytes1, j) == Contents(l, bytes, j)
  {
    InBuffer(l, j, |bytes|);
    Apart(l, i, j);
  }

  lemma OthersKept(l: Layout, bytes: Bytes, bytes1: Bytes, i: nat, others: set<nat>)
    requires l.Fits(|bytes|) && OnlyBlock(l, bytes, bytes1, i) && forall j | j in others :: j < l.count && j != i
    ensures forall j | j in others :: Contents(l, bytes1, j) == Contents(l, bytes, j)
  {
    forall j | j in others ensures Contents(l, bytes1, j) == Contents(l, bytes, j) {
      OtherBlock(l, bytes, bytes1, i, j);
    }
  }

  /** A change inside a block that is not listed leaves the list as it is. */
  lemma ChainApart(l: Layout, bytes: Bytes, bytes1: Bytes, free: seq<nat>, head: nat, i: nat)
    requires l.Fits(|bytes|) && Below(free, l.count) && Chain(l, bytes, free, head) && i !in free
             && OnlyBlock(l, bytes, bytes1, i)
    ensures Chain(l, bytes1, free, head)
  {
    forall k | 0 <= k < |free| ensures SameWord(l, bytes, bytes1, free[k]) { OtherBlock(l, bytes, bytes1, i, free[k]); }
    ChainKeeps(l, bytes, bytes1, free, head);
  }

  /** A word written at the start of block i. */
  lemma Written(l: Layout, bytes: Bytes, bytes1: Bytes, w: nat, i: nat)
    requires l.Fits(|bytes|) && i < l.count
    requires var o := l.Off(i); o + WORD <= |bytes| && bytes1 == bytes[..o] + Store(w, WORD) + bytes[o + WORD..]
    ensures OnlyBlock(l, bytes, bytes1, i) && bytes1[l.Off(i)..l.Off(i) + WORD] == Store(w, WORD)
  {
  }

  /** Freeing: the old head written into block i makes i the new first block. */
  lemma PushChain(l: Layout, bytes: Bytes, bytes1: Bytes, free: seq<nat>, head: nat, i: nat)
    requires l.Fits(|bytes|) && i < l.count && i !in free && Below(free, l.count) && Chain(l, bytes, free, head)
    requires var o := l.Off(i); o + WORD <= |bytes| && bytes1 == bytes[..o] + Store(head, WORD) + bytes[o + WORD..]
    ensures OnlyBlock(l, bytes, bytes1, i) && Below([i] + free, l.count) && Chain(l, bytes1, [i] + free, l.Addr(i))
  {
    Written(l, bytes, bytes1, head, i);
    ChainApart(l, bytes, bytes1, free, head, i);
    HeadSmall(l, bytes, free, head);
    LoadStore(head, WORD);
    assert ([i] + free)[1..] == free;
  }

  lemma HeadSmall(l: Layout, bytes: Bytes, free: seq<nat>, head: nat)
    requires l.Fits(|bytes|) && Below(free, l.count) && Chain(l, bytes, free, head)
    ensures head < Range(WORD)
  {
    WordRange();
    if free != [] { InBuffer(l, free[0], |bytes|); }
  }

  lemma WordRange()
    ensures Range(WORD) == U64_RANGE
  {
    assert Range(4) == 0x1_0000_0000;
    assert Range(8) == 0x1_0000_0000 * Range(4);
  }

  // ----- who holds what -----

  function Taken(b: Blocks): Blocks
    requires b.free != []
  {
    Blocks(b.free[1..], b.live + {b.free[0]})
  }

  function Released(b: Blocks, i: nat): Blocks {
    Blocks([i] + b.free, b.live - {i})
  }

  lemma TakePartition(b: Blocks, count: nat)
    requires Partition(b, count) && b.free != []
    ensures Partition(Taken(b), count)
  {
    var c := Taken(b);
    assert b.free == [b.free[0]] + c.free;
    assert b.free[0] in b.free && b.free[0] !in c.free;
    forall i | 0 <= i < count ensures i in c.free <==> i !in c.live {
      assert i in b.free <==> i == b.free[0] || i in c.free;
    }
  }

  lemma ReleasePartition(b: Blocks, count: nat, i: nat)
    requires Partition(b, count) && i in b.live
    ensures Partition(Released(b, i), count)
  {
    var c := Released(b, i);
    forall x, y | 0 <= x < y < |c.free| ensures c.free[x] != c.free[y] {
      assert c.free[y] == b.free[y - 1];
      assert b.free[y - 1] in b.free;
      if x > 0 { assert c.free[x] == b.free[x - 1]; }
    }
  }

  // ----- releasing a free block -----

  /** A list that runs through block i still does so after a change inside the block. */
  lemma {:induction false} StillThrough(l: Layout, bytes: Bytes, bytes1: Bytes, free: seq<nat>, other: seq<nat>,
                                        head: nat, i: nat)
    requires l.Fits(|bytes|) && OnlyBlock(l, bytes, bytes1, i) && i in free
    requires Below(free, l.count) && Chain(l, bytes, free, head) && Below(other, l.count)
             && Chain(l, bytes1, other, head)
    ensures i in other
    decreases |free|
  {
    InBuffer(l, free[0], |bytes|);
    if other[0] != free[0] { Apart(l, other[0], free[0]); }
    if free[0] != i {
      OtherBlock(l, bytes, bytes1, i, free[0]);
      StillThrough(l, bytes, bytes1, free[1..], other[1..], Word(bytes, l.Off(free[0])), i);
    }
  }

  /** Linking a block that is free already closes a circle: no books fit the list any more. */
  lemma LinkedTwice(l: Layout, bytes: Bytes, bytes1: Bytes, free: seq<nat>, head: nat, i: nat, c: Blocks)
    requires l.Fits(|bytes|) && Below(free, l.count) && Chain(l, bytes, free, head) && i < l.count && i in free
    requires var o := l.Off(i); o + WORD <= |bytes| && bytes1 == bytes[..o] + Store(head, WORD) + bytes[o + WORD..]
    requires Partition(c, l.count)
    ensures !Chain(l, bytes1, c.free, l.Addr(i))
  {
    if Chain(l, bytes1, c.free, l.Addr(i)) {
      InBuffer(l, i, |bytes|);
      if c.free[0] != i { Apart(l, c.free[0], i); }
      Written(l, bytes, bytes1, head, i);
      HeadSmall(l, bytes, free, head);
      LoadStore(head, WORD);
      StillThrough(l, bytes, bytes1, free, c.free[1..], head, i);
      assert exists k | 1 <= k < |c.free| :: c.free[k] == i;
      assert false;
    }
  }

  /** bytes1 is bytes with the head stored in block i. */
  predicate Linked(l: Layout, bytes: Bytes, bytes1: Bytes, head: nat, i: nat) {
    var o := l.Off(i);
    o + WORD <= |bytes| && bytes1 == bytes[..o] + Store(head, WORD) + bytes[o + WORD..]
  }

  ghost predicate BooksFit(l: Layout, bytes: Bytes, b: Blocks, head: nat) {
    l.Fits(|bytes|) && Partition(b, l.count) && Chain(l, bytes, b.free, head)
  }

  lemma LinkHeld(l: Layout, bytes: Bytes, bytes1: Bytes, b: Blocks, head: nat, i: nat)
    requires BooksFit(l, bytes, b, head) && i in b.live && Linked(l, bytes, bytes1, head, i)
    ensures OnlyBlock(l, bytes, bytes1, i) && BooksFit(l, bytes1, Released(b, i), l.Addr(i))
    ensures SameContents(l, bytes, bytes1, b.live, Released(b, i).live)
  {
    PushChain(l, bytes, bytes1, b.free, head, i);
    ReleasePartition(b, l.count, i);
    OthersKept(l, bytes, bytes1, i, b.live - {i});
  }

  lemma LinkFree(l: Layout, bytes: Bytes, bytes1: Bytes, b: Blocks, head: nat, i: nat)
    requires BooksFit(l, bytes, b, head) && i < l.count && i !in b.live && Linked(l, bytes, bytes1, head, i)
    ensures OnlyBlock(l, bytes, bytes1, i) && forall c :: !BooksFit(l, bytes1, c, l.Addr(i))
  {
    Written(l, bytes, bytes1, head, i);
    forall c | Partition(c, l.count) ensures !Chain(l, bytes1, c.free, l.Addr(i)) {
      LinkedTwice(l, bytes, bytes1, b.free, head, i, c);
    }
  }

  /** Linking a block, with the head and the bytes as they are then, leaves a list that some
      books fit exactly when a client held the block. */
  lemma ReleaseKeepsIff(l: Layout, bytes: Bytes, bytes1: Bytes, b: Blocks, head: nat, i: nat)
    requires BooksFit(l, bytes, b, head) && i < l.count && Linked(l, bytes, bytes1, head, i)
    ensures (exists c :: BooksFit(l, bytes1, c, l.Addr(i))) <==> i in b.live
  {
    if i in b.live {
      LinkHeld(l, bytes, bytes1, b, head, i);
    } else {
      LinkFree(l, bytes, bytes1, b, head, i);
    }
  }

  /** Two blocks, of which block 0 is held and block 1 is the only free one.  Releasing
      block 1 again links it to itself, and no books fit that list. */
  lemma DoubleRelease(l: Layout, bytes: Bytes, bytes1: Bytes)
    requires l.Fits(|bytes|) && l.count == 2 && l.Off(1) + WORD <= |bytes| && Word(bytes, l.Off(1)) == 0
    requires Linked(l, bytes, bytes1, l.Addr(1), 1)
    ensures BooksFit(l, bytes, Blocks([1], {0}), l.Addr(1)) && forall c :: !BooksFit(l, bytes1, c, l.Addr(1))
  {
    var b := Blocks([1], {0});
    assert b.free[1..] == [];
    assert Chain(l, bytes, b.free[1..], 0);
    LinkFree(l, bytes, bytes1, b, l.Addr(1), 1);
  }

  function UpTo(i: nat, count: nat): (s: seq<nat>)
    requires i <= count
    ensures |s| == count - i && forall k | 0 <= k < count - i :: s[k] == i + k
  {
    seq(count - i, k requires 0 <= k < count - i => i + k)
  }

  lemma UpToStep(i: nat, count: nat)
    requires i < count
    ensures i !in UpTo(i + 1, count) && [i] + UpTo(i + 1, count) == UpTo(i, count)
  {
  }

  lemma AllFree(count: nat)
    ensures Partition(Blocks(UpTo(0, count), {}), count)
  {
    forall i | 0 <= i < count ensures i in UpTo(0, count) { assert UpTo(0, count)[i] == i; }
  }
}
