/** src/back_js.c: the parts of the JavaScript runtime that a program needs, marked with
    what they depend on. */
module RtChunks {

  datatype Chunk = Chunk(name: string, deps: seq<string>)

  /** Without exceptions a throw is a crash. */
  function Redirect(name: string, exceptions: bool): string {
    if !exceptions && name == "hcThrow" then "hcCrashFn" else name
  }

  /** The first chunk of this name, or the number of chunks. */
  function Find(chunks: seq<Chunk>, name: string, i: nat): (r: nat)
    requires i <= |chunks|
    ensures i <= r <= |chunks|
    ensures r < |chunks| ==> chunks[r].name == name
    ensures forall k | i <= k < r :: chunks[k].name != name
    decreases |chunks| - i
  {
    if i == |chunks| || chunks[i].name == name then i else Find(chunks, name, i + 1)
  }

  function Resolve(chunks: seq<Chunk>, exceptions: bool, name: string): (r: nat)
    ensures r <= |chunks|
  {
    Find(chunks, Redirect(name, exceptions), 0)
  }

  /** S has the chunk of this name, if there is one. */
  predicate Has(chunks: seq<Chunk>, exceptions: bool, S: set<nat>, name: string) {
    Resolve(chunks, exceptions, name) < |chunks| ==> Resolve(chunks, exceptions, name) in S
  }

  /** What chunk i depends on is in S. */
  predicate Served(chunks: seq<Chunk>, exceptions: bool, S: set<nat>, i: nat) {
    i < |chunks| ==> forall d | 0 <= d < |chunks[i].deps| :: Has(chunks, exceptions, S, chunks[i].deps[d])
  }

  ghost predicate ClosedUnder(chunks: seq<Chunk>, exceptions: bool, S: set<nat>) {
    forall i | i in S :: Served(chunks, exceptions, S, i)
  }

  /** The smallest set with the requested chunks and all they depend on. */
  ghost predicate Needed(chunks: seq<Chunk>, exceptions: bool, names: seq<string>, S: set<nat>) {
    && ClosedUnder(chunks, exceptions, S) && (forall k | 0 <= k < |names| :: Has(chunks, exceptions, S, names[k]))
    && forall C: set<nat> | ClosedUnder(chunks, exceptions, C)
      && (forall k | 0 <= k < |names| :: Has(chunks, exceptions, C, names[k])) :: S <= C
  }

  /** The order and the repetition of requests do not matter. */
  lemma NeededOnce(chunks: seq<Chunk>, exceptions: bool, a: seq<string>, b: seq<string>, S: set<nat>, T: set<nat>)
    requires Needed(chunks, exceptions, a, S) && Needed(chunks, exceptions, b, T)
    requires forall x :: x in a <==> x in b
    ensures S == T
  {
    forall k | 0 <= k < |a| ensures Has(chunks, exceptions, T, a[k]) {
      assert a[k] in b;
      var j :| 0 <= j < |b| && b[j] == a[k];
    }
    forall k | 0 <= k < |b| ensures Has(chunks, exceptions, S, b[k]) {
      assert b[k] in a;
      var j :| 0 <= j < |a| && a[j] == b[k];
    }
  }

  /** S is in every closed set that has `was` and the chunk of this name. */
  ghost predicate Least(chunks: seq<Chunk>, exceptions: bool, was: set<nat>, name: string, S: set<nat>) {
    forall C: set<nat> | ClosedUnder(chunks, exceptions, C) && was <= C && Has(chunks, exceptions, C, name) :: S <= C
  }

  lemma StillLeast(chunks: seq<Chunk>, exceptions: bool, start: set<nat>, name: string, i: nat, d: nat,
                   before: set<nat>, after: set<nat>)
    requires i < |chunks| && d < |chunks[i].deps| && i in before
    requires Least(chunks, exceptions, start, name, before)
    requires Least(chunks, exceptions, before, chunks[i].deps[d], after)
    ensures Least(chunks, exceptions, start, name, after)
  {
    forall C: set<nat> | ClosedUnder(chunks, exceptions, C) && start <= C && Has(chunks, exceptions, C, name)
      ensures after <= C
    {
      assert before <= C && i in C && Served(chunks, exceptions, C, i);
    }
  }

  // ----- the names used without exceptions -----

  /** Chunk i is the one of this name. */
  predicate Called(chunks: seq<Chunk>, i: nat, name: string) {
    i < |chunks| && chunks[i].name == name && forall k | 0 <= k < i :: chunks[k].name != name
  }

  lemma {:induction false} FindCalled(chunks: seq<Chunk>, name: string, i: nat, from: nat)
    requires Called(chunks, i, name) && from <= i
    ensures Find(chunks, name, from) == i
    decreases i - from
  {
    if from < i { FindCalled(chunks, name, i, from + 1); }
  }

  /** Where `name` is requested or needed, the chunk `marked` is, if there is one. */
  ghost predicate Marks(chunks: seq<Chunk>, names: seq<string>, S: set<nat>, name: string, marked: string) {
    forall i | Called(chunks, i, marked)
               && (name in names || exists j | j in S && j < |chunks| :: name in chunks[j].deps) :: i in S
  }

  lemma HasCalled(chunks: seq<Chunk>, exceptions: bool, names: seq<string>, S: set<nat>, name: string, i: nat)
    requires Needed(chunks, exceptions, names, S) && Called(chunks, i, Redirect(name, exceptions))
    requires name in names || exists j | j in S && j < |chunks| :: name in chunks[j].deps
    ensures i in S
  {
    FindCalled(chunks, Redirect(name, exceptions), i, 0);
    if name in names {
      var k :| 0 <= k < |names| && names[k] == name;
      assert Has(chunks, exceptions, S, names[k]);
    } else {
      var j :| j in S && j < |chunks| && name in chunks[j].deps;
      var d :| 0 <= d < |chunks[j].deps| && chunks[j].deps[d] == name;
      assert Served(chunks, exceptions, S, j) && Has(chunks, exceptions, S, chunks[j].deps[d]);
    }
  }

  /** With exceptions every name means its own chunk. */
  lemma WithExceptions(chunks: seq<Chunk>, names: seq<string>, S: set<nat>, name: string)
    requires Needed(chunks, true, names, S)
    ensures Marks(chunks, names, S, name, name)
  {
    forall i | Called(chunks, i, name)
               && (name in names || exists j | j in S && j < |chunks| :: name in chunks[j].deps)
      ensures i in S
    {
      HasCalled(chunks, true, names, S, name, i);
    }
  }

  /** Without exceptions a throw means the crash function, all else its own chunk, and no chunk
      called hcThrow is ever marked. */
  lemma WithoutExceptions(chunks: seq<Chunk>, names: seq<string>, S: set<nat>, name: string)
    requires Needed(chunks, false, names, S)
    ensures Marks(chunks, names, S, name, if name == "hcThrow" then "hcCrashFn" else name)
    ensures forall i | i in S && i < |chunks| :: chunks[i].name != "hcThrow"
  {
    var marked := if name == "hcThrow" then "hcCrashFn" else name;
    forall i | Called(chunks, i, marked)
               && (name in names || exists j | j in S && j < |chunks| :: name in chunks[j].deps)
      ensures i in S
    {
      HasCalled(chunks, false, names, S, name, i);
    }
    NoThrow(chunks, names, S);
  }

  lemma NoThrow(chunks: seq<Chunk>, names: seq<string>, S: set<nat>)
    requires Needed(chunks, false, names, S)
    ensures forall i | i in S && i < |chunks| :: chunks[i].name != "hcThrow"
  {
    var C := set i | i in S && (i < |chunks| ==> chunks[i].name != "hcThrow");
    forall n: string | Has(chunks, false, S, n) ensures Has(chunks, false, C, n) {}
    forall i | i in C ensures Served(chunks, false, C, i) {
      assert Served(chunks, false, S, i);
    }
    assert S <= C;
  }

  class JsRuntime {
    const chunks: seq<Chunk>
    const exceptions: bool
    var inc: set<nat>

    constructor (chunks: seq<Chunk>, exceptions: bool)
      ensures this.chunks == chunks && this.exceptions == exceptions && inc == {}
    {
      this.chunks, this.exceptions, inc := chunks, exceptions, {};
    }

    ghost predicate Valid()
      reads this
    {
      forall i | i in inc :: i < |chunks|
    }

    /** What is not marked yet. */
    ghost function Left(): set<nat>
      reads this
    {
      Below(|chunks|) - inc
    }

    /** New marks are needed by every closed set that has the old ones and the name, and
        what they depend on is marked. */
    method MarkChunk(name: string)
      requires Valid()
      modifies this
      ensures Valid() && old(inc) <= inc && Has(chunks, exceptions, inc, name)
      ensures forall i | i in inc && i !in old(inc) :: Served(chunks, exceptions, inc, i)
      ensures Least(chunks, exceptions, old(inc), name, inc)
      decreases Left()
    {
      var i := Resolve(chunks, exceptions, name);
      if i == |chunks| || i in inc { return; }
      assert i in Left();
      inc := inc + {i};
      var deps := chunks[i].deps;
      for d := 0 to |deps|
        invariant Valid() && old(inc) + {i} <= inc
        invariant forall k | 0 <= k < d :: Has(chunks, exceptions, inc, deps[k])
        invariant forall j | j in inc && j !in old(inc) && j != i :: Served(chunks, exceptions, inc, j)
        invariant Least(chunks, exceptions, old(inc), name, inc)
      {
        assert Left() < old(Left()) by { assert i in old(Left()) && i !in Left(); }
        ghost var was := inc;
        MarkChunk(deps[d]);
        StillLeast(chunks, exceptions, old(inc), name, i, d, was, inc);
      }
    }

    /** rt: any sequence of requests marks exactly what is needed. */
    method Request(names: seq<string>)
      requires inc == {}
      modifies this
      ensures Needed(chunks, exceptions, Aliases(names, exceptions), inc)
    {
      ghost var asked := Aliases(names, exceptions);
      for n := 0 to |names|
        invariant Valid() && ClosedUnder(chunks, exceptions, inc)
        invariant forall k | 0 <= k < n :: Has(chunks, exceptions, inc, asked[k])
        invariant forall C: set<nat> | ClosedUnder(chunks, exceptions, C)
                  && (forall k | 0 <= k < n :: Has(chunks, exceptions, C, asked[k])) :: inc <= C
      {
        ghost var was := inc;
        MarkChunk(if !exceptions && names[n] == "hcVCall" then "hcNoExceptVCall" else names[n]);
        forall i | i in inc ensures Served(chunks, exceptions, inc, i) {
          if i in was { assert Served(chunks, exceptions, was, i); }
        }
      }
    }
  }

  function Below(n: nat): (s: set<nat>)
    ensures forall i: nat :: i in s <==> i < n
  {
    if n == 0 then {} else Below(n - 1) + {n - 1}
  }

  /** What is marked for these requests: calls through pointers have another form without
      exceptions. */
  function Aliases(names: seq<string>, exceptions: bool): (r: seq<string>)
    ensures |r| == |names|
    ensures exceptions ==> r == names
    ensures !exceptions ==>
              forall i | 0 <= i < |names| :: r[i] == if names[i] == "hcVCall" then "hcNoExceptVCall" else names[i]
  {
    seq(|names|, i requires 0 <= i < |names| =>
      if !exceptions && names[i] == "hcVCall" then "hcNoExceptVCall" else names[i])
  }
}
