/** The frame stack of runtime/rt.c.  A frame stands for one execution of setjmp
    and is identified by a number that is never reused. */
module TryFrames {

  const TRY_MAX := 256

  /** What `throw` does with the stack: nothing to unwind to, or control resumes at
      the popped top frame. */
  datatype Unwind = NoFrame | Resume(frame: nat, frames: seq<nat>)

  function UnwindTop(frames: seq<nat>): Unwind {
    if frames == [] then NoFrame else Resume(frames[|frames| - 1], frames[..|frames| - 1])
  }

  /** `hc_frames`, `hc_ntry` and the two task fields. */
  class Runtime {
    const slots: array<nat>
    var count: nat
    var exceptCh: int
    var catchExcept: int

    ghost predicate Valid()
      reads this
    {
      slots.Length == TRY_MAX && count <= TRY_MAX
    }

    ghost function Frames(): seq<nat>
      requires Valid()
      reads this, slots
    {
      slots[..count]
    }

    constructor ()
      ensures Valid() && Frames() == [] && fresh(slots)
    {
      slots := new nat[TRY_MAX];
      count, exceptCh, catchExcept := 0, 0, 0;
    }

    /** __hc_try_push followed by the setjmp that fills the frame; `ok` is false
        when the nesting limit makes the process exit. */
    method TryPush(frame: nat) returns (ok: bool)
      requires Valid()
      modifies this`count, slots
      ensures Valid()
      ensures ok <==> |old(Frames())| < TRY_MAX
      ensures Frames() == if ok then old(Frames()) + [frame] else old(Frames())
    {
      if count >= TRY_MAX {
        return false;
      }
      slots[count] := frame;
      count := count + 1;
      return true;
    }

    /** __hc_try_pop. */
    method TryPop()
      requires Valid() && Frames() != []
      modifies this`count
      ensures Valid()
      ensures Frames() == old(Frames())[..|old(Frames())| - 1]
    {
      count := count - 1;
    }

    /** throw: record the exception, then leave through the top frame. */
    method Throw(ch: int) returns (r: Unwind)
      requires Valid()
      modifies this
      ensures Valid()
      ensures exceptCh == ch && catchExcept == 0
      ensures r == UnwindTop(old(Frames()))
      ensures r.Resume? ==> Frames() == r.frames
      ensures r.NoFrame? ==> Frames() == []
    {
      exceptCh := ch;
      catchExcept := 0;
      if count > 0 {
        count := count - 1;
        r := Resume(slots[count], slots[..count]);
      } else {
        r := NoFrame;
      }
    }
  }
}
