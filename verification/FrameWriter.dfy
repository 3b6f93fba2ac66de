/** Writing one frame into the input pipe of an encoder child. */
module FrameWriter {
  import opened Bytes

  /** The child's end of the pipe accepts as much of each write as it likes. */
  class Pipe {
    ghost var received: bytes

    /** How many writes made no progress. */
    ghost var refusals: nat

    constructor ()
      ensures received == [] && refusals == 0
    {
      received, refusals := [], 0;
    }

    /** The number of bytes accepted; none when the pipe is closed or stalls. */
    method Write(data: bytes) returns (written: int)
      modifies this
      ensures written <= |data|
      ensures received == old(received) + if written > 0 then data[..written] else []
      ensures refusals == old(refusals) + if written > 0 then 0 else 1
    {
      written := *;
      if written > |data| {
        written := |data|;
      }
      received := received + if written > 0 then data[..written] else [];
      refusals := refusals + if written > 0 then 0 else 1;
    }
  }

  /** Write until nothing remains.  The child gets the whole frame in order, or a prefix of it
      when the pipe refuses a write; it gives up at the first refusal and not before, and the
      loop ends whatever the pipe does. */
  method WriteFrame(pipe: Pipe, frame: bytes) returns (ok: bool)
    modifies pipe
    ensures old(pipe.received) <= pipe.received <= old(pipe.received) + frame
    ensures ok <==> pipe.received == old(pipe.received) + frame
    ensures pipe.refusals == old(pipe.refusals) + if ok then 0 else 1
  {
    var remaining := frame;
    while remaining != []
      invariant |remaining| <= |frame| && remaining == frame[|frame| - |remaining|..]
      invariant pipe.received == old(pipe.received) + frame[..|frame| - |remaining|]
      invariant pipe.refusals == old(pipe.refusals)
      decreases |remaining|
    {
      var written := pipe.Write(remaining);
      if written <= 0 {
        return false;
      }
      remaining := remaining[written..];
    }
    return true;
  }
}
