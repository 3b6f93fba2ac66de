/** The latest-frame queue of one encoder channel, bounded by frames and by bytes. */
module FrameQueue {

  const MAX_QUEUED_BYTES: nat := 0x400_0000

  datatype Frame = Frame(sequence: nat, bytes: nat, stamp: int)

  function Bytes(q: seq<Frame>): nat {
    if q == [] then 0 else q[0].bytes + Bytes(q[1..])
  }

  lemma {:induction false} BytesAppend(q: seq<Frame>, r: seq<Frame>)
    ensures Bytes(q + r) == Bytes(q) + Bytes(r)
  {
    if q == [] {
      assert q + r == r;
    } else {
      assert (q + r)[1..] == q[1..] + r;
      BytesAppend(q[1..], r);
    }
  }

  predicate Fits(q: seq<Frame>, depth: nat) {
    |q| <= depth && Bytes(q) <= MAX_QUEUED_BYTES
  }

  // ---------- The eviction rule ----------

  /** No room for one more frame of `size` bytes. */
  predicate Full(q: seq<Frame>, size: nat, depth: nat) {
    |q| == depth || Bytes(q) + size > MAX_QUEUED_BYTES
  }

  /** Drop the oldest frames until there is room. */
  function Evict(q: seq<Frame>, size: nat, depth: nat): (r: seq<Frame>)
    ensures |r| <= |q|
  {
    if q != [] && Full(q, size, depth) then Evict(q[1..], size, depth) else q
  }

  lemma {:induction false} EvictLeavesSuffix(q: seq<Frame>, size: nat, depth: nat)
    ensures var r := Evict(q, size, depth); r == q[|q| - |r|..]
  {
    if q != [] && Full(q, size, depth) { EvictLeavesSuffix(q[1..], size, depth); }
  }

  function Offer(q: seq<Frame>, f: Frame, depth: nat): seq<Frame> {
    Evict(q, f.bytes, depth) + [f]
  }

  /** What `Evict` leaves has room, unless it is empty. */
  lemma {:induction false} EvictMakesRoom(q: seq<Frame>, size: nat, depth: nat)
    requires |q| <= depth && depth > 0 && size <= MAX_QUEUED_BYTES
    ensures var r := Evict(q, size, depth); |r| < depth && Bytes(r) + size <= MAX_QUEUED_BYTES
  {
    if q != [] && Full(q, size, depth) { EvictMakesRoom(q[1..], size, depth); }
  }

  lemma OfferFits(q: seq<Frame>, f: Frame, depth: nat)
    requires |q| <= depth && depth > 0 && f.bytes <= MAX_QUEUED_BYTES
    ensures Fits(Offer(q, f, depth), depth)
    ensures |Offer(q, f, depth)| >= 1
  {
    EvictMakesRoom(q, f.bytes, depth);
    BytesAppend(Evict(q, f.bytes, depth), [f]);
  }

  // ---------- A simple specification: the longest suffix that fits ----------

  /** `q` is a suffix of the history that fits, and no longer suffix does. */
  ghost predicate LongestFit(history: seq<Frame>, q: seq<Frame>, depth: nat) {
    && |q| <= |history| && q == history[|history| - |q|..]
    && Fits(q, depth)
    && forall i :: 0 <= i < |history| - |q| ==> !Fits(history[i..], depth)
  }

  lemma {:induction false} SuffixFits(q: seq<Frame>, k: nat, depth: nat)
    requires k <= |q| && Fits(q, depth)
    ensures Fits(q[k..], depth)
  {
    assert q == q[..k] + q[k..];
    BytesAppend(q[..k], q[k..]);
  }

  /** No suffix of `q` longer than what `Evict` keeps leaves room for the frame. */
  lemma {:induction false} EvictKeepsMost(q: seq<Frame>, f: Frame, depth: nat, i: nat)
    requires |q| <= depth && i < |q| - |Evict(q, f.bytes, depth)|
    ensures !Fits(q[i..] + [f], depth)
  {
    if i == 0 {
      assert q[0..] == q;
      BytesAppend(q, [f]);
    } else {
      EvictKeepsMost(q[1..], f, depth, i - 1);
      assert q[i..] == q[1..][i - 1..];
    }
  }

  lemma LongerDoesNotFit(history: seq<Frame>, q: seq<Frame>, f: Frame, depth: nat, i: nat)
    requires LongestFit(history, q, depth)
    requires i < |history| - |Evict(q, f.bytes, depth)|
    ensures !Fits(history[i..] + [f], depth)
  {
    var cut := |history| - |q|;
    if i < cut {
      BytesAppend(history[i..], [f]);
    } else {
      assert history[i..] == q[i - cut..];
      EvictKeepsMost(q, f, depth, i - cut);
    }
  }

  lemma SuffixOfSuffix(history: seq<Frame>, q: seq<Frame>, kept: seq<Frame>, f: Frame)
    requires |q| <= |history| && q == history[|history| - |q|..]
    requires |kept| <= |q| && kept == q[|q| - |kept|..]
    ensures var h, r := history + [f], kept + [f]; |r| <= |h| && r == h[|h| - |r|..]
  {
    assert kept == history[|history| - |kept|..];
  }

  lemma OfferIsSuffix(history: seq<Frame>, q: seq<Frame>, f: Frame, depth: nat)
    requires |q| <= |history| && q == history[|history| - |q|..]
    ensures var h, r := history + [f], Offer(q, f, depth); |r| <= |h| && r == h[|h| - |r|..]
  {
    EvictLeavesSuffix(q, f.bytes, depth);
    SuffixOfSuffix(history, q, Evict(q, f.bytes, depth), f);
  }

  /** Offering a frame keeps the queue the longest fitting suffix of what was offered. */
  lemma OfferKeepsLongestFit(history: seq<Frame>, q: seq<Frame>, f: Frame, depth: nat)
    requires depth > 0 && f.bytes <= MAX_QUEUED_BYTES
    requires LongestFit(history, q, depth)
    ensures LongestFit(history + [f], Offer(q, f, depth), depth)
  {
    OfferFits(q, f, depth);
    OfferIsSuffix(history, q, f, depth);
    var h, r := history + [f], Offer(q, f, depth);
    forall i | 0 <= i < |h| - |r| ensures !Fits(h[i..], depth) {
      LongerDoesNotFit(history, q, f, depth, i);
      assert h[i..] == history[i..] + [f];
    }
  }

  /** Any number of frames offered one after the other. */
  function OfferAll(q: seq<Frame>, frames: seq<Frame>, depth: nat): seq<Frame> {
    if frames == [] then q else Offer(OfferAll(q, frames[..|frames|-1], depth), frames[|frames|-1], depth)
  }

  /** After any run of frames offered to an empty queue, it holds the longest suffix of
      them that fits both bounds. */
  lemma {:induction false} QueueIsLongestFit(frames: seq<Frame>, depth: nat)
    requires depth > 0 && forall k :: 0 <= k < |frames| ==> frames[k].bytes <= MAX_QUEUED_BYTES
    ensures LongestFit(frames, OfferAll([], frames, depth), depth)
  {
    if frames == [] {
      NothingFits(depth);
    } else {
      var before, last := frames[..|frames|-1], frames[|frames|-1];
      QueueIsLongestFit(before, depth);
      OfferKeepsLongestFit(before, OfferAll([], before, depth), last, depth);
      assert frames == before + [last];
    }
  }

  lemma NothingFits(depth: nat)
    ensures LongestFit([], [], depth)
  {
  }

  // ---------- The channel ----------

  /** Append to a bounded deque, which silently drops its head when it is full. */
  function Append(q: seq<Frame>, f: Frame, depth: nat): seq<Frame> {
    if |q| >= depth && q != [] then q[1..] + [f] else q + [f]
  }

  lemma EvictStep(q: seq<Frame>, size: nat, depth: nat)
    ensures Evict(q, size, depth) == if q != [] && Full(q, size, depth) then Evict(q[1..], size, depth) else q
  {
  }

  /** Once there is room the deque appends without dropping, which completes the offer. */
  lemma AppendIsOffer(q: seq<Frame>, f: Frame, depth: nat)
    requires |q| <= depth && depth > 0 && f.bytes <= MAX_QUEUED_BYTES
    requires q == [] || !Full(q, f.bytes, depth)
    ensures Append(q, f, depth) == q + [f] == Offer(q, f, depth)
    ensures Fits(q + [f], depth) && Bytes(q + [f]) == Bytes(q) + f.bytes
  {
    BytesAppend(q, [f]);
  }

  /** One consumer's queue.  All methods run under the runtime's frame lock. */
  class EncoderChannel {
    const depth: nat
    var pending: seq<Frame>
    var pendingBytes: int
    var active: bool
    var stopping: bool
    var framesDropped: nat

    predicate Valid()
      reads this
    {
      && depth > 0 && Fits(pending, depth) && pendingBytes == Bytes(pending)
      && (pending != [] ==> active && !stopping)
    }

    constructor (depth: nat)
      requires depth > 0
      ensures Valid() && this.depth == depth && pending == [] && !active && !stopping && framesDropped == 0
    {
      this.depth := depth;
      pending, pendingBytes := [], 0;
      active, stopping, framesDropped := false, false, 0;
    }

    /** Queue a frame for an active channel.  Every frame that leaves the queue is counted,
        so the bounded deque itself never drops one. */
    method Enqueue(frame: Frame)
      requires Valid() && frame.bytes <= MAX_QUEUED_BYTES
      modifies this
      ensures Valid() && active == old(active) && stopping == old(stopping)
      ensures pending == if active && !stopping then Offer(old(pending), frame, depth) else old(pending)
      ensures framesDropped - old(framesDropped) + |pending|
              == old(|pending|) + if active && !stopping then 1 else 0
    {
      if !active || stopping {
        return;
      }
      MakeRoom(frame.bytes);
      AppendIsOffer(pending, frame, depth);
      pending, pendingBytes := Append(pending, frame, depth), pendingBytes + frame.bytes;
    }

    /** The eviction loop. */
    method MakeRoom(size: nat)
      requires Valid()
      modifies this
      ensures Valid() && active == old(active) && stopping == old(stopping)
      ensures pending == Evict(old(pending), size, depth) && (pending == [] || !Full(pending, size, depth))
      ensures framesDropped - old(framesDropped) + |pending| == old(|pending|)
    {
      ghost var kept := Evict(pending, size, depth);
      while pending != [] && (|pending| == depth || pendingBytes + size > MAX_QUEUED_BYTES)
        invariant Valid() && active == old(active) && stopping == old(stopping)
        invariant Evict(pending, size, depth) == kept
        invariant framesDropped - old(framesDropped) + |pending| == old(|pending|)
        decreases |pending|
      {
        EvictStep(pending, size, depth);
        DropOldest();
      }
      EvictStep(pending, size, depth);
    }

    method DropOldest()
      requires Valid() && pending != []
      modifies this
      ensures Valid() && pending == old(pending)[1..] && framesDropped == old(framesDropped) + 1
      ensures active == old(active) && stopping == old(stopping)
    {
      var dropped := Take();
      framesDropped := framesDropped + 1;
    }

    /** The oldest frame, for the pump. */
    method Take() returns (frame: Frame)
      requires Valid() && pending != []
      modifies this
      ensures Valid() && old(pending) == [frame] + pending
      ensures active == old(active) && stopping == old(stopping) && framesDropped == old(framesDropped)
    {
      frame := pending[0];
      SuffixFits(pending, 1, depth);
      pendingBytes := pendingBytes - frame.bytes;
      pending := pending[1..];
    }

    /** The start of a deactivation: nothing queued survives it. */
    method BeginStop()
      requires Valid()
      modifies this
      ensures Valid() && pending == [] && stopping && active == old(active) && framesDropped == old(framesDropped)
    {
      stopping := true;
      pending, pendingBytes := [], 0;
    }

    method SetActive(on: bool)
      requires Valid() && (on ==> !stopping) && (!on ==> stopping)
      modifies this
      ensures Valid() && active == on && !stopping
      ensures pending == old(pending) && framesDropped == old(framesDropped)
    {
      active, stopping := on, false;
    }
  }
}
