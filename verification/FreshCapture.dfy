/** The retained latest frame, and captures that wait for one newer than the request. */
module FreshCapture {
  import opened Threads
  import opened FrameQueue

  /** What other threads do while a capture waits: the sizes and stamps of the frames that are
      accepted, whether the runtime starts to close, and whether the deadline passes. */
  datatype Wake = Wake(arrivals: seq<(nat, int)>, closes: bool, expires: bool)

  /** A frame arrives before the runtime starts to close and before the deadline passes. */
  ghost predicate ArrivesInTime(closing: bool, wakes: seq<Wake>) {
    !closing && exists i :: 0 <= i < |wakes| && FirstArrival(wakes, i)
  }

  ghost predicate FirstArrival(wakes: seq<Wake>, i: nat)
    requires i < |wakes|
  {
    wakes[i].arrivals != [] && forall j :: 0 <= j < i ==> !wakes[j].closes && !wakes[j].expires
  }

  class FrameStore {
    var framesIn: nat
    var latest: Option<Frame>
    var closing: bool

    /** The retained frame is the one accepted last. */
    predicate Valid()
      reads this
    {
      if framesIn == 0 then latest == None else latest.Some? && latest.value.sequence == framesIn
    }

    constructor ()
      ensures Valid() && framesIn == 0 && !closing
    {
      framesIn, latest, closing := 0, None, false;
    }

    /** Number and retain a frame, unless the runtime is closing. */
    method Enqueue(bytes: nat, stamp: int) returns (accepted: bool)
      requires Valid()
      modifies this
      ensures Valid() && closing == old(closing) && accepted == !closing
      ensures framesIn == old(framesIn) + if accepted then 1 else 0
      ensures latest == if accepted then Some(Frame(framesIn, bytes, stamp)) else old(latest)
    {
      if closing {
        return false;
      }
      framesIn := framesIn + 1;
      latest := Some(Frame(framesIn, bytes, stamp));
      return true;
    }

    /** One wait on the frame condition. */
    method Wait(wake: Wake)
      requires Valid()
      modifies this
      ensures Valid() && framesIn >= old(framesIn)
      ensures framesIn == old(framesIn) ==> latest == old(latest)
      ensures framesIn == old(framesIn) + if old(closing) then 0 else |wake.arrivals|
      ensures closing == (old(closing) || wake.closes)
    {
      for i := 0 to |wake.arrivals|
        invariant Valid() && framesIn >= old(framesIn)
        invariant framesIn == old(framesIn) ==> latest == old(latest)
        invariant closing == old(closing) && framesIn == old(framesIn) + if closing then 0 else i
      {
        var accepted := Enqueue(wake.arrivals[i].0, wake.arrivals[i].1);
      }
      closing := closing || wake.closes;
    }

    /** A capture never reuses a frame from before a request for a fresh one, and comes back
        empty-handed exactly if none arrives before the runtime starts to close or the deadline
        passes.  The deadline has passed once `wakes` are used up. */
    method Capture(requireFresh: bool, wakes: seq<Wake>) returns (frame: Option<Frame>)
      requires Valid()
      modifies this
      ensures Valid()
      ensures !requireFresh ==> frame == old(latest) && framesIn == old(framesIn)
      ensures requireFresh ==> (frame.Some? <==> framesIn > old(framesIn))
      ensures requireFresh ==> (frame.Some? <==> ArrivesInTime(old(closing), wakes))
      ensures requireFresh && frame.Some? ==> frame == latest && frame.value.sequence > old(framesIn)
    {
      if requireFresh {
        var request, expired, i := framesIn, false, 0;
        while framesIn <= request
          invariant Valid() && framesIn >= request && i <= |wakes|
          invariant i == 0 ==> framesIn == request && closing == old(closing) && !expired
          invariant i > 0 ==> !old(closing) && closing == wakes[i - 1].closes && expired == wakes[i - 1].expires
          invariant i > 0 ==> (framesIn > request <==> wakes[i - 1].arrivals != [])
          invariant forall j :: 0 <= j < i - 1 ==>
                      wakes[j].arrivals == [] && !wakes[j].closes && !wakes[j].expires
          decreases |wakes| - i
        {
          if closing || expired || i == |wakes| {
            return None;
          }
          Wait(wakes[i]);
          expired, i := wakes[i].expires, i + 1;
        }
        assert FirstArrival(wakes, i - 1);
      }
      return latest;
    }
  }
}
