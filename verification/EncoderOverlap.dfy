/** Two overlapping stops misattribute a stamp. */
module EncoderOverlap {
  import opened Threads
  import opened EncoderProtocol
  import opened EncoderPairing

  const STARTER := Client(0)
  const OLDER := Client(1)
  const NEWER := Client(2)
  const LATE := Client(3)
  const NEXT := Client(4)

  function Both(c: nat): set<Reader> {
    {Reader(c, false), Reader(c, true)}
  }

  predicate Calm(s: State, t: Tid) {
    At(s, t) == Idle
  }

  /** Child `c` has just been started and nothing else is going on in the encoder. */
  predicate Fresh(s: State, c: nat) {
    && s.preview && |s.children| == c + 1 && s.proc == Some(c) && !s.stopping
    && s.children[c] == Child(false, [], 0, false, [])
    && s.readers == Both(c) && s.alive == Both(c) && s.queue == []
    && s.lifecycle == None && Calm(s, STARTER)
  }

  /** A run with at most two stops in progress at once has reached `x`. */
  ghost predicate Reaches(run: seq<Event>, x: State) {
    Legal(Initial(true), run) && Run(Initial(true), run) == x && StopsWithin(Initial(true), run, 2)
  }

  lemma {:induction false} ReachesOneMore(s: State, run: seq<Event>, e: Event)
    requires Legal(s, run) && StopsWithin(s, run, 2) && Enabled(Run(s, run), e)
    requires e.CallStop? ==> |StopsInProgress(Run(s, run))| < 2
    ensures Legal(s, run + [e]) && Run(s, run + [e]) == Apply(Run(s, run), e) && StopsWithin(s, run + [e], 2)
    decreases |run|
  {
    if run == [] {
      assert run + [e] == [e] && [e][1..] == [];
      assert Legal(Apply(s, e), []);
    } else {
      ReachesOneMore(Apply(s, run[0]), run[1..], e);
      assert (run + [e])[1..] == run[1..] + [e];
    }
  }

  lemma Extend(run: seq<Event>, x: State, e: Event) returns (run': seq<Event>, x': State)
    requires Reaches(run, x) && Enabled(x, e)
    requires e.CallStop? ==> |StopsInProgress(x)| < 2
    ensures Reaches(run', x') && x' == Apply(x, e)
  {
    run', x' := run + [e], Apply(x, e);
    ReachesOneMore(Initial(true), run, e);
  }

  /** A stop is requested while at most one other thread is stopping. */
  lemma Stops(run: seq<Event>, x: State, t: Tid, other: Tid) returns (run': seq<Event>, y: State)
    requires Reaches(run, x) && Enabled(x, CallStop(t))
    requires forall u :: Stopping(x, u) ==> u == other
    ensures Reaches(run', y) && y == Apply(x, CallStop(t))
    ensures forall u :: Stopping(y, u) ==> u == t || u == other
  {
    var one := {other};
    forall u | u in StopsInProgress(x) ensures u in one { assert Stopping(x, u); }
    FewerInside(StopsInProgress(x), one);
    run', y := Extend(run, x, CallStop(t));
    forall u | Stopping(y, u) ensures u == t || u == other {
      if u != t { assert At(y, u) == At(x, u) && Stopping(x, u); }
    }
  }

  lemma FewerInside(a: set<Tid>, b: set<Tid>)
    requires a <= b
    ensures |a| <= |b|
  {
    assert a + (b - a) == b;
  }

  /** Child `c` is started, and the start returns. */
  lemma Starts(run: seq<Event>, x: State, c: nat) returns (run': seq<Event>, y: State)
    requires Reaches(run, x)
    requires x.preview && |x.children| == c && x.proc == None && !x.stopping
    requires x.readers == {} && x.alive == {} && x.lifecycle == None && Calm(x, STARTER)
    ensures Reaches(run', y)
    ensures Fresh(y, c) && y.generation == x.generation && y.writeLock == x.writeLock
    ensures forall t :: t != STARTER ==> At(y, t) == At(x, t)
  {
    run', y := Extend(run, x, CallStart(STARTER));
    run', y := Extend(run', y, StartDecide(STARTER, NewChild(Both(c), Both(c), true)));
    run', y := Extend(run', y, Return(STARTER));
  }

  /** Two stops are requested. */
  lemma Requests(run: seq<Event>, x: State) returns (run': seq<Event>, y: State)
    requires Reaches(run, x)
    requires Fresh(x, 0) && x.generation == 0 && Calm(x, OLDER) && Calm(x, NEWER) && forall t :: !Stopping(x, t)
    ensures Reaches(run', y)
    ensures y == x.(stopping := true, generation := 2, pcs := y.pcs)
    ensures At(y, OLDER) == StopWaiting(1) && At(y, NEWER) == StopWaiting(2)
    ensures At(y, STARTER) == At(x, STARTER) && At(y, LATE) == At(x, LATE) && At(y, NEXT) == At(x, NEXT)
  {
    run', y := Stops(run, x, OLDER, OLDER);
    run', y := Stops(run', y, NEWER, OLDER);
  }

  /** The newer one takes the lifecycle lock. */
  lemma NewerTakes(run: seq<Event>, x: State) returns (run': seq<Event>, y: State)
    requires Reaches(run, x)
    requires x.proc == Some(0) && x.lifecycle == None && At(x, NEWER) == StopWaiting(2)
    ensures Reaches(run', y)
    ensures y == x.(lifecycle := y.lifecycle, pcs := y.pcs) && At(y, NEWER) == Reaping(ForStop(2), 0)
    ensures At(y, STARTER) == At(x, STARTER) && At(y, OLDER) == At(x, OLDER) && At(y, LATE) == At(x, LATE)
    ensures At(y, NEXT) == At(x, NEXT)
  {
    run', y := Extend(run, x, StopTake(NEWER, true));
    run', y := Extend(run', y, StopRead(NEWER));
  }

  /** The newer stop reaps the child and waits for its writer. */
  lemma NewerReaps(run: seq<Event>, x: State) returns (run': seq<Event>, y: State)
    requires Reaches(run, x)
    requires |x.children| == 1 && !x.children[0].checked && x.writeLock == None
    requires At(x, NEWER) == Reaping(ForStop(2), 0)
    ensures Reaches(run', y)
    ensures y == x.(children := y.children, pcs := y.pcs) && |y.children| == 1 && !y.children[0].checked
    ensures At(y, NEWER) == Joining(ForStop(2), 0)
    ensures At(y, STARTER) == At(x, STARTER) && At(y, OLDER) == At(x, OLDER) && At(y, LATE) == At(x, LATE)
    ensures At(y, NEXT) == At(x, NEXT)
  {
    run', y := Extend(run, x, Reap(NEWER, true));
    run', y := Extend(run', y, DrainWriter(NEWER, true));
  }

  /** Both readers of child `c` end. */
  lemma ReadersEnd(run: seq<Event>, x: State, c: nat) returns (run': seq<Event>, y: State)
    requires Reaches(run, x) && x.alive == Both(c) && c < |x.children| && !x.children[c].checked
    ensures Reaches(run', y) && y == x.(alive := {})
  {
    run', y := Extend(run, x, ReaderExits(Reader(c, false)));
    run', y := Extend(run', y, ReaderExits(Reader(c, true)));
    assert Both(c) - {Reader(c, false)} - {Reader(c, true)} == {};
  }

  /** The newer stop finishes first and lets starts in again. */
  lemma NewerFinishes(run: seq<Event>, x: State) returns (run': seq<Event>, y: State)
    requires Reaches(run, x)
    requires x.preview && |x.children| == 1 && x.generation == 2
    requires x.alive == {} && x.writeLock == None && At(x, NEWER) == Joining(ForStop(2), 0)
    ensures Reaches(run', y)
    ensures y.preview && |y.children| == 1 && y.proc == None && !y.stopping && y.generation == 2
    ensures y.readers == {} && y.alive == {} && y.lifecycle == None && y.writeLock == None
    ensures At(y, STARTER) == At(x, STARTER) && At(y, OLDER) == At(x, OLDER)
    ensures At(y, LATE) == At(x, LATE) && At(y, NEXT) == At(x, NEXT)
  {
    run', y := Extend(run, x, JoinReaders(NEWER, true));
    run', y := Extend(run', y, SettleStop(NEWER));
  }

  /** The older stop takes the lifecycle lock with the new child as its owner. */
  lemma OlderTakes(run: seq<Event>, x: State) returns (run': seq<Event>, y: State)
    requires Reaches(run, x)
    requires Fresh(x, 1) && x.writeLock == None && At(x, OLDER) == StopWaiting(1) && Calm(x, LATE)
    ensures Reaches(run', y)
    ensures y == x.(lifecycle := y.lifecycle, pcs := y.pcs) && At(y, OLDER) == Reaping(ForStop(1), 1)
    ensures At(y, STARTER) == At(x, STARTER) && At(y, NEXT) == At(x, NEXT) && Calm(y, LATE)
  {
    run', y := Extend(run, x, StopTake(OLDER, true));
    run', y := Extend(run', y, StopRead(OLDER));
  }

  /** It takes the new child down without refusing writers. */
  lemma OlderReaps(run: seq<Event>, x: State) returns (run': seq<Event>, y: State)
    requires Reaches(run, x)
    requires x.preview && |x.children| == 2 && x.proc == Some(1) && !x.stopping && !x.children[1].checked
    requires x.readers == Both(1) && x.alive == Both(1) && x.writeLock == None
    requires At(x, OLDER) == Reaping(ForStop(1), 1) && Calm(x, LATE)
    ensures Reaches(run', y)
    ensures y.preview && |y.children| == 2 && y.proc == Some(1) && !y.stopping && !y.children[1].checked
    ensures y.readers == Both(1) && y.alive == Both(1) && y.generation == x.generation && y.writeLock == None
    ensures At(y, OLDER) == Joining(ForStop(1), 1) && Calm(y, LATE)
    ensures At(y, STARTER) == At(x, STARTER) && At(y, NEXT) == At(x, NEXT)
  {
    run', y := Extend(run, x, Reap(OLDER, true));
    run', y := Extend(run', y, DrainWriter(OLDER, true));
  }

  /** A writer is admitted to the child that the older stop has already reaped. */
  lemma LateEnters(run: seq<Event>, x: State) returns (run': seq<Event>, y: State)
    requires Reaches(run, x)
    requires x.preview && x.proc == Some(1) && !x.stopping && x.writeLock == None && Calm(x, LATE)
    ensures Reaches(run', y)
    ensures y.preview && y.children == x.children && y.proc == x.proc && !y.stopping && y.generation == x.generation
    ensures y.readers == x.readers && y.alive == x.alive && At(y, LATE) == Admitted(1, 7)
    ensures At(y, STARTER) == At(x, STARTER) && At(y, OLDER) == At(x, OLDER) && At(y, NEXT) == At(x, NEXT)
  {
    run', y := Extend(run, x, CallWrite(LATE, 7));
    run', y := Extend(run', y, TakeWriteLock(LATE));
    run', y := Extend(run', y, Admit(LATE));
  }

  /** The older stop finishes while that writer is still inside. */
  lemma OlderFinishes(run: seq<Event>, x: State) returns (run': seq<Event>, y: State)
    requires Reaches(run, x)
    requires x.preview && |x.children| == 2 && x.proc == Some(1) && !x.stopping && x.generation == 2
    requires x.alive == {} && At(x, OLDER) == Joining(ForStop(1), 1)
    ensures Reaches(run', y)
    ensures y.preview && |y.children| == 2 && y.proc == None && !y.stopping
    ensures y.readers == {} && y.alive == {} && y.lifecycle == None
    ensures At(y, STARTER) == At(x, STARTER) && At(y, LATE) == At(x, LATE) && At(y, NEXT) == At(x, NEXT)
  {
    run', y := Extend(run, x, JoinReaders(OLDER, true));
    run', y := Extend(run', y, SettleStop(OLDER));
  }

  /** The late writer leaves its stamp in the queue of the third child.  The pipe of its own
      child is closed, so the write fails, and the restart finds another child. */
  lemma LateWrites(run: seq<Event>, x: State) returns (run': seq<Event>, y: State)
    requires Reaches(run, x)
    requires Fresh(x, 2) && At(x, LATE) == Admitted(1, 7) && Calm(x, NEXT)
    ensures Reaches(run', y)
    ensures y.preview && |y.children| == 3 && y.proc == Some(2) && !y.stopping && y.queue == [7]
    ensures y.children[2] == x.children[2] && y.alive == x.alive && y.writeLock == None && Calm(y, NEXT)
  {
    run', y := Extend(run, x, BeforeWrite(LATE));
    run', y := Extend(run', y, WriteFrame(LATE, false));
    run', y := Extend(run', y, TakeLifecycle(LATE));
    run', y := Extend(run', y, RestartDecide(LATE));
  }

  /** The next writer is admitted to the third child. */
  lemma NextEnters(run: seq<Event>, x: State) returns (run': seq<Event>, y: State)
    requires Reaches(run, x)
    requires x.preview && |x.children| == 3 && x.proc == Some(2) && !x.stopping && x.queue == [7]
    requires x.writeLock == None && Calm(x, NEXT)
    ensures Reaches(run', y)
    ensures y == x.(pcs := y.pcs, writeLock := Some(NEXT)) && At(y, NEXT) == Admitted(2, 9)
  {
    run', y := Extend(run, x, CallWrite(NEXT, 9));
    run', y := Extend(run', y, TakeWriteLock(NEXT));
    run', y := Extend(run', y, Admit(NEXT));
  }

  /** The first unit of the third child is delivered with that stamp. */
  lemma UnitDelivered(run: seq<Event>, x: State) returns (run': seq<Event>, y: State)
    requires Reaches(run, x)
    requires x.preview && |x.children| == 3 && x.proc == Some(2) && !x.stopping && x.queue == [7]
    requires x.children[2] == Child(false, [], 0, false, []) && x.alive == Both(2) && At(x, NEXT) == Admitted(2, 9)
    ensures Reaches(run', y)
    ensures |y.children| == 3 && y.children[2].stamps == [9] && y.children[2].delivered == [Delivery(0, 7)]
  {
    run', y := Extend(run, x, BeforeWrite(NEXT));
    run', y := Extend(run', y, WriteFrame(NEXT, true));
    run', y := Extend(run', y, EmitCheck(2));
    run', y := Extend(run', y, EmitPop(2));
  }

  /** Up to the late writer: the older stop has taken down the second child under it. */
  lemma OlderOverruns() returns (run: seq<Event>, s: State)
    ensures Reaches(run, s)
    ensures s.preview && |s.children| == 2 && s.proc == None && !s.stopping
    ensures s.readers == {} && s.alive == {} && s.lifecycle == None
    ensures Calm(s, STARTER) && At(s, LATE) == Admitted(1, 7) && Calm(s, NEXT)
  {
    run, s := [], Initial(true);
    run, s := Starts(run, s, 0);
    run, s := Requests(run, s);
    run, s := NewerTakes(run, s);
    run, s := NewerReaps(run, s);
    run, s := ReadersEnd(run, s, 0);
    run, s := NewerFinishes(run, s);
    run, s := Starts(run, s, 1);
    run, s := OlderTakes(run, s);
    run, s := OlderReaps(run, s);
    run, s := LateEnters(run, s);
    run, s := ReadersEnd(run, s, 1);
    run, s := OlderFinishes(run, s);
  }

  /** Two stops that overlap can make a unit carry a stamp that was written to another child:
      there is a legal run after which the only unit of child 2 has stamp 7, not 9. */
  lemma OverlappingStopsMispair() returns (run: seq<Event>, s: State)
    ensures Legal(Initial(true), run) && Run(Initial(true), run) == s && StopsWithin(Initial(true), run, 2)
    ensures |s.children| == 3 && s.children[2].delivered == [Delivery(0, 7)] && s.children[2].stamps == [9]
    ensures !AllMatch(s)
  {
    run, s := OlderOverruns();
    run, s := Starts(run, s, 2);
    run, s := LateWrites(run, s);
    run, s := NextEnters(run, s);
    run, s := UnitDelivered(run, s);
    assert s.children[2] in s.children && s.children[2].delivered[0].stamp != s.children[2].stamps[0];
  }

  lemma {:induction false} MoreStopsAllowed(s: State, run: seq<Event>, n: nat, m: nat)
    requires Legal(s, run) && StopsWithin(s, run, n) && n <= m
    ensures StopsWithin(s, run, m)
    decreases |run|
  {
    if run != [] { MoreStopsAllowed(Apply(s, run[0]), run[1..], n, m); }
  }

  ghost predicate Pairs(run: seq<Event>, n: nat) {
    Legal(Initial(true), run) && StopsWithin(Initial(true), run, n) ==> AllMatch(Run(Initial(true), run))
  }

  /** Every run that keeps to `n` stops in progress pairs its units with their own stamps
      exactly when `n` is at most one. */
  lemma PairingNeedsSerialStops(n: nat)
    ensures (forall run :: Pairs(run, n)) <==> n <= 1
  {
    if n <= 1 {
      forall run ensures Pairs(run, n) {
        if Legal(Initial(true), run) && StopsWithin(Initial(true), run, n) {
          OneStopTakesTurns(Initial(true), run, n);
          DeliveriesCarryTheirStamps(true, run);
        }
      }
    } else {
      var run, s := OverlappingStopsMispair();
      MoreStopsAllowed(Initial(true), run, 2, n);
      assert !Pairs(run, n);
    }
  }
}
