/** What it means that a call of the encoder returns, normally or not. */
module EncoderOutcomes {
  import opened Threads
  import opened EncoderProtocol
  import opened EncoderProofs
  import opened EncoderPairing

  // ---------- Normal returns ----------

  /** A new child is owned, with all of its readers at work and no stamp waiting, and starts
      are not refused. */
  predicate Renewed(s: State, s': State) {
    && s'.children == s.children + [Child(false, [], 0, false, [])]
    && s'.proc == Some(|s.children|) && s'.readers == s'.alive == ReadersOf(s, |s.children|)
    && !s'.stopping && s'.queue == []
  }

  /** A restart that no stop has overtaken, and that returns normally, has replaced the child:
      after a failed write just as for a start. */
  lemma NormalRestartRenews(s: State, e: Event, t: Tid, call: Call)
    requires Inv(s) && Enabled(s, e) && RestartSaw(At(s, t)) == Some(s.generation)
    requires At(Apply(s, e), t) == Returned(call, true)
    ensures Renewed(s, Apply(s, e)) && call == At(s, t).goal.call
  {
    if ActorIs(e, t) { assert Reached(s, At(s, t)); } else { OthersUnmoved(s, e, t); }
  }

  /** Why a write returns normally: there is nothing to write to, the child has taken the whole
      frame, somebody else has replaced the child or is stopping it, a stop has overtaken the
      restart and launches nothing, or the restart has replaced the child. */
  predicate WriteDone(s: State, s': State, t: Tid) {
    match At(s, t)
    case WriteEntered(_) => (s.stopping || s.proc.None?) && s'.children == s.children
    case Writing(c) => c < |s.children| && !s.children[c].reaped && s'.children == s.children && s'.queue == s.queue
    case Restarting(_, c) => (s.proc != Some(c) || s.stopping) && s'.children == s.children && s'.proc == s.proc
    case Settling(goal) =>
      if goal.generation == s.generation then Renewed(s, s')
      else s'.proc.None? && s'.stopping && s'.children == s.children
    case _ => false
  }

  lemma NormalWriteReturns(s: State, e: Event, t: Tid)
    requires Inv(s) && Enabled(s, e) && !At(s, t).Returned?
    requires At(Apply(s, e), t) == Returned(WriteCall, true)
    ensures WriteDone(s, Apply(s, e), t)
  {
    if !ActorIs(e, t) {
      OthersUnmoved(s, e, t);
    } else if e.SettleRestart? {
      RestartedWrite(s, e);
    } else {
      assert Reached(s, At(s, t));
    }
  }

  lemma RestartedWrite(s: State, e: Event)
    requires Inv(s) && Enabled(s, e) && e.SettleRestart? && At(Apply(s, e), e.t) == Returned(WriteCall, true)
    ensures WriteDone(s, Apply(s, e), e.t)
  {
    assert Reached(s, At(s, e.t));
  }

  /** The same for a start: the child is running already, was launched or replaced, or a stop
      has come in between. */
  predicate StartDone(s: State, s': State, t: Tid) {
    match At(s, t)
    case Starting =>
      if s.proc.None? then Renewed(s, s')
      else s.proc.value < |s.children| && !s.children[s.proc.value].reaped && s'.proc == s.proc
           && s'.children == s.children && s'.readers == s.readers
    case Restarting(_, c) => (s.proc != Some(c) || s.stopping) && s'.children == s.children && s'.proc == s.proc
    case Settling(goal) =>
      if goal.generation == s.generation then Renewed(s, s')
      else s'.proc.None? && s'.stopping && s'.children == s.children
    case _ => false
  }

  lemma NormalStartReturns(s: State, e: Event, t: Tid)
    requires Inv(s) && Enabled(s, e) && !At(s, t).Returned?
    requires At(Apply(s, e), t) == Returned(StartCall, true)
    ensures StartDone(s, Apply(s, e), t)
  {
    if !ActorIs(e, t) {
      OthersUnmoved(s, e, t);
    } else if e.StartDecide? {
      DecidedStart(s, e);
    } else {
      assert Reached(s, At(s, t));
    }
  }

  lemma DecidedStart(s: State, e: Event)
    requires Inv(s) && Enabled(s, e) && e.StartDecide? && At(Apply(s, e), e.t) == Returned(StartCall, true)
    ensures StartDone(s, Apply(s, e), e.t)
  {
    if s.proc.None? {
      forall r ensures r !in s.readers && r !in s.alive {}
    }
  }

  // ---------- Failures ----------

  predicate Works(l: Launch) {
    l.NewChild? && l.ok
  }

  /** What makes a step fail: a preview frame without a stamp or with too many of them waiting,
      a lifecycle in transition or that does not quiesce in time, a stop that is not complete, a
      launch that fails, or a child, a writer or a reader that does not end in time. */
  predicate Fails(s: State, e: Event)
    requires Enabled(s, e)
  {
    match e
    case CallWrite(_, stamp) => s.preview && stamp <= 0
    case CallStart(_) => s.lifecycle.Some?
    case BeforeWrite(_) => s.preview && |s.queue| >= MAX_STAMPS
    case StartDecide(_, l) => s.stopping || (s.proc.None? && !Works(l))
    case StopTake(_, ok) => !ok
    case Reap(_, ok) => !ok
    case DrainWriter(_, ok) => !ok
    case JoinReaders(_, ok) => !ok
    case SettleRestart(t, l) => At(s, t).goal.generation == s.generation && !Works(l)
    case _ => false
  }

  /** A step makes a call fail exactly when there is such a reason. */
  lemma FailsForAReason(s: State, e: Event)
    requires Inv(s) && Enabled(s, e) && !NativeStep(e)
    ensures At(Apply(s, e), e.t).Returned? && !At(Apply(s, e), e.t).ok <==> Fails(s, e)
  {
    if EntryStep(e) || WriteStep(e) || RequestStep(e) { EarlyFailure(s, e); } else { LateFailure(s, e); }
  }

  lemma EarlyFailure(s: State, e: Event)
    requires Enabled(s, e) && (EntryStep(e) || WriteStep(e) || RequestStep(e))
    ensures At(Apply(s, e), e.t).Returned? && !At(Apply(s, e), e.t).ok <==> Fails(s, e)
  {
  }

  lemma LateFailure(s: State, e: Event)
    requires Enabled(s, e) && (TakedownStep(e) || TurnStep(e) || StartStep(e) || ReplaceStep(e))
    ensures At(Apply(s, e), e.t).Returned? && !At(Apply(s, e), e.t).ok <==> Fails(s, e)
  {
  }

  /** A launch that fails before there is a child leaves an encoder without one that can be
      started again; one that fails afterwards leaves the child to be stopped first. */
  lemma FailedLaunchLeaves(s: State, e: Event)
    requires Inv(s) && Enabled(s, e) && Fails(s, e)
    requires e.SettleRestart? || (e.StartDecide? && !s.stopping)
    ensures var s' := Apply(s, e);
            if e.launch.NoChild? then s'.proc.None? && s'.readers == {} && !s'.stopping && s'.children == s.children
            else s'.proc == Some(|s.children|) && s'.stopping && |s'.children| == |s.children| + 1
  {
    assert Reached(s, At(s, e.t));
    if e.StartDecide? {
      forall r ensures r !in s.readers {}
    }
  }

  /** A preview frame that gets past the hook has its stamp recorded, as the newest of the
      child it is for and as the last in the queue. */
  lemma StampIsRecorded(s: State, t: Tid)
    requires Inv(s) && Paired(s) && Enabled(s, BeforeWrite(t)) && s.preview && !Fails(s, BeforeWrite(t))
    ensures var s' := Apply(s, BeforeWrite(t));
            && s.proc.Some? && At(s', t) == Writing(s.proc.value) && s'.queue == s.queue + [At(s, t).stamp]
            && s.proc.value < |s.children| && |s'.children| == |s.children|
            && s'.children[s.proc.value].stamps == s.children[s.proc.value].stamps + [At(s, t).stamp]
  {
    assert Fenced(s, At(s, t));
  }

  // ---------- Calls go on ----------

  /** A launch that works. */
  function Fully(s: State): Launch {
    NewChild(ReadersOf(s, |s.children|), ReadersOf(s, |s.children|), true)
  }

  /** The next step of a call, if everything outside works and nothing is in its way. */
  function NextStep(s: State, t: Tid): Event {
    match At(s, t)
    case AtWriteLock(_) => TakeWriteLock(t)
    case WriteEntered(_) => Admit(t)
    case Admitted(_, _) => BeforeWrite(t)
    case Writing(c) => WriteFrame(t, c < |s.children| && !s.children[c].reaped)
    case WriteFailed(_) => TakeLifecycle(t)
    case Starting => StartDecide(t, Fully(s))
    case Restarting(_, _) => RestartDecide(t)
    case StopWaiting(_) => StopTake(t, s.lifecycle.None?)
    case StopEntered(_) => StopRead(t)
    case Reaping(_, _) => Reap(t, true)
    case Draining(_, _) => DrainWriter(t, s.writeLock.None?)
    case Joining(_, _) => JoinReaders(t, s.alive * s.readers == {})
    case Settling(goal) => if goal.ForStop? then SettleStop(t) else SettleRestart(t, Fully(s))
    case _ => Return(t)
  }

  /** What the thread waits for or is refused by. */
  predicate InItsWay(s: State, t: Tid) {
    match At(s, t)
    case AtWriteLock(_) => s.writeLock.Some?
    case WriteFailed(_) => s.lifecycle.Some?
    case Admitted(_, _) => s.preview && |s.queue| >= MAX_STAMPS
    case Starting => s.stopping
    case StopWaiting(_) => s.lifecycle.Some?
    case Draining(_, _) => s.writeLock.Some?
    case Joining(_, _) => s.alive * s.readers != {}
    case _ => false
  }

  /** A thread inside a call can go on unless it waits for a lock, and its next step does not
      fail unless one of these is in its way. */
  lemma CallsGoOn(s: State, t: Tid)
    requires Inv(s) && !At(s, t).Idle?
    ensures ActorIs(NextStep(s, t), t)
    ensures (At(s, t).AtWriteLock? || At(s, t).WriteFailed? ==> !InItsWay(s, t)) ==> Enabled(s, NextStep(s, t))
    ensures !InItsWay(s, t) ==> !Fails(s, NextStep(s, t))
  {
    assert Reached(s, At(s, t));
  }

  // ---------- Calls come to an end ----------

  /** How far a call has come. */
  function Stage(pc: Pc): nat {
    match pc
    case Idle => 0
    case AtWriteLock(_) => 1
    case WriteEntered(_) => 2
    case Admitted(_, _) => 3
    case Writing(_) => 4
    case WriteFailed(_) => 5
    case Starting => 5
    case StopWaiting(_) => 5
    case StopEntered(_) => 6
    case Restarting(_, _) => 6
    case Reaping(_, _) => 7
    case Draining(_, _) => 8
    case Joining(_, _) => 9
    case Settling(_) => 10
    case Returned(_, _) => 11
  }

  /** Every step of a call brings it forward, so it takes at most eleven steps of its own, and a
      call moves on only by its own steps. */
  lemma CallsAdvance(s: State, e: Event, t: Tid)
    requires Enabled(s, e)
    ensures if ActorIs(e, t) && !e.Return? then Stage(At(s, t)) < Stage(At(Apply(s, e), t)) <= 11
            else At(Apply(s, e), t) == if ActorIs(e, t) then Idle else At(s, t)
  {
    if !ActorIs(e, t) { OthersUnmoved(s, e, t); }
    else if EntryStep(e) || WriteStep(e) || RequestStep(e) { EarlyAdvance(s, e); }
    else { LateAdvance(s, e); }
  }

  lemma EarlyAdvance(s: State, e: Event)
    requires Enabled(s, e) && (EntryStep(e) || WriteStep(e) || RequestStep(e))
    ensures if e.Return? then At(Apply(s, e), e.t).Idle? else Stage(At(s, e.t)) < Stage(At(Apply(s, e), e.t))
  {
  }

  lemma LateAdvance(s: State, e: Event)
    requires Enabled(s, e) && (TakedownStep(e) || TurnStep(e) || StartStep(e) || ReplaceStep(e))
    ensures Stage(At(s, e.t)) < Stage(At(Apply(s, e), e.t))
  {
  }
}
