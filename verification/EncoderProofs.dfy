/** What every interleaving of the encoder protocol keeps. */
module EncoderProofs {
  import opened Threads
  import opened EncoderProtocol

  // ---------- The invariant of all interleavings ----------

  /** The locks are held by the threads whose program point says so, and by no other. */
  ghost predicate LocksAgree(s: State) {
    forall t :: (HoldsLifecycle(At(s, t)) <==> s.lifecycle == Some(t))
             && (HoldsWrite(At(s, t)) <==> s.writeLock == Some(t))
  }

  /** Every child but the current one is reaped, and only its readers are left. */
  ghost predicate OneChild(s: State) {
    && (s.proc.Some? ==> s.proc.value < |s.children|)
    && (forall c :: 0 <= c < |s.children| && !s.children[c].reaped ==> s.proc == Some(c))
    && (forall r :: r in s.readers ==> s.proc == Some(r.child))
    && s.alive <= s.readers
    && (forall c :: 0 <= c < |s.children| && s.children[c].checked ==> Reader(c, true) in s.alive)
  }

  /** What a thread has already achieved at its program point. */
  predicate Reached(s: State, pc: Pc) {
    match pc
    case Admitted(c, _) => c < |s.children|
    case Writing(c) => c < |s.children|
    case WriteFailed(c) => c < |s.children|
    case Restarting(call, c) => c < |s.children| && call != StopCall && (call.StartCall? ==> s.proc == Some(c))
    case StopWaiting(g) => g <= s.generation
    case StopEntered(g) => g <= s.generation
    case Reaping(goal, c) => GoalHolds(s, goal) && s.proc == Some(c)
    case Draining(goal, c) => GoalHolds(s, goal) && s.proc == Some(c) && c < |s.children| && s.children[c].reaped
    case Joining(goal, c) => GoalHolds(s, goal) && s.proc == Some(c) && c < |s.children| && s.children[c].reaped
    case Settling(goal) =>
      && GoalHolds(s, goal) && s.alive == {}
      && (goal.ForRestart? ==> s.proc.Some?)
      && (s.proc.Some? ==> s.proc.value < |s.children| && s.children[s.proc.value].reaped)
    case _ => true
  }

  /** A restart keeps the encoder stopping while it works. */
  predicate GoalHolds(s: State, goal: Goal) {
    goal.generation <= s.generation && (goal.ForRestart? ==> s.stopping && goal.call != StopCall)
  }

  ghost predicate AllReached(s: State) {
    forall t :: Reached(s, At(s, t))
  }

  predicate QueueBounded(s: State) {
    |s.queue| <= MAX_STAMPS && (!s.preview ==> s.queue == [])
  }

  ghost predicate Inv(s: State) {
    LocksAgree(s) && OneChild(s) && AllReached(s) && QueueBounded(s)
  }

  lemma InitialInv(preview: bool)
    ensures Inv(Initial(preview))
  {
  }

  // Events are grouped so that each step lemma stays small.

  predicate EntryStep(e: Event) {
    e.CallWrite? || e.TakeWriteLock? || e.Admit? || e.Return?
  }

  predicate WriteStep(e: Event) {
    e.BeforeWrite? || e.WriteFrame? || e.TakeLifecycle?
  }

  predicate RequestStep(e: Event) {
    e.CallStart? || e.CallStop? || e.StopTake? || e.StopRead?
  }

  predicate TakedownStep(e: Event) {
    e.Reap? || e.DrainWriter? || e.JoinReaders?
  }

  predicate TurnStep(e: Event) {
    e.RestartDecide? || e.SettleStop?
  }

  predicate StartStep(e: Event) {
    e.StartDecide?
  }

  predicate ReplaceStep(e: Event) {
    e.SettleRestart?
  }

  predicate NativeStep(e: Event) {
    e.ChildExits? || e.ReaderExits? || e.EmitCheck? || e.EmitPop?
  }

  /** The thread whose step an event is. */
  predicate ActorIs(e: Event, t: Tid) {
    !NativeStep(e) && e.t == t
  }

  lemma OthersUnmoved(s: State, e: Event, u: Tid)
    requires Enabled(s, e) && !ActorIs(e, u)
    ensures At(Apply(s, e), u) == At(s, u)
  {
    if EntryStep(e) || WriteStep(e) || NativeStep(e) { QuickUnmoved(s, e, u); } else { SlowUnmoved(s, e, u); }
  }

  lemma QuickUnmoved(s: State, e: Event, u: Tid)
    requires Enabled(s, e) && !ActorIs(e, u) && (EntryStep(e) || WriteStep(e) || NativeStep(e))
    ensures At(Apply(s, e), u) == At(s, u)
  {
  }

  lemma SlowUnmoved(s: State, e: Event, u: Tid)
    requires Enabled(s, e) && !ActorIs(e, u) && !(EntryStep(e) || WriteStep(e) || NativeStep(e))
    ensures At(Apply(s, e), u) == At(s, u)
  {
  }

  lemma GenerationGrows(s: State, e: Event)
    requires Enabled(s, e)
    ensures s.generation <= Apply(s, e).generation
  {
  }

  lemma EntryKeepsLocks(s: State, e: Event)
    requires LocksAgree(s) && Enabled(s, e) && EntryStep(e)
    ensures LocksAgree(Apply(s, e))
  {
  }

  lemma EntryKeepsOneChild(s: State, e: Event)
    requires Inv(s) && Enabled(s, e) && EntryStep(e)
    ensures OneChild(Apply(s, e)) && QueueBounded(Apply(s, e))
  {
  }

  lemma EntryKeepsReached(s: State, e: Event, t: Tid)
    requires Inv(s) && Enabled(s, e) && EntryStep(e)
    ensures Reached(Apply(s, e), At(Apply(s, e), t))
  {
    assert Reached(s, At(s, t));
    if !ActorIs(e, t) { OthersUnmoved(s, e, t); }
  }

  lemma WriteKeepsLocks(s: State, e: Event)
    requires LocksAgree(s) && Enabled(s, e) && WriteStep(e)
    ensures LocksAgree(Apply(s, e))
  {
  }

  lemma WriteKeepsOneChild(s: State, e: Event)
    requires Inv(s) && Enabled(s, e) && WriteStep(e)
    ensures OneChild(Apply(s, e)) && QueueBounded(Apply(s, e))
  {
  }

  lemma WriteKeepsReached(s: State, e: Event, t: Tid)
    requires Inv(s) && Enabled(s, e) && WriteStep(e)
    ensures Reached(Apply(s, e), At(Apply(s, e), t))
  {
    assert Reached(s, At(s, t));
    if !ActorIs(e, t) { OthersUnmoved(s, e, t); }
  }

  lemma RequestKeepsLocks(s: State, e: Event)
    requires LocksAgree(s) && Enabled(s, e) && RequestStep(e)
    ensures LocksAgree(Apply(s, e))
  {
  }

  lemma RequestKeepsOneChild(s: State, e: Event)
    requires Inv(s) && Enabled(s, e) && RequestStep(e)
    ensures OneChild(Apply(s, e)) && QueueBounded(Apply(s, e))
  {
  }

  lemma RequestKeepsReached(s: State, e: Event, t: Tid)
    requires Inv(s) && Enabled(s, e) && RequestStep(e)
    ensures Reached(Apply(s, e), At(Apply(s, e), t))
  {
    assert Reached(s, At(s, t));
    assert HoldsLifecycle(At(s, t)) ==> s.lifecycle == Some(t);
    if !ActorIs(e, t) { OthersUnmoved(s, e, t); }
  }

  lemma TakedownKeepsLocks(s: State, e: Event)
    requires LocksAgree(s) && Enabled(s, e) && TakedownStep(e)
    ensures LocksAgree(Apply(s, e))
  {
  }

  lemma TakedownKeepsOneChild(s: State, e: Event)
    requires Inv(s) && Enabled(s, e) && TakedownStep(e)
    ensures OneChild(Apply(s, e)) && QueueBounded(Apply(s, e))
  {
  }

  lemma TakedownKeepsReached(s: State, e: Event, t: Tid)
    requires Inv(s) && Enabled(s, e) && TakedownStep(e)
    ensures Reached(Apply(s, e), At(Apply(s, e), t))
  {
    assert Reached(s, At(s, t));
    assert HoldsLifecycle(At(s, t)) ==> s.lifecycle == Some(t);
    if !ActorIs(e, t) { OthersUnmoved(s, e, t); }
  }

  /** The owner may be given up: its child is reaped and its readers are joined. */
  lemma DownKeepsOneChild(s: State, down: State)
    requires OneChild(s) && s.alive == {}
    requires s.proc.Some? ==> s.children[s.proc.value].reaped
    requires down.children == s.children && down.proc == None && down.readers == {} && down.alive == {}
    ensures OneChild(down)
  {
  }

  lemma TurnKeepsLocks(s: State, e: Event)
    requires LocksAgree(s) && Enabled(s, e) && TurnStep(e)
    ensures LocksAgree(Apply(s, e))
  {
  }

  lemma TurnKeepsOneChild(s: State, e: Event)
    requires Inv(s) && Enabled(s, e) && TurnStep(e)
    ensures OneChild(Apply(s, e)) && QueueBounded(Apply(s, e))
  {
    assert Reached(s, At(s, e.t));
    if e.SettleStop? { DownKeepsOneChild(s, Apply(s, e)); }
  }

  lemma TurnKeepsReached(s: State, e: Event, t: Tid)
    requires Inv(s) && Enabled(s, e) && TurnStep(e)
    ensures Reached(Apply(s, e), At(Apply(s, e), t))
  {
    assert Reached(s, At(s, t));
    if !ActorIs(e, t) { OthersUnmoved(s, e, t); }
  }

  lemma SpawnKeepsOneChild(s: State, l: Launch)
    requires OneChild(s) && QueueBounded(s) && s.proc.None? && Possible(s, l)
    ensures OneChild(Spawn(s, l)) && QueueBounded(Spawn(s, l))
  {
  }

  lemma StartKeepsLocks(s: State, e: Event)
    requires LocksAgree(s) && Enabled(s, e) && StartStep(e)
    ensures LocksAgree(Apply(s, e))
  {
    var s' := Apply(s, e);
    assert HoldsLifecycle(At(s, e.t));
    assert s'.lifecycle == (if HoldsLifecycle(At(s', e.t)) then Some(e.t) else None) && s'.writeLock == s.writeLock;
    assert !HoldsWrite(At(s', e.t));
  }

  lemma StartKeepsOneChild(s: State, e: Event)
    requires Inv(s) && Enabled(s, e) && StartStep(e)
    ensures OneChild(Apply(s, e)) && QueueBounded(Apply(s, e))
  {
    if s.proc.None? { SpawnKeepsOneChild(s, e.launch); }
  }

  lemma StartKeepsReached(s: State, e: Event, t: Tid)
    requires Inv(s) && Enabled(s, e) && StartStep(e)
    ensures Reached(Apply(s, e), At(Apply(s, e), t))
  {
    assert Reached(s, At(s, t));
    if !ActorIs(e, t) { OthersUnmoved(s, e, t); }
  }

  lemma ReplaceKeepsLocks(s: State, e: Event)
    requires LocksAgree(s) && Enabled(s, e) && ReplaceStep(e)
    ensures LocksAgree(Apply(s, e))
  {
    var s' := Apply(s, e);
    assert HoldsLifecycle(At(s, e.t));
    assert s'.lifecycle == None && s'.writeLock == s.writeLock && At(s', e.t).Returned?;
  }

  lemma ReplaceKeepsOneChild(s: State, e: Event)
    requires Inv(s) && Enabled(s, e) && ReplaceStep(e)
    ensures OneChild(Apply(s, e)) && QueueBounded(Apply(s, e))
  {
    assert Reached(s, At(s, e.t));
    var down := s.(proc := None, readers := {}, stopping := false);
    DownKeepsOneChild(s, down);
    SpawnKeepsOneChild(down, e.launch);
  }

  lemma ReplaceKeepsReached(s: State, e: Event, t: Tid)
    requires Inv(s) && Enabled(s, e) && ReplaceStep(e)
    ensures Reached(Apply(s, e), At(Apply(s, e), t))
  {
    assert Reached(s, At(s, t));
    if !ActorIs(e, t) { OthersUnmoved(s, e, t); }
  }

  lemma NativeKeepsLocks(s: State, e: Event)
    requires LocksAgree(s) && Enabled(s, e) && NativeStep(e)
    ensures LocksAgree(Apply(s, e))
  {
  }

  lemma NativeKeepsOneChild(s: State, e: Event)
    requires Inv(s) && Enabled(s, e) && NativeStep(e)
    ensures OneChild(Apply(s, e)) && QueueBounded(Apply(s, e))
  {
  }

  lemma NativeKeepsReached(s: State, e: Event, t: Tid)
    requires Inv(s) && Enabled(s, e) && NativeStep(e)
    ensures Reached(Apply(s, e), At(Apply(s, e), t))
  {
    assert Reached(s, At(s, t));
    if !ActorIs(e, t) { OthersUnmoved(s, e, t); }
  }

  /** Every step of every thread keeps the invariant. */
  lemma StepKeepsInv(s: State, e: Event)
    requires Inv(s) && Enabled(s, e)
    ensures Inv(Apply(s, e))
  {
    var s' := Apply(s, e);
    if EntryStep(e) {
      EntryKeepsLocks(s, e);
      EntryKeepsOneChild(s, e);
      forall t ensures Reached(s', At(s', t)) { EntryKeepsReached(s, e, t); }
    } else if WriteStep(e) {
      WriteKeepsLocks(s, e);
      WriteKeepsOneChild(s, e);
      forall t ensures Reached(s', At(s', t)) { WriteKeepsReached(s, e, t); }
    } else if RequestStep(e) {
      RequestKeepsLocks(s, e);
      RequestKeepsOneChild(s, e);
      forall t ensures Reached(s', At(s', t)) { RequestKeepsReached(s, e, t); }
    } else if TakedownStep(e) {
      TakedownKeepsLocks(s, e);
      TakedownKeepsOneChild(s, e);
      forall t ensures Reached(s', At(s', t)) { TakedownKeepsReached(s, e, t); }
    } else if TurnStep(e) {
      TurnKeepsLocks(s, e);
      TurnKeepsOneChild(s, e);
      forall t ensures Reached(s', At(s', t)) { TurnKeepsReached(s, e, t); }
    } else if StartStep(e) {
      StartKeepsLocks(s, e);
      StartKeepsOneChild(s, e);
      forall t ensures Reached(s', At(s', t)) { StartKeepsReached(s, e, t); }
    } else if ReplaceStep(e) {
      ReplaceKeepsLocks(s, e);
      ReplaceKeepsOneChild(s, e);
      forall t ensures Reached(s', At(s', t)) { ReplaceKeepsReached(s, e, t); }
    } else if NativeStep(e) {
      NativeKeepsLocks(s, e);
      NativeKeepsOneChild(s, e);
      forall t ensures Reached(s', At(s', t)) { NativeKeepsReached(s, e, t); }
    }
  }

  lemma {:induction false} RunKeepsInv(s: State, events: seq<Event>)
    requires Inv(s) && Legal(s, events)
    ensures Inv(Run(s, events))
    decreases |events|
  {
    if events != [] {
      StepKeepsInv(s, events[0]);
      RunKeepsInv(Apply(s, events[0]), events[1..]);
    }
  }

  // ---------- Safety over whole runs ----------

  /** A new child exists only once every earlier one is reaped and no output reader is
      left, and only a launching step creates it. */
  lemma LaunchesAfterQuiescence(s: State, e: Event)
    requires Inv(s) && Enabled(s, e) && |Apply(s, e).children| != |s.children|
    ensures |Apply(s, e).children| == |s.children| + 1 && Apply(s, e).proc == Some(|s.children|)
    ensures forall c :: 0 <= c < |s.children| ==> s.children[c].reaped
    ensures s.alive == {}
  {
    assert Reached(s, At(s, e.t));
    forall r ensures r !in s.alive { assert r in s.alive ==> r in s.readers; }
  }

  /** A stop that returns normally leaves no native work: every child launched so far is
      reaped, every reader has ended, and the encoder has no owner. */
  lemma NormalStopQuiesces(s: State, e: Event, t: Tid)
    requires Inv(s) && Enabled(s, e) && !At(s, t).Returned?
    requires At(Apply(s, e), t) == Returned(StopCall, true)
    ensures var s' := Apply(s, e);
            && s'.proc == None && s'.readers == {} && s'.alive == {}
            && (forall c :: 0 <= c < |s'.children| ==> s'.children[c].reaped)
            && At(s, t).Settling? && (At(s, t).goal.generation == s.generation ==> Stopped(s'))
  {
    if ActorIs(e, t) {
      assert Reached(s, At(s, t));
    } else {
      OthersUnmoved(s, e, t);
    }
  }

  /** A start that returns normally owns a child that has not been reaped, unless a stop has
      been requested meanwhile. */
  lemma NormalStartOwnsChild(s: State, e: Event, t: Tid)
    requires Inv(s) && Enabled(s, e) && !At(s, t).Returned?
    requires At(Apply(s, e), t) == Returned(StartCall, true)
    ensures var s' := Apply(s, e);
            s'.stopping || (s'.proc.Some? && s'.proc.value < |s'.children| && !s'.children[s'.proc.value].reaped)
  {
    if ActorIs(e, t) { assert Reached(s, At(s, t)); } else { OthersUnmoved(s, e, t); }
  }

  /** A failed step of a stop or restart keeps the owner and keeps later starts refused. */
  lemma FailedTakedownKeepsOwner(s: State, e: Event)
    requires Inv(s) && Enabled(s, e) && TakedownStep(e) && !e.ok
    ensures var s' := Apply(s, e);
            && s'.proc == s.proc == Some(At(s, e.t).child)
            && s'.children == s.children && s'.readers == s.readers && s'.stopping == s.stopping
            && s'.lifecycle == None && At(s', e.t).Returned? && !At(s', e.t).ok
  {
    assert Reached(s, At(s, e.t));
  }

  /** In every reachable state at most one child is unreaped, and it is the owned one. */
  lemma AtMostOneChild(preview: bool, events: seq<Event>)
    requires Legal(Initial(preview), events)
    ensures var s := Run(Initial(preview), events);
            forall c :: 0 <= c < |s.children| && !s.children[c].reaped ==> s.proc == Some(c)
  {
    InitialInv(preview);
    RunKeepsInv(Initial(preview), events);
  }

  // ---------- Nothing is launched while the newest stop is outstanding ----------

  /** The normal return of the newest stop request. */
  predicate EndsNewestStop(s: State, e: Event) {
    e.SettleStop? && At(s, e.t).Settling? && At(s, e.t).goal.generation == s.generation
  }

  /** No normal return of the newest stop anywhere in a run. */
  ghost predicate NewestStopOutstanding(s: State, events: seq<Event>)
    requires Legal(s, events)
    decreases |events|
  {
    events == [] || (!EndsNewestStop(s, events[0]) && NewestStopOutstanding(Apply(s, events[0]), events[1..]))
  }

  /** Starts are refused, and a restart under way began before the newest stop request. */
  ghost predicate Refusing(s: State) {
    && s.stopping
    && (forall t {:trigger At(s, t)} :: Outdated(At(s, t), s.generation))
  }

  predicate Outdated(pc: Pc, newest: nat) {
    match pc
    case Reaping(goal, _) => goal.ForRestart? ==> goal.generation < newest
    case Draining(goal, _) => goal.ForRestart? ==> goal.generation < newest
    case Joining(goal, _) => goal.ForRestart? ==> goal.generation < newest
    case Settling(goal) => goal.ForRestart? ==> goal.generation < newest
    case _ => true
  }

  lemma RequestRefuses(s: State, t: Tid)
    requires Inv(s) && Enabled(s, CallStop(t))
    ensures Refusing(Apply(s, CallStop(t)))
  {
    var s' := Apply(s, CallStop(t));
    forall u ensures Outdated(At(s', u), s'.generation) {
      assert Reached(s, At(s, u));
    }
  }

  lemma StepKeepsRefusing(s: State, e: Event)
    requires Inv(s) && Enabled(s, e) && Refusing(s) && !EndsNewestStop(s, e)
    ensures Refusing(Apply(s, e)) && |Apply(s, e).children| == |s.children|
  {
    if !NativeStep(e) { assert Outdated(At(s, e.t), s.generation); }
    forall u ensures Outdated(At(Apply(s, e), u), Apply(s, e).generation) {
      StaysOutdated(s, e, u);
    }
  }

  lemma StaysOutdated(s: State, e: Event, u: Tid)
    requires Enabled(s, e) && s.stopping && Outdated(At(s, u), s.generation)
    ensures Outdated(At(Apply(s, e), u), Apply(s, e).generation)
  {
    GenerationGrows(s, e);
    if !ActorIs(e, u) { OthersUnmoved(s, e, u); } else { ActorStaysOutdated(s, e); }
  }

  lemma ActorStaysOutdated(s: State, e: Event)
    requires Enabled(s, e) && !NativeStep(e) && s.stopping && Outdated(At(s, e.t), s.generation)
    ensures Outdated(At(Apply(s, e), e.t), Apply(s, e).generation)
  {
  }

  lemma {:induction false} RunKeepsRefusing(s: State, events: seq<Event>)
    requires Inv(s) && Refusing(s) && Legal(s, events) && NewestStopOutstanding(s, events)
    ensures Refusing(Run(s, events)) && |Run(s, events).children| == |s.children|
    decreases |events|
  {
    if events != [] {
      StepKeepsInv(s, events[0]);
      StepKeepsRefusing(s, events[0]);
      RunKeepsRefusing(Apply(s, events[0]), events[1..]);
    }
  }

  /** From a stop request until the newest stop returns normally no child is launched, even
      by a restart already under way; a failed stop changes nothing about that. */
  lemma NoLaunchWhileStopping(preview: bool, before: seq<Event>, t: Tid, after: seq<Event>)
    requires Legal(Initial(preview), before)
    requires var s := Run(Initial(preview), before);
             Enabled(s, CallStop(t)) && Legal(Apply(s, CallStop(t)), after)
             && NewestStopOutstanding(Apply(s, CallStop(t)), after)
    ensures var s := Run(Initial(preview), before);
            var s' := Run(Apply(s, CallStop(t)), after);
            |s'.children| == |s.children| && s'.stopping
  {
    var s := Run(Initial(preview), before);
    InitialInv(preview);
    RunKeepsInv(Initial(preview), before);
    StepKeepsInv(s, CallStop(t));
    RequestRefuses(s, t);
    RunKeepsRefusing(Apply(s, CallStop(t)), after);
  }
}
