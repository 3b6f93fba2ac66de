/** Output units carry the stamps of their own frames, provided stops do not overlap. */
module EncoderPairing {
  import opened Threads
  import opened EncoderProtocol
  import opened EncoderProofs

  // ---------- Stops one at a time ----------

  ghost predicate Stopping(s: State, t: Tid) {
    CallOf(At(s, t)) == Some(StopCall)
  }

  /** No stop is requested while another has not returned to its caller. */
  ghost predicate StopsTakeTurns(s: State, events: seq<Event>)
    requires Legal(s, events)
    decreases |events|
  {
    events == [] ||
    ((events[0].CallStop? ==> forall u :: !Stopping(s, u)) && StopsTakeTurns(Apply(s, events[0]), events[1..]))
  }

  ghost function StopsInProgress(s: State): set<Tid> {
    set t | t in s.pcs && CallOf(s.pcs[t]) == Some(StopCall)
  }

  /** Never more than `n` stops in progress at once. */
  ghost predicate StopsWithin(s: State, events: seq<Event>, n: nat)
    requires Legal(s, events)
    decreases |events|
  {
    events == [] ||
    ((events[0].CallStop? ==> |StopsInProgress(s)| < n) && StopsWithin(Apply(s, events[0]), events[1..], n))
  }

  lemma {:induction false} OneStopTakesTurns(s: State, events: seq<Event>, n: nat)
    requires Legal(s, events) && StopsWithin(s, events, n) && n <= 1
    ensures StopsTakeTurns(s, events)
    decreases |events|
  {
    if events != [] {
      if events[0].CallStop? { NobodyStops(s); }
      OneStopTakesTurns(Apply(s, events[0]), events[1..], n);
    }
  }

  lemma NobodyStops(s: State)
    requires |StopsInProgress(s)| == 0
    ensures forall u :: !Stopping(s, u)
  {
    forall u ensures !Stopping(s, u) { assert u !in StopsInProgress(s); }
  }

  // ---------- The invariant ----------

  predicate InWrite(pc: Pc) {
    pc.Admitted? || pc.Writing?
  }

  /** What a program point guarantees when stops take turns: a stop under way is the newest,
      and a writer past admission writes to the current child. */
  predicate Fenced(s: State, pc: Pc) {
    match pc
    case Admitted(c, _) => s.proc == Some(c)
    case Writing(c) => s.proc == Some(c)
    case StopWaiting(g) => s.stopping && s.generation == g
    case StopEntered(g) => s.stopping && s.generation == g
    case Reaping(goal, _) => GoalFenced(s, goal)
    case Draining(goal, _) => GoalFenced(s, goal)
    case Joining(goal, _) => GoalFenced(s, goal)
    case Settling(goal) => GoalFenced(s, goal)
    case _ => true
  }

  predicate GoalFenced(s: State, goal: Goal) {
    s.stopping && (goal.ForStop? ==> s.generation == goal.generation)
  }

  predicate StopRunning(pc: Pc) {
    CallOf(pc) == Some(StopCall) && !pc.Returned?
  }

  /** The generation a restart saw when it began, if this is a restart. */
  function RestartSaw(pc: Pc): Option<nat> {
    match pc
    case Reaping(goal, _) => if goal.ForRestart? then Some(goal.generation) else None
    case Draining(goal, _) => if goal.ForRestart? then Some(goal.generation) else None
    case Joining(goal, _) => if goal.ForRestart? then Some(goal.generation) else None
    case Settling(goal) => if goal.ForRestart? then Some(goal.generation) else None
    case _ => None
  }

  /** Two threads at these points at once: at most one stop, no writer left inside a write
      past the wait for the write lock, and no restart that would overlook a stop. */
  predicate Apart(s: State, t: Tid, u: Tid) {
    && (CallOf(At(s, t)) == Some(StopCall) && CallOf(At(s, u)) == Some(StopCall) ==> t == u)
    && (At(s, t).Joining? || At(s, t).Settling? ==> !InWrite(At(s, u)))
    && (RestartSaw(At(s, t)).Some? && StopRunning(At(s, u)) ==> RestartSaw(At(s, t)).value < s.generation)
  }

  /** The units delivered for a child carry the first stamps written to it, in order; the
      queue holds the rest of the current child's stamps. */
  ghost predicate ChildPaired(s: State, c: nat)
    requires c < |s.children|
  {
    var k := s.children[c];
    && |k.delivered| <= k.parsed <= |k.stamps|
    && (forall j :: 0 <= j < |k.delivered| ==> k.delivered[j] == Delivery(j, k.stamps[j]))
    && (k.checked ==> k.parsed == |k.delivered| + 1)
    && (s.proc == Some(c) ==> s.queue == k.stamps[|k.delivered|..])
    && (s.proc == Some(c) && !s.stopping && !k.checked ==> k.parsed == |k.delivered|)
  }

  ghost predicate Paired(s: State) {
    && (forall t, u :: Apart(s, t, u))
    && (forall t :: Fenced(s, At(s, t)))
    && (forall c :: 0 <= c < |s.children| ==> ChildPaired(s, c))
  }

  lemma InitialPaired(preview: bool)
    ensures Paired(Initial(preview))
  {
  }

  /** Everything the two invariants say about a thread and the actor of a step. */
  lemma Meet(s: State, e: Event, t: Tid)
    requires Inv(s) && Paired(s) && Enabled(s, e)
    ensures Fenced(s, At(s, t)) && Reached(s, At(s, t))
    ensures HoldsLifecycle(At(s, t)) ==> s.lifecycle == Some(t)
    ensures HoldsWrite(At(s, t)) ==> s.writeLock == Some(t)
    ensures !NativeStep(e) ==> Apart(s, t, e.t) && Apart(s, e.t, t)
    ensures !NativeStep(e) ==> Fenced(s, At(s, e.t)) && Reached(s, At(s, e.t))
    ensures !NativeStep(e) && HoldsLifecycle(At(s, e.t)) ==> s.lifecycle == Some(e.t)
    ensures !ActorIs(e, t) ==> At(Apply(s, e), t) == At(s, t)
  {
    if !ActorIs(e, t) { OthersUnmoved(s, e, t); }
  }

  lemma EntryKeepsFences(s: State, e: Event, t: Tid)
    requires Inv(s) && Paired(s) && Enabled(s, e) && EntryStep(e)
    ensures Fenced(Apply(s, e), At(Apply(s, e), t))
  {
    Meet(s, e, t);
  }

  lemma EntryKeepsApart(s: State, e: Event, u: Tid)
    requires Inv(s) && Paired(s) && Enabled(s, e) && EntryStep(e)
    ensures Apart(Apply(s, e), e.t, u) && Apart(Apply(s, e), u, e.t)
  {
    if e.Admit? { AdmitKeepsApart(s, e, u); } else { Meet(s, e, u); }
  }

  lemma AdmitKeepsApart(s: State, e: Event, u: Tid)
    requires Inv(s) && Paired(s) && Enabled(s, e) && e.Admit?
    ensures Apart(Apply(s, e), e.t, u) && Apart(Apply(s, e), u, e.t)
  {
    Meet(s, e, u);
  }

  lemma EntryKeepsPairs(s: State, e: Event, c: nat)
    requires Inv(s) && Paired(s) && Enabled(s, e) && EntryStep(e) && c < |Apply(s, e).children|
    ensures ChildPaired(Apply(s, e), c)
  {
    if c < |s.children| { assert ChildPaired(s, c); }
  }

  lemma WriteKeepsFences(s: State, e: Event, t: Tid)
    requires Inv(s) && Paired(s) && Enabled(s, e) && WriteStep(e)
    ensures Fenced(Apply(s, e), At(Apply(s, e), t))
  {
    Meet(s, e, t);
  }

  lemma WriteKeepsApart(s: State, e: Event, u: Tid)
    requires Inv(s) && Paired(s) && Enabled(s, e) && WriteStep(e)
    ensures Apart(Apply(s, e), e.t, u) && Apart(Apply(s, e), u, e.t)
  {
    if e.BeforeWrite? { StampKeepsApart(s, e, u); } else { Meet(s, e, u); }
  }

  lemma StampKeepsApart(s: State, e: Event, u: Tid)
    requires Inv(s) && Paired(s) && Enabled(s, e) && e.BeforeWrite?
    ensures Apart(Apply(s, e), e.t, u) && Apart(Apply(s, e), u, e.t)
  {
    Meet(s, e, u);
  }

  lemma WriteKeepsPairs(s: State, e: Event, c: nat)
    requires Inv(s) && Paired(s) && Enabled(s, e) && WriteStep(e) && c < |Apply(s, e).children|
    ensures ChildPaired(Apply(s, e), c)
  {
    if c < |s.children| { assert ChildPaired(s, c); }
  }

  lemma RequestKeepsFences(s: State, e: Event, t: Tid)
    requires Inv(s) && Paired(s) && Enabled(s, e) && RequestStep(e)
    requires e.CallStop? ==> forall v :: !Stopping(s, v)
    ensures Fenced(Apply(s, e), At(Apply(s, e), t))
  {
    Meet(s, e, t);
    if e.CallStop? { assert !Stopping(s, t); }
  }

  lemma StopRequestKeepsApart(s: State, e: Event, u: Tid)
    requires Inv(s) && Paired(s) && Enabled(s, e) && e.CallStop?
    requires forall v :: !Stopping(s, v)
    ensures Apart(Apply(s, e), e.t, u) && Apart(Apply(s, e), u, e.t)
  {
    Meet(s, e, u);
    assert !Stopping(s, u);
  }

  lemma RequestKeepsApart(s: State, e: Event, u: Tid)
    requires Inv(s) && Paired(s) && Enabled(s, e) && RequestStep(e) && !e.CallStop?
    ensures Apart(Apply(s, e), e.t, u) && Apart(Apply(s, e), u, e.t)
  {
    if e.StopRead? { StopReadKeepsApart(s, e, u); }
    else if e.StopTake? { StopTakeKeepsApart(s, e, u); }
    else { Meet(s, e, u); }
  }

  lemma StopTakeKeepsApart(s: State, e: Event, u: Tid)
    requires Inv(s) && Paired(s) && Enabled(s, e) && e.StopTake?
    ensures Apart(Apply(s, e), e.t, u) && Apart(Apply(s, e), u, e.t)
  {
    Meet(s, e, u);
  }

  lemma StopReadKeepsApart(s: State, e: Event, u: Tid)
    requires Inv(s) && Paired(s) && Enabled(s, e) && e.StopRead?
    ensures Apart(Apply(s, e), e.t, u) && Apart(Apply(s, e), u, e.t)
  {
    Meet(s, e, u);
  }

  lemma RequestKeepsPairs(s: State, e: Event, c: nat)
    requires Inv(s) && Paired(s) && Enabled(s, e) && RequestStep(e) && c < |Apply(s, e).children|
    ensures ChildPaired(Apply(s, e), c)
  {
    if c < |s.children| { assert ChildPaired(s, c); }
  }

  lemma TakedownKeepsFences(s: State, e: Event, t: Tid)
    requires Inv(s) && Paired(s) && Enabled(s, e) && TakedownStep(e)
    ensures Fenced(Apply(s, e), At(Apply(s, e), t))
  {
    Meet(s, e, t);
  }

  lemma TakedownKeepsApart(s: State, e: Event, u: Tid)
    requires Inv(s) && Paired(s) && Enabled(s, e) && TakedownStep(e)
    ensures Apart(Apply(s, e), e.t, u) && Apart(Apply(s, e), u, e.t)
  {
    if e.DrainWriter? { DrainKeepsApart(s, e, u); }
    else if e.JoinReaders? { JoinKeepsApart(s, e, u); }
    else { Meet(s, e, u); }
  }

  lemma JoinKeepsApart(s: State, e: Event, u: Tid)
    requires Inv(s) && Paired(s) && Enabled(s, e) && e.JoinReaders?
    ensures Apart(Apply(s, e), e.t, u) && Apart(Apply(s, e), u, e.t)
  {
    Meet(s, e, u);
  }

  /** Past the wait for the write lock no writer is left inside. */
  lemma DrainKeepsApart(s: State, e: Event, u: Tid)
    requires Inv(s) && Paired(s) && Enabled(s, e) && e.DrainWriter?
    ensures Apart(Apply(s, e), e.t, u) && Apart(Apply(s, e), u, e.t)
  {
    Meet(s, e, u);
  }

  lemma TakedownKeepsPairs(s: State, e: Event, c: nat)
    requires Inv(s) && Paired(s) && Enabled(s, e) && TakedownStep(e) && c < |Apply(s, e).children|
    ensures ChildPaired(Apply(s, e), c)
  {
    if c < |s.children| { assert ChildPaired(s, c); }
  }

  lemma TurnKeepsFences(s: State, e: Event, t: Tid)
    requires Inv(s) && Paired(s) && Enabled(s, e) && TurnStep(e)
    ensures Fenced(Apply(s, e), At(Apply(s, e), t))
  {
    Meet(s, e, t);
  }

  lemma TurnKeepsApart(s: State, e: Event, u: Tid)
    requires Inv(s) && Paired(s) && Enabled(s, e) && TurnStep(e)
    ensures Apart(Apply(s, e), e.t, u) && Apart(Apply(s, e), u, e.t)
  {
    Meet(s, e, u);
  }

  lemma TurnKeepsPairs(s: State, e: Event, c: nat)
    requires Inv(s) && Paired(s) && Enabled(s, e) && TurnStep(e) && c < |Apply(s, e).children|
    ensures ChildPaired(Apply(s, e), c)
  {
    if c < |s.children| { assert ChildPaired(s, c); }
  }

  lemma StartKeepsFences(s: State, e: Event, t: Tid)
    requires Inv(s) && Paired(s) && Enabled(s, e) && StartStep(e)
    ensures Fenced(Apply(s, e), At(Apply(s, e), t))
  {
    Meet(s, e, t);
  }

  lemma StartKeepsApart(s: State, e: Event, u: Tid)
    requires Inv(s) && Paired(s) && Enabled(s, e) && StartStep(e)
    ensures Apart(Apply(s, e), e.t, u) && Apart(Apply(s, e), u, e.t)
  {
    Meet(s, e, u);
  }

  lemma StartKeepsPairs(s: State, e: Event, c: nat)
    requires Inv(s) && Paired(s) && Enabled(s, e) && StartStep(e) && c < |Apply(s, e).children|
    ensures ChildPaired(Apply(s, e), c)
  {
    if c < |s.children| { assert ChildPaired(s, c); }
  }

  lemma ReplaceKeepsFences(s: State, e: Event, t: Tid)
    requires Inv(s) && Paired(s) && Enabled(s, e) && ReplaceStep(e)
    ensures Fenced(Apply(s, e), At(Apply(s, e), t))
  {
    Meet(s, e, t);
  }

  lemma ReplaceKeepsApart(s: State, e: Event, u: Tid)
    requires Inv(s) && Paired(s) && Enabled(s, e) && ReplaceStep(e)
    ensures Apart(Apply(s, e), e.t, u) && Apart(Apply(s, e), u, e.t)
  {
    Meet(s, e, u);
  }

  lemma ReplaceKeepsPairs(s: State, e: Event, c: nat)
    requires Inv(s) && Paired(s) && Enabled(s, e) && ReplaceStep(e) && c < |Apply(s, e).children|
    ensures ChildPaired(Apply(s, e), c)
  {
    assert Reached(s, At(s, e.t));
    if c < |s.children| { ReplacedStaysPaired(s, e, c); }
  }

  lemma ReplacedStaysPaired(s: State, e: Event, c: nat)
    requires Inv(s) && Paired(s) && Enabled(s, e) && ReplaceStep(e) && c < |s.children|
    ensures c < |Apply(s, e).children| && ChildPaired(Apply(s, e), c)
  {
    assert ChildPaired(s, c);
  }

  lemma NativeKeepsFences(s: State, e: Event, t: Tid)
    requires Inv(s) && Paired(s) && Enabled(s, e) && NativeStep(e)
    ensures Fenced(Apply(s, e), At(Apply(s, e), t))
  {
    Meet(s, e, t);
  }

  lemma NativeKeepsPairs(s: State, e: Event, c: nat)
    requires Inv(s) && Paired(s) && Enabled(s, e) && NativeStep(e) && c < |Apply(s, e).children|
    ensures ChildPaired(Apply(s, e), c)
  {
    if c < |s.children| { assert ChildPaired(s, c); }
  }


  lemma StepKeepsApart(s: State, e: Event, t: Tid, u: Tid)
    requires Inv(s) && Paired(s) && Enabled(s, e)
    requires e.CallStop? ==> forall v :: !Stopping(s, v)
    ensures Apart(Apply(s, e), t, u)
  {
    if ActorIs(e, t) { ActorKeepsApart(s, e, u); }
    else if ActorIs(e, u) { ActorKeepsApart(s, e, t); }
    else {
      assert Apart(s, t, u);
      OthersUnmoved(s, e, t);
      OthersUnmoved(s, e, u);
      GenerationGrows(s, e);
    }
  }

  lemma ActorKeepsApart(s: State, e: Event, u: Tid)
    requires Inv(s) && Paired(s) && Enabled(s, e) && !NativeStep(e)
    requires e.CallStop? ==> forall v :: !Stopping(s, v)
    ensures Apart(Apply(s, e), e.t, u) && Apart(Apply(s, e), u, e.t)
  {
    if EntryStep(e) { EntryKeepsApart(s, e, u); }
    else if WriteStep(e) { WriteKeepsApart(s, e, u); }
    else if e.CallStop? { StopRequestKeepsApart(s, e, u); }
    else if RequestStep(e) { RequestKeepsApart(s, e, u); }
    else if TakedownStep(e) { TakedownKeepsApart(s, e, u); }
    else if TurnStep(e) { TurnKeepsApart(s, e, u); }
    else if StartStep(e) { StartKeepsApart(s, e, u); }
    else { ReplaceKeepsApart(s, e, u); }
  }

  lemma StepKeepsFences(s: State, e: Event, t: Tid)
    requires Inv(s) && Paired(s) && Enabled(s, e)
    requires e.CallStop? ==> forall v :: !Stopping(s, v)
    ensures Fenced(Apply(s, e), At(Apply(s, e), t))
  {
    if EntryStep(e) { EntryKeepsFences(s, e, t); }
    else if WriteStep(e) { WriteKeepsFences(s, e, t); }
    else if RequestStep(e) { RequestKeepsFences(s, e, t); }
    else if TakedownStep(e) { TakedownKeepsFences(s, e, t); }
    else if TurnStep(e) { TurnKeepsFences(s, e, t); }
    else if StartStep(e) { StartKeepsFences(s, e, t); }
    else if ReplaceStep(e) { ReplaceKeepsFences(s, e, t); }
    else { NativeKeepsFences(s, e, t); }
  }

  lemma StepKeepsPairs(s: State, e: Event, c: nat)
    requires Inv(s) && Paired(s) && Enabled(s, e) && c < |Apply(s, e).children|
    ensures ChildPaired(Apply(s, e), c)
  {
    if EntryStep(e) { EntryKeepsPairs(s, e, c); }
    else if WriteStep(e) { WriteKeepsPairs(s, e, c); }
    else if RequestStep(e) { RequestKeepsPairs(s, e, c); }
    else if TakedownStep(e) { TakedownKeepsPairs(s, e, c); }
    else if TurnStep(e) { TurnKeepsPairs(s, e, c); }
    else if StartStep(e) { StartKeepsPairs(s, e, c); }
    else if ReplaceStep(e) { ReplaceKeepsPairs(s, e, c); }
    else { NativeKeepsPairs(s, e, c); }
  }

  /** Every step keeps the pairing as long as stops take turns. */
  lemma StepKeepsPaired(s: State, e: Event)
    requires Inv(s) && Paired(s) && Enabled(s, e)
    requires e.CallStop? ==> forall v :: !Stopping(s, v)
    ensures Paired(Apply(s, e))
  {
    var s' := Apply(s, e);
    forall t, u ensures Apart(s', t, u) { StepKeepsApart(s, e, t, u); }
    forall t ensures Fenced(s', At(s', t)) { StepKeepsFences(s, e, t); }
    forall c: nat | 0 <= c < |s'.children| ensures ChildPaired(s', c) { StepKeepsPairs(s, e, c); }
  }

  lemma {:induction false} RunKeepsPaired(s: State, events: seq<Event>)
    requires Inv(s) && Paired(s) && Legal(s, events) && StopsTakeTurns(s, events)
    ensures Inv(Run(s, events)) && Paired(Run(s, events))
    decreases |events|
  {
    if events != [] {
      StepKeepsInv(s, events[0]);
      StepKeepsPaired(s, events[0]);
      RunKeepsPaired(Apply(s, events[0]), events[1..]);
    }
  }

  // ---------- Results ----------

  /** Unit `j` delivered for a child carries stamp `j` written to that child. */
  ghost predicate StampsMatch(k: Child) {
    && |k.delivered| <= |k.stamps|
    && forall j :: 0 <= j < |k.delivered| ==> k.delivered[j] == Delivery(j, k.stamps[j])
  }

  ghost predicate AllMatch(s: State) {
    forall k :: k in s.children ==> StampsMatch(k)
  }

  /** With stops taking turns, in every reachable state and for every child the delivered
      units are paired with their own stamps. */
  lemma DeliveriesCarryTheirStamps(preview: bool, events: seq<Event>)
    requires Legal(Initial(preview), events) && StopsTakeTurns(Initial(preview), events)
    ensures var s := Run(Initial(preview), events);
            |s.queue| <= MAX_STAMPS && AllMatch(s)
  {
    InitialInv(preview);
    InitialPaired(preview);
    RunKeepsPaired(Initial(preview), events);
    var s := Run(Initial(preview), events);
    forall k | k in s.children ensures StampsMatch(k) {
      var c :| 0 <= c < |s.children| && s.children[c] == k;
      assert ChildPaired(s, c);
    }
  }

  /** A reader that may take a stamp always finds one. */
  lemma QueueNeverUnderflows(s: State, c: nat)
    requires Inv(s) && Paired(s) && Enabled(s, EmitPop(c))
    ensures s.proc == Some(c) && s.queue != []
    ensures var k := s.children[c];
            && |k.delivered| < |k.stamps|
            && Apply(s, EmitPop(c)).children[c].delivered
               == k.delivered + [Delivery(|k.delivered|, k.stamps[|k.delivered|])]
  {
    assert ChildPaired(s, c);
  }

  /** When a replacement is launched no writer is past admission. */
  lemma LaunchesWithoutWriters(s: State, e: Event, u: Tid)
    requires Inv(s) && Paired(s) && Enabled(s, e) && |Apply(s, e).children| != |s.children|
    ensures !InWrite(At(s, u))
  {
    Meet(s, e, u);
  }
}
