/** How calls and internal steps move the threads inside an encoder. */
module EncoderInterface {
  import opened Threads
  import opened EncoderProtocol
  import opened EncoderProofs
  import opened EncoderPairing

  /** Both invariants of an encoder whose stops take turns. */
  ghost predicate Sound(s: State) {
    Inv(s) && Paired(s)
  }

  ghost predicate Inside(s: State, t: Tid, call: Option<Call>) {
    CallOf(At(s, t)) == call
  }

  ghost predicate NobodyInside(s: State, call: Call) {
    forall t :: CallOf(At(s, t)) != Some(call)
  }

  lemma InitialSound(preview: bool)
    ensures Sound(Initial(preview)) && Stopped(Initial(preview))
    ensures forall t :: Inside(Initial(preview), t, None)
  {
    InitialInv(preview);
    InitialPaired(preview);
  }

  /** Nothing but the threads inside may differ, and of those only `t`. */
  ghost predicate OnlyMoved(s: State, s': State, t: Tid, call: Option<Call>) {
    && Inside(s', t, call)
    && (forall u :: u != t ==> CallOf(At(s', u)) == CallOf(At(s, u)))
    && s'.preview == s.preview && s'.proc == s.proc && s'.children == s.children && s'.readers == s.readers
  }

  lemma CallWriteMoves(s: State, t: Tid, stamp: Stamp)
    requires Sound(s) && At(s, t).Idle?
    ensures var s' := BeginWrite(s, t, stamp);
            Sound(s') && OnlyMoved(s, s', t, Some(WriteCall)) && s'.stopping == s.stopping
  {
    StepKeepsInv(s, CallWrite(t, stamp));
    StepKeepsPaired(s, CallWrite(t, stamp));
  }

  lemma CallStartMoves(s: State, t: Tid)
    requires Sound(s) && At(s, t).Idle?
    ensures var s' := BeginStart(s, t);
            Sound(s') && OnlyMoved(s, s', t, Some(StartCall)) && s'.stopping == s.stopping
  {
    StepKeepsInv(s, CallStart(t));
    StepKeepsPaired(s, CallStart(t));
  }

  lemma CallStopMoves(s: State, t: Tid)
    requires Sound(s) && At(s, t).Idle? && NobodyInside(s, StopCall)
    ensures var s' := BeginStop(s, t);
            Sound(s') && OnlyMoved(s, s', t, Some(StopCall)) && s'.stopping
  {
    StepKeepsInv(s, CallStop(t));
    forall v ensures !Stopping(s, v) { assert CallOf(At(s, v)) != Some(StopCall); }
    StepKeepsPaired(s, CallStop(t));
  }

  lemma ReturnMoves(s: State, t: Tid)
    requires Sound(s) && At(s, t).Returned?
    ensures var s' := Leave(s, t);
            Sound(s') && OnlyMoved(s, s', t, None) && s'.stopping == s.stopping
  {
    StepKeepsInv(s, Return(t));
    StepKeepsPaired(s, Return(t));
  }

  /** What an internal step may change, as far as a caller can tell. */
  ghost predicate Internal(s: State, s': State) {
    && s'.preview == s.preview
    && (forall t :: CallOf(At(s', t)) == CallOf(At(s, t)))
    && (NobodyInside(s, StartCall) && s.proc.None? ==> s'.proc.None? && |s'.children| == |s.children|)
    && (NobodyInside(s, StartCall) && Stopped(s) ==> Stopped(s'))
  }

  lemma StaysInside(s: State, e: Event, t: Tid)
    requires Inv(s) && Enabled(s, e) && !External(e)
    ensures CallOf(At(Apply(s, e), t)) == CallOf(At(s, t))
  {
    if !ActorIs(e, t) { OthersUnmoved(s, e, t); }
    else if WriteStep(e) || EntryStep(e) { ActorStaysWriting(s, e); }
    else { ActorStaysInside(s, e); }
  }

  lemma ActorStaysWriting(s: State, e: Event)
    requires Inv(s) && Enabled(s, e) && !External(e) && (WriteStep(e) || EntryStep(e))
    ensures CallOf(At(Apply(s, e), e.t)) == CallOf(At(s, e.t))
  {
  }

  lemma ActorStaysInside(s: State, e: Event)
    requires Inv(s) && Enabled(s, e) && !External(e) && !NativeStep(e) && !WriteStep(e) && !EntryStep(e)
    ensures CallOf(At(Apply(s, e), e.t)) == CallOf(At(s, e.t))
  {
    if e.StartDecide? || e.SettleRestart? { LauncherStaysInside(s, e); }
    else if TakedownStep(e) { TakedownStaysInside(s, e); }
  }

  lemma TakedownStaysInside(s: State, e: Event)
    requires Inv(s) && Enabled(s, e) && TakedownStep(e)
    ensures CallOf(At(Apply(s, e), e.t)) == CallOf(At(s, e.t))
  {
  }

  lemma LauncherStaysInside(s: State, e: Event)
    requires Inv(s) && Enabled(s, e) && (e.StartDecide? || e.SettleRestart?)
    ensures CallOf(At(Apply(s, e), e.t)) == CallOf(At(s, e.t))
  {
  }

  lemma StaysDown(s: State, e: Event)
    requires Inv(s) && Enabled(s, e) && !External(e)
    requires NobodyInside(s, StartCall) && s.proc.None?
    ensures var s' := Apply(s, e);
            s'.proc.None? && |s'.children| == |s.children| && (Stopped(s) ==> Stopped(s'))
  {
    if !NativeStep(e) {
      assert Reached(s, At(s, e.t)) && CallOf(At(s, e.t)) != Some(StartCall);
    }
  }

  lemma InternalStep(s: State, e: Event)
    requires Sound(s) && Enabled(s, e) && !External(e)
    ensures Sound(Apply(s, e)) && Internal(s, Apply(s, e))
  {
    StepKeepsInv(s, e);
    StepKeepsPaired(s, e);
    forall t ensures CallOf(At(Apply(s, e), t)) == CallOf(At(s, t)) { StaysInside(s, e, t); }
    if NobodyInside(s, StartCall) && s.proc.None? { StaysDown(s, e); }
    PreviewStays(s, e);
  }

  lemma PreviewStays(s: State, e: Event)
    requires Enabled(s, e)
    ensures Apply(s, e).preview == s.preview
  {
  }

  /** A stopped encoder has no native work left. */
  lemma StoppedIsQuiet(s: State)
    requires Inv(s) && s.proc.None?
    ensures s.readers == {} && s.alive == {}
    ensures forall c :: 0 <= c < |s.children| ==> s.children[c].reaped
  {
    forall r ensures r !in s.readers {}
  }
}
