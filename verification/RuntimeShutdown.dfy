/** The order in which the runtime shuts down, through failed and retried stops.

  The thread that owns the lifecycle lock closes the gate and waits for admitted operations to
  leave, sets the channels inactive one after the other, joins the pumps, gives up the endpoint,
  and closes control at the end.  `Phase` says what it has achieved at each of these points: the
  channels up to some number are down, the pumps up to some number have exited.  Other threads
  go on in between and cannot undo any of it; a channel that is down stays down until the
  runtime is started again.  A step that fails gives the lock back and keeps every owner, so
  that the stop can be tried again.
 */
module RuntimeShutdown {
  import opened Threads
  import E = EncoderProtocol
  import I = EncoderInterface
  import RawFrames
  import opened RuntimeProtocol
  import opened RuntimeChannels
  import opened RuntimeInvariant

  // ---------- A channel that has been taken down ----------

  /** Not inside a call to the encoder of channel `c`, nor about to make one. */
  predicate Idling(pc: Pc, c: nat) {
    match pc
    case Switching(d, _, _, at) => c == d ==> at.Wanting? || at.Checking?
    case Configuring(_, at) => c == 0 ==> at.ConfWanting? || at.ConfChecking?
    case Pumping(d, at) => c == d ==> !at.PumpWriting?
    case _ => true
  }

  predicate Silent(ch: Channel) {
    !ch.active && !ch.stopping && E.Stopped(ch.encoder)
  }

  /** Inactive, with a stopped encoder that no thread is about to enter. */
  ghost predicate Down(s: State, c: nat) {
    && s.g.closing && c < |s.channels| && Silent(s.channels[c])
    && forall t {:trigger At(s, t)} :: Idling(At(s, t), c)
  }

  ghost predicate DownBelow(s: State, n: nat) {
    forall c: nat :: c < n ==> Down(s, c)
  }

  // ---------- The phases of a shutdown ----------

  /** The gate is closed, and no source control operation is left. */
  predicate Quiet(g: Global) {
    g.closing && g.pumpStop && (g.hasControl ==> g.gateClosed && g.jobs == {})
  }

  predicate StartingUp(g: Global) {
    g.started && !g.closing && !g.pumpStop
  }

  /** What the owner of the lifecycle lock has achieved at its program point. */
  ghost predicate Phase(s: State, pc: Pc) {
    match pc
    case Owning(Creating) => StartingUp(s.g) && !s.g.hasControl && PumpsIdle(s, 0, |s.channels|)
    case Owning(PumpStarting(c)) => StartingUp(s.g) && s.g.hasControl && PumpsIdle(s, c, |s.channels|)
    case Owning(Listening) => StartingUp(s.g) && s.g.hasControl
    case Owning(Closing) => s.g.closing
    case Owning(Quiescing) => s.g.closing && s.g.gateClosed
    case Owning(StopAt(c)) => Quiet(s.g) && DownBelow(s, c)
    case Switching(c, _, Shutdown, at) =>
      Quiet(s.g) && DownBelow(s, c) && Muting(at)
    case Switched(c, Shutdown, ok) => Quiet(s.g) && DownBelow(s, c) && (ok ==> Down(s, c))
    case Owning(JoinAt(c)) => Quiet(s.g) && DownBelow(s, |s.channels|) && PumpsIdle(s, 0, c)
    case Owning(Releasing) => Quiet(s.g) && DownBelow(s, |s.channels|) && PumpsIdle(s, 0, |s.channels|)
    case Owning(RpcClosing) =>
      Quiet(s.g) && DownBelow(s, |s.channels|) && PumpsIdle(s, 0, |s.channels|) && !s.g.endpoint
    case _ => true
  }

  ghost predicate Orderly(s: State) {
    && (forall t {:trigger At(s, t)} :: Phase(s, At(s, t)))
    && (!s.g.started ==> !s.g.hasControl && PumpsIdle(s, 0, |s.channels|))
    && (!s.g.hasControl ==> s.g.jobs == {} && !s.g.endpoint)
  }

  ghost predicate Inv(s: State) {
    Consistent(s) && Orderly(s)
  }

  // ---------- What other threads leave alone ----------

  /** What nobody but the owner changes. */
  predicate Same(g: Global, g': Global) {
    && g'.closing == g.closing && g'.started == g.started && g'.pumpStop == g.pumpStop
    && g'.hasControl == g.hasControl && g'.endpoint == g.endpoint && g'.gateClosed == g.gateClosed
    && ((g.hasControl ==> g.gateClosed) && g.jobs == {} ==> g'.jobs == {})
  }

  lemma CallIsSame(n: nat, w: There, t: Tid, e: CallEvent)
    requires CallEnabled(n, w, t, e) && Owned(w.g, t, w.pc)
    ensures Same(w.g, CallApply(n, w, t, e).g)
  {
    if e.Admit? || e.ExitJob? { JobIsSame(n, w, t, e); } else { OtherCallIsSame(n, w, t, e); }
  }

  lemma OtherCallIsSame(n: nat, w: There, t: Tid, e: CallEvent)
    requires CallEnabled(n, w, t, e) && !e.Admit? && !e.ExitJob?
    ensures Same(w.g, CallApply(n, w, t, e).g)
  {
  }

  lemma JobIsSame(n: nat, w: There, t: Tid, e: CallEvent)
    requires CallEnabled(n, w, t, e) && Owned(w.g, t, w.pc) && (e.Admit? || e.ExitJob?)
    ensures Same(w.g, CallApply(n, w, t, e).g)
  {
  }

  lemma OwnerActsAlone(s: State, t: Tid, e: OwnerEvent, u: Tid)
    requires Consistent(s) && OwnerEnabled(s, t, e) && IsOwner(At(s, u))
    ensures t == u
  {
    assert Owned(s.g, t, At(s, t)) && Owned(s.g, u, At(s, u));
  }

  /** A pump that has exited does not come back by itself. */
  lemma IdleStaysIdle(s: State, e: Event, c: nat)
    requires Consistent(s) && Enabled(s, e) && At(s, Pump(c)).Idle? && !Spawns(s, e, Pump(c))
    ensures At(Apply(s, e), Pump(c)).Idle?
  {
    if !ActorIs(e, Pump(c)) { OthersUnmoved(s, e, Pump(c)); }
  }

  // ---------- A channel stays down ----------

  lemma LocalKeepsSilent(g: Global, v: Here, t: Tid, c: nat, e: LocalEvent)
    requires LocalEnabled(g, v, t, e) && ChannelOf(v.pc) == Some(c) && !v.pc.Owning?
    requires g.closing && Silent(v.ch) && Idling(v.pc, c)
    ensures var v' := LocalApply(g, v, t, e); Silent(v'.ch) && Idling(v'.pc, c)
  {
  }

  lemma LocalStaysIdling(g: Global, v: Here, t: Tid, c: nat, e: LocalEvent)
    requires LocalEnabled(g, v, t, e) && ChannelOf(v.pc).Some? && ChannelOf(v.pc) != Some(c) && Idling(v.pc, c)
    ensures Idling(LocalApply(g, v, t, e).pc, c)
  {
    LocalMovesOn(g, v, t, e);
  }

  lemma EncoderStaysStopped(s: State, c: nat, e: E.Event)
    requires Consistent(s) && EncoderCan(s, c, e) && Down(s, c)
    ensures E.Stopped(E.Apply(s.channels[c].encoder, e))
  {
    I.InternalStep(s.channels[c].encoder, e);
    assert AllAgree(s, c);
    forall u ensures E.CallOf(E.At(s.channels[c].encoder, u)) != Some(E.StartCall) {
      assert Agrees(u, At(s, u), c, s.channels[c]) && Idling(At(s, u), c);
    }
  }

  /** A step that is the owner's own work on channel `c`. */
  predicate TakesDown(s: State, t: Tid, c: nat) {
    IsOwner(At(s, t)) && ChannelOf(At(s, t)) == Some(c)
  }

  lemma EncoderKeepsDown(s: State, c: nat, e: E.Event, d: nat)
    requires Consistent(s) && EncoderCan(s, c, e) && Down(s, d)
    ensures Down(EncoderDo(s, c, e), d)
  {
    if c == d { EncoderStaysStopped(s, c, e); }
    forall u ensures Idling(At(EncoderDo(s, c, e), u), d) { assert Idling(At(s, u), d); }
  }

  lemma AcceptKeepsDown(s: State, submission: RawFrames.Submission, stamp: int, d: nat)
    requires Down(s, d)
    ensures Down(Accept(s, submission, stamp), d)
  {
    forall u ensures Idling(At(Accept(s, submission, stamp), u), d) { assert Idling(At(s, u), d); }
  }

  lemma LocalKeepsDown(s: State, t: Tid, e: LocalEvent, d: nat)
    requires Consistent(s) && LocalCan(s, t, e) && Down(s, d) && !TakesDown(s, t, d)
    ensures Down(LocalDo(s, t, e), d)
  {
    var s' := LocalDo(s, t, e);
    assert Idling(At(s, t), d);
    LocalTouches(s, t, e, d);
    if ChannelOf(At(s, t)) == Some(d) { LocalKeepsSilent(s.g, HereOf(s, t), t, d, e); }
    else { LocalStaysIdling(s.g, HereOf(s, t), t, d, e); }
    forall u ensures Idling(At(s', u), d) {
      assert Idling(At(s, u), d);
      LocalMovesOne(s, t, e, u);
    }
  }

  lemma CallKeepsDown(s: State, t: Tid, e: CallEvent, d: nat)
    requires Consistent(s) && CallCan(s, t, e) && Down(s, d)
    ensures Down(CallDo(s, t, e), d)
  {
    var s' := CallDo(s, t, e);
    assert Owned(s.g, t, At(s, t));
    CallIsSame(|s.channels|, ThereOf(s, t), t, e);
    forall u ensures Idling(At(s', u), d) {
      assert Idling(At(s, u), d);
      CallMovesOne(s, t, e, u);
    }
  }

  lemma OwnerKeepsDown(s: State, t: Tid, e: OwnerEvent, d: nat)
    requires Consistent(s) && OwnerEnabled(s, t, e) && Down(s, d) && OwnerDo(s, t, e).g.closing
    ensures Down(OwnerDo(s, t, e), d)
  {
    var s' := OwnerDo(s, t, e);
    forall u ensures Idling(At(s', u), d) {
      assert Idling(At(s, u), d);
      if !Starts(s, t, e, u) { OwnerMovesOne(s, t, e, u); }
    }
  }

  lemma StepKeepsDown(s: State, e: Event, d: nat)
    requires Consistent(s) && Enabled(s, e) && Down(s, d) && Apply(s, e).g.closing
    requires e.ChannelStep? ==> !TakesDown(s, e.t, d)
    ensures Down(Apply(s, e), d)
  {
    match e
    case EncoderStep(c, ev) => EncoderKeepsDown(s, c, ev, d);
    case Submit(submission, stamp) => AcceptKeepsDown(s, submission, stamp, d);
    case ChannelStep(t, ev) => LocalKeepsDown(s, t, ev, d);
    case CallStep(t, ev) => CallKeepsDown(s, t, ev, d);
    case OwnerStep(t, ev) => OwnerKeepsDown(s, t, ev, d);
  }

  // ---------- Phases of a waiting owner ----------

  /** What a phase depends on stays. */
  ghost predicate Steady(s: State, s': State) {
    && Same(s.g, s'.g) && |s'.channels| == |s.channels|
    && (forall c: nat :: Down(s, c) ==> Down(s', c))
    && (forall c: nat :: At(s, Pump(c)).Idle? ==> At(s', Pump(c)).Idle?)
  }

  lemma SteadyKeepsPhase(s: State, s': State, pc: Pc)
    requires Steady(s, s') && Phase(s, pc)
    ensures Phase(s', pc)
  {
  }

  lemma OthersAreSteady(s: State, e: Event, u: Tid)
    requires Consistent(s) && Enabled(s, e) && IsOwner(At(s, u)) && !ActorIs(e, u)
    ensures Steady(s, Apply(s, e))
  {
    var s' := Apply(s, e);
    StepKeepsShape(s, e);
    OthersKeepGlobals(s, e, u);
    if e.OwnerStep? { OwnerActsAlone(s, e.t, e.owner, u); }
    forall c: nat | Down(s, c) ensures Down(s', c) {
      assert e.ChannelStep? ==> Owned(s.g, e.t, At(s, e.t)) && Owned(s.g, u, At(s, u));
      StepKeepsDown(s, e, c);
    }
    forall c: nat | At(s, Pump(c)).Idle? ensures At(s', Pump(c)).Idle? { IdleStaysIdle(s, e, c); }
  }

  lemma OthersKeepGlobals(s: State, e: Event, u: Tid)
    requires Consistent(s) && Enabled(s, e) && IsOwner(At(s, u)) && !ActorIs(e, u)
    ensures Same(s.g, Apply(s, e).g)
  {
    if e.OwnerStep? { OwnerActsAlone(s, e.t, e.owner, u); }
    else if e.CallStep? { CallStepIsSame(s, e.t, e.call); }
    else { QuietStepIsSame(s, e); }
  }

  lemma QuietStepIsSame(s: State, e: Event)
    requires Enabled(s, e) && !e.OwnerStep? && !e.CallStep?
    ensures Same(s.g, Apply(s, e).g)
  {
  }

  lemma CallStepIsSame(s: State, t: Tid, e: CallEvent)
    requires Consistent(s) && CallCan(s, t, e)
    ensures Same(s.g, CallDo(s, t, e).g)
  {
    assert Owned(s.g, t, At(s, t));
    CallIsSame(|s.channels|, ThereOf(s, t), t, e);
  }

  lemma OthersKeepPhase(s: State, e: Event, u: Tid)
    requires Inv(s) && Enabled(s, e) && !ActorIs(e, u) && !Spawns(s, e, u)
    ensures Phase(Apply(s, e), At(s, u))
  {
    assert Phase(s, At(s, u));
    if IsOwner(At(s, u)) {
      OthersAreSteady(s, e, u);
      SteadyKeepsPhase(s, Apply(s, e), At(s, u));
    }
  }

  // ---------- The owner's own steps on a channel ----------

  /** The points of a deactivation under the transition lock. */
  predicate Muting(at: SwitchPoint) {
    !Activating(at) && !at.Wanting? && !at.Checking?
  }

  /** The end of a deactivation during a shutdown brings the channel down. */
  lemma DeactivateBringsDown(s: State, t: Tid, c: nat)
    requires Consistent(s) && s.g.closing && c < |s.channels|
    requires IsAt(At(s, t), Drained) && At(s, t).c == c
    ensures LocalCan(s, t, Deactivation(Deactivate)) && Down(LocalDo(s, t, Deactivation(Deactivate)), c)
  {
    var e := Deactivation(Deactivate);
    assert AllAgree(s, c);
    assert Agrees(t, At(s, t), c, s.channels[c]);
    forall u ensures Idling(At(LocalDo(s, t, e), u), c) {
      assert Agrees(u, At(s, u), c, s.channels[c]);
      LocalMovesOne(s, t, e, u);
    }
  }

  /** A step of a shutdown on its channel. */
  lemma LocalShutdownMoves(v: Here, t: Tid, e: DeactivateEvent)
    requires DeactivateEnabled(v, t, e) && v.pc.Switching? && Muting(v.pc.at)
    ensures var pc' := DeactivateApply(v, t, e).pc;
            || (e.Deactivate? && v.pc.at.Drained?)
            || pc' == Switched(v.pc.c, v.pc.task, false)
            || (pc'.Switching? && Muting(pc'.at))
  {
  }

  /** Work on one channel leaves the others down. */
  lemma LocalKeepsDownBelow(s: State, t: Tid, e: LocalEvent, n: nat)
    requires Consistent(s) && LocalCan(s, t, e) && DownBelow(s, n) && ChannelOf(At(s, t)) == Some(n)
    ensures DownBelow(LocalDo(s, t, e), n)
  {
    forall c: nat | c < n ensures Down(LocalDo(s, t, e), c) { LocalKeepsDown(s, t, e, c); }
  }

  lemma OwnLocalKeepsPhase(s: State, t: Tid, e: LocalEvent)
    requires Inv(s) && LocalCan(s, t, e)
    ensures Phase(LocalDo(s, t, e), LocalApply(s.g, HereOf(s, t), t, e).pc)
  {
    var pc, c := At(s, t), ChannelOf(At(s, t)).value;
    assert Phase(s, pc);
    LocalMovesOn(s.g, HereOf(s, t), t, e);
    if IsOwner(pc) {
      LocalKeepsDownBelow(s, t, e, c);
      if pc.Switching? {
        LocalShutdownMoves(HereOf(s, t), t, e.deactivate);
        if e.deactivate.Deactivate? { DeactivateBringsDown(s, t, c); }
      }
    }
  }

  // ---------- The owner's other steps ----------

  lemma OwnCallKeepsPhase(s: State, t: Tid, e: CallEvent)
    requires Inv(s) && CallCan(s, t, e)
    ensures Phase(CallDo(s, t, e), CallApply(|s.channels|, ThereOf(s, t), t, e).pc)
  {
    var pc := At(s, t);
    assert Phase(s, pc) && Placed(|s.channels|, t, pc);
    if HasTask(pc, Shutdown) && pc.Switched? && pc.ok {
      forall c: nat | c < pc.c + 1 ensures Down(CallDo(s, t, e), c) {
        assert Down(s, c);
        CallKeepsDown(s, t, e, c);
      }
    }
  }

  predicate StartsUp(e: OwnerEvent) {
    e.StartRuntime? || e.CreateControl? || e.StartPump? || e.Listen? || e.StopRuntime? || e.CloseGate?
  }

  lemma OwnerPumpsStayIdle(s: State, t: Tid, e: OwnerEvent, from: nat, to: nat)
    requires Consistent(s) && OwnerEnabled(s, t, e) && PumpsIdle(s, from, to)
    requires forall c :: from <= c < to ==> !Starts(s, t, e, Pump(c))
    ensures PumpsIdle(OwnerDo(s, t, e), from, to)
  {
    forall c: nat | from <= c < to ensures At(OwnerDo(s, t, e), Pump(c)).Idle? {
      assert At(s, Pump(c)).Idle? && Placed(|s.channels|, t, At(s, t));
      OwnerMovesOne(s, t, e, Pump(c));
    }
  }

  lemma OwnerStartKeepsPhase(s: State, t: Tid, e: OwnerEvent)
    requires Inv(s) && OwnerEnabled(s, t, e) && StartsUp(e)
    ensures Phase(OwnerDo(s, t, e), OwnerApply(|s.channels|, NothingToStop(s), ThereOf(s, t), t, e).pc)
  {
    var pc, n := At(s, t), |s.channels|;
    assert Phase(s, pc);
    if e.StartRuntime? || e.CreateControl? { OwnerPumpsStayIdle(s, t, e, 0, n); }
    if e.StartPump? && pc.owner.c < n { OwnerPumpsStayIdle(s, t, e, pc.owner.c + 1, n); }
  }

  lemma OwnerKeepsAllDown(s: State, t: Tid, e: OwnerEvent, n: nat)
    requires Consistent(s) && OwnerEnabled(s, t, e) && DownBelow(s, n) && OwnerDo(s, t, e).g.closing
    ensures DownBelow(OwnerDo(s, t, e), n)
  {
    forall c: nat | c < n ensures Down(OwnerDo(s, t, e), c) { OwnerKeepsDown(s, t, e, c); }
  }

  lemma OwnerStopKeepsPhase(s: State, t: Tid, e: OwnerEvent)
    requires Inv(s) && OwnerEnabled(s, t, e) && !StartsUp(e)
    ensures Phase(OwnerDo(s, t, e), OwnerApply(|s.channels|, NothingToStop(s), ThereOf(s, t), t, e).pc)
  {
    var pc, n := At(s, t), |s.channels|;
    assert Phase(s, pc) && Placed(n, t, pc);
    if e.JoinPump? && e.ok {
      OwnerKeepsAllDown(s, t, e, n);
      OwnerPumpsStayIdle(s, t, e, 0, pc.owner.c + 1);
    }
    if e.ReleaseEndpoint? && e.ok {
      OwnerKeepsAllDown(s, t, e, n);
      OwnerPumpsStayIdle(s, t, e, 0, n);
    }
  }

  // ---------- Every step keeps the order ----------

  lemma PumpsStartIdle(s: State, e: Event)
    requires Inv(s) && Enabled(s, e)
    ensures SpawnsOnIdle(s, e)
  {
    if e.OwnerStep? { OwnerStartsIdle(s, e.t, e.owner); }
  }

  lemma OwnerStartsIdle(s: State, t: Tid, e: OwnerEvent)
    requires Inv(s) && OwnerEnabled(s, t, e)
    ensures StartsOnIdle(s, t, e)
  {
    forall u | Starts(s, t, e, u) ensures At(s, u).Idle? { assert Phase(s, At(s, t)); }
  }

  lemma ActorKeepsPhase(s: State, e: Event, u: Tid)
    requires Inv(s) && Enabled(s, e) && ActorIs(e, u) && !Spawns(s, e, u)
    ensures Phase(Apply(s, e), At(Apply(s, e), u))
  {
    match e
    case ChannelStep(t, ev) =>
      OwnLocalKeepsPhase(s, t, ev);
      LocalMovesOne(s, t, ev, u);
    case CallStep(t, ev) =>
      OwnCallKeepsPhase(s, t, ev);
      CallMovesOne(s, t, ev, u);
    case OwnerStep(t, ev) =>
      if StartsUp(ev) { OwnerStartKeepsPhase(s, t, ev); } else { OwnerStopKeepsPhase(s, t, ev); }
      OwnerMovesOne(s, t, ev, u);
  }

  lemma StepKeepsPhase(s: State, e: Event, u: Tid)
    requires Inv(s) && Enabled(s, e)
    ensures Phase(Apply(s, e), At(Apply(s, e), u))
  {
    if !Spawns(s, e, u) {
      if ActorIs(e, u) { ActorKeepsPhase(s, e, u); }
      else {
        OthersKeepPhase(s, e, u);
        OthersUnmoved(s, e, u);
      }
    }
  }

  ghost predicate Flags(g: Global) {
    && (!g.started ==> !g.hasControl)
    && (!g.hasControl ==> g.jobs == {} && !g.endpoint)
  }

  lemma OwnerKeepsFlags(s: State, t: Tid, e: OwnerEvent)
    requires Inv(s) && OwnerEnabled(s, t, e) && Flags(s.g)
    ensures var s' := OwnerDo(s, t, e);
            Flags(s'.g) && (!s'.g.started ==> PumpsIdle(s', 0, |s.channels|))
  {
    assert Phase(s, At(s, t));
    if !OwnerDo(s, t, e).g.started { OwnerPumpsStayIdle(s, t, e, 0, |s.channels|); }
  }

  lemma CallKeepsFlags(n: nat, w: There, t: Tid, e: CallEvent)
    requires CallEnabled(n, w, t, e) && Owned(w.g, t, w.pc) && Flags(w.g)
    ensures Flags(CallApply(n, w, t, e).g) && CallApply(n, w, t, e).g.started == w.g.started
  {
  }

  /** A step that is not the owner's. */
  lemma OtherKeepsFlags(s: State, e: Event)
    requires Inv(s) && Enabled(s, e) && !e.OwnerStep?
    ensures Flags(Apply(s, e).g) && Apply(s, e).g.started == s.g.started
  {
    if e.CallStep? {
      assert Owned(s.g, e.t, At(s, e.t));
      CallKeepsFlags(|s.channels|, ThereOf(s, e.t), e.t, e.call);
    }
  }

  lemma StepKeepsFlags(s: State, e: Event)
    requires Inv(s) && Enabled(s, e)
    ensures Flags(Apply(s, e).g)
    ensures !Apply(s, e).g.started ==> PumpsIdle(Apply(s, e), 0, |s.channels|)
  {
    if e.OwnerStep? { OwnerKeepsFlags(s, e.t, e.owner); }
    else {
      OtherKeepsFlags(s, e);
      if !s.g.started {
        forall c: nat | c < |s.channels| ensures At(Apply(s, e), Pump(c)).Idle? { IdleStaysIdle(s, e, c); }
      }
    }
  }

  lemma StepKeepsInv(s: State, e: Event)
    requires Inv(s) && Enabled(s, e)
    ensures Inv(Apply(s, e))
  {
    var s' := Apply(s, e);
    PumpsStartIdle(s, e);
    StepKeepsConsistent(s, e);
    StepKeepsShape(s, e);
    forall u ensures Phase(s', At(s', u)) { StepKeepsPhase(s, e, u); }
    StepKeepsFlags(s, e);
  }
}
