/** How starts and stops of the runtime end. */
module RuntimeStops {
  import opened Threads
  import E = EncoderProtocol
  import C = Configuration
  import RawFrames
  import opened RuntimeProtocol
  import opened RuntimeInvariant
  import opened RuntimeShutdown
  import O = RuntimeOutcomes
  import R = RuntimeRelease

  // ---------- How a stop begins ----------

  /** A stop comes back at once exactly when there is nothing to stop; else the runtime is
      closing from then on, and the caller owns its lifecycle. */
  lemma StopBegins(s: State, t: Tid)
    requires OwnerEnabled(s, t, StopRuntime)
    ensures var s' := OwnerDo(s, t, StopRuntime);
            && (At(s', t).Idle? <==> NothingToStop(s))
            && s'.channels == s.channels
            && (NothingToStop(s) ==> s'.g == s.g)
            && (!NothingToStop(s) ==> s'.g == s.g.(closing := true, owner := Some(t)) && At(s', t) == Owning(Closing))
  {
  }

  // ---------- A normal return ----------

  /** The last step of a stop that returns normally. */
  predicate ReturnsFromStop(s: State, t: Tid, e: OwnerEvent)
    requires OwnerEnabled(s, t, e)
  {
    (e.StopRuntime? && At(OwnerDo(s, t, e), t).Idle?) || e == CloseRpc(true)
  }

  /** A stop that returns normally leaves nothing to stop: no control, no endpoint, no pump, and
      every encoder stopped; if it had anything to do, every channel is inactive and not
      stopping, and no thread is about to enter its encoder. */
  lemma NormalStopLeavesNothing(s: State, t: Tid, e: OwnerEvent)
    requires Inv(s) && OwnerEnabled(s, t, e) && ReturnsFromStop(s, t, e)
    ensures var s' := OwnerDo(s, t, e);
            && At(s', t).Idle? && NothingToStop(s') && !s'.g.endpoint && s'.g.jobs == {}
            && PumpsIdle(s', 0, |s'.channels|) && (e == CloseRpc(true) ==> DownBelow(s', |s'.channels|))
  {
    if e == CloseRpc(true) {
      assert Phase(s, At(s, t));
      OwnerKeepsAllDown(s, t, e, |s.channels|);
      OwnerPumpsStayIdle(s, t, e, 0, |s.channels|);
      forall c: nat | c < |s.channels| ensures Silent(OwnerDo(s, t, e).channels[c]) {
        assert Down(OwnerDo(s, t, e), c);
      }
    } else {
      StopBegins(s, t);
      OwnerPumpsStayIdle(s, t, e, 0, |s.channels|);
    }
  }

  // ---------- Every step of a stop ----------

  predicate InStop(pc: Pc) {
    || (pc.Owning? && !pc.owner.Creating? && !pc.owner.PumpStarting? && !pc.owner.Listening?)
    || HasTask(pc, Shutdown)
  }

  /** Why a stop fails: operations do not leave in time, a channel's deactivation has failed, a
      pump does not end in time, the endpoint cannot be released, or its owner cannot be closed. */
  predicate StopFails(s: State, e: Event, t: Tid) {
    || e == OwnerStep(t, Quiesce(false)) || e == OwnerStep(t, JoinPump(false))
    || e == OwnerStep(t, ReleaseEndpoint(false)) || e == OwnerStep(t, CloseRpc(false))
    || (e == CallStep(t, Resume) && At(s, t).Switched? && !At(s, t).ok)
  }

  /** How far a stop of `n` channels has come. */
  function StopStage(n: nat, pc: Pc): nat {
    match pc
    case Owning(Closing) => 0
    case Owning(Quiescing) => 1
    case Owning(StopAt(c)) => 2 + 12 * c
    case Switching(c, _, _, at) => 3 + 12 * c + O.SwitchStage(at)
    case Switched(c, _, _) => 12 + 12 * c
    case Owning(JoinAt(c)) => 2 + 12 * n + c
    case Owning(Releasing) => 3 + 13 * n
    case Owning(RpcClosing) => 4 + 13 * n
    case _ => 0
  }

  /** The step ends the stop, normally or for one of the reasons above, or brings it forward. */
  predicate Forward(n: nat, pc: Pc, pc': Pc, ends: bool) {
    && (pc'.Idle? <==> ends)
    && (!ends ==> InStop(pc') && StopStage(n, pc) < StopStage(n, pc'))
  }

  lemma LocalForward(n: nat, g: Global, v: Here, t: Tid, e: LocalEvent)
    requires LocalEnabled(g, v, t, e) && InStop(v.pc) && Placed(n, t, v.pc)
    ensures Forward(n, v.pc, LocalApply(g, v, t, e).pc, false)
  {
    LocalMovesOn(g, v, t, e);
    if v.pc.Switching? { O.SwitchesAdvance(g, v, t, e); }
  }

  lemma CallForward(n: nat, w: There, t: Tid, e: CallEvent)
    requires CallEnabled(n, w, t, e) && InStop(w.pc) && Placed(n, t, w.pc)
    ensures e.Resume? && w.pc.Switched?
    ensures Forward(n, w.pc, CallApply(n, w, t, e).pc, !w.pc.ok)
    ensures !w.pc.ok ==> CallApply(n, w, t, e).g == w.g.(owner := None)
  {
  }

  lemma OwnerForward(s: State, t: Tid, e: OwnerEvent)
    requires Consistent(s) && OwnerEnabled(s, t, e) && InStop(At(s, t))
    ensures var w' := OwnerApply(|s.channels|, NothingToStop(s), ThereOf(s, t), t, e);
            && Forward(|s.channels|, At(s, t), w'.pc, e == CloseRpc(true) || StopFails(s, OwnerStep(t, e), t))
            && (StopFails(s, OwnerStep(t, e), t) ==> w'.g == s.g.(owner := None))
  {
    assert Placed(|s.channels|, t, At(s, t));
    if e.CloseGate? || e.Quiesce? { ClosingForward(s, t, e); } else { ReleasingForward(s, t, e); }
  }

  lemma ClosingForward(s: State, t: Tid, e: OwnerEvent)
    requires OwnerEnabled(s, t, e) && (e.CloseGate? || e.Quiesce?)
    ensures var w' := OwnerApply(|s.channels|, NothingToStop(s), ThereOf(s, t), t, e);
            && Forward(|s.channels|, At(s, t), w'.pc, StopFails(s, OwnerStep(t, e), t))
            && (StopFails(s, OwnerStep(t, e), t) ==> w'.g == s.g.(owner := None))
  {
  }

  lemma ReleasingForward(s: State, t: Tid, e: OwnerEvent)
    requires OwnerEnabled(s, t, e) && Placed(|s.channels|, t, At(s, t))
    requires e.JoinPump? || e.ReleaseEndpoint? || e.CloseRpc?
    ensures var w' := OwnerApply(|s.channels|, NothingToStop(s), ThereOf(s, t), t, e);
            && Forward(|s.channels|, At(s, t), w'.pc, e == CloseRpc(true) || StopFails(s, OwnerStep(t, e), t))
            && (StopFails(s, OwnerStep(t, e), t) ==> w'.g == s.g.(owner := None))
  {
  }

  /** A stop ends normally with its last step, or fails for one of these reasons, keeping every
      owner but the lifecycle lock; every other step of it brings it forward. */
  lemma StopEndsForAReason(s: State, e: Event, t: Tid)
    requires Inv(s) && Enabled(s, e) && ActorIs(e, t) && InStop(At(s, t))
    ensures Forward(|s.channels|, At(s, t), At(Apply(s, e), t),
                    e == OwnerStep(t, CloseRpc(true)) || StopFails(s, e, t))
    ensures StopFails(s, e, t) ==> Apply(s, e).g == s.g.(owner := None)
  {
    assert Placed(|s.channels|, t, At(s, t));
    match e
    case ChannelStep(_, ev) =>
      LocalForward(|s.channels|, s.g, HereOf(s, t), t, ev);
      LocalMovesOne(s, t, ev, t);
    case CallStep(_, ev) =>
      CallForward(|s.channels|, ThereOf(s, t), t, ev);
      CallMovesOne(s, t, ev, t);
    case OwnerStep(_, ev) =>
      OwnerForward(s, t, ev);
      if !Starts(s, t, ev, t) { OwnerMovesOne(s, t, ev, t); }
  }

  // ---------- Starts ----------

  predicate InStart(pc: Pc) {
    pc.Owning? && (pc.owner.Creating? || pc.owner.PumpStarting? || pc.owner.Listening?)
  }

  function StartStage(pc: Pc): nat {
    match pc
    case Owning(PumpStarting(c)) => 1 + c
    case _ => 0
  }

  predicate StartFails(n: nat, pc: Pc, e: OwnerEvent) {
    || e == CreateControl(false) || e == Listen(false)
    || (e == StartPump(false) && pc.Owning? && pc.owner.PumpStarting? && pc.owner.c < n)
  }

  /** A start begins to stop the runtime again exactly when creating the control server, starting
      a pump or listening has failed; else it ends with the runtime up, its endpoint held, and
      with a new history of patches. */
  lemma StartEndsForAReason(s: State, t: Tid, e: OwnerEvent)
    requires Inv(s) && OwnerEnabled(s, t, e) && InStart(At(s, t))
    ensures var w' := OwnerApply(|s.channels|, NothingToStop(s), ThereOf(s, t), t, e);
            && (w'.pc == Owning(Closing) <==> StartFails(|s.channels|, At(s, t), e))
            && (w'.pc == Owning(Closing) ==> w'.g == s.g.(closing := true))
            && (w'.pc.Idle? <==> e == Listen(true))
            && (e == CreateControl(true) ==> w'.g.revision == 1 && w'.g.log == [] && w'.g.base == s.g.settings)
            && (w'.pc.Idle? ==> StartingUp(w'.g) && w'.g.hasControl && w'.g.endpoint && w'.g.owner.None?)
            && (InStart(w'.pc) ==> w'.pc == Owning(Listening) || StartStage(At(s, t)) < StartStage(w'.pc))
  {
    assert Phase(s, At(s, t));
  }

  // ---------- What a stop finds ----------

  /** Not started; and if it was before, then every channel is down, and nobody starts or stops
      it. */
  ghost predicate RestsDown(s: State) {
    !s.g.started ==> s.g.closing && s.g.owner.None? && DownBelow(s, |s.channels|)
  }

  lemma DownIsNothingToStop(s: State)
    requires Inv(s) && !s.g.started && DownBelow(s, |s.channels|)
    ensures NothingToStop(s)
  {
    forall c: nat | c < |s.channels| ensures E.Stopped(s.channels[c].encoder) { assert Down(s, c); }
  }

  lemma StepRestsDown(s: State, e: Event)
    requires Inv(s) && RestsDown(s) && Enabled(s, e)
    ensures RestsDown(Apply(s, e))
  {
    StepKeepsShape(s, e);
    match e
    case OwnerStep(t, ev) => OwnerRestsDown(s, t, ev);
    case CallStep(t, ev) =>
      CallStepIsSame(s, t, ev);
      if !s.g.started { QuietRestsDown(s, e); CallKeepsOwnerless(s, t, ev); }
    case _ => if !s.g.started { QuietRestsDown(s, e); }
  }

  lemma CallKeepsOwnerless(s: State, t: Tid, e: CallEvent)
    requires Consistent(s) && CallCan(s, t, e) && s.g.owner.None?
    ensures CallDo(s, t, e).g.owner.None?
  {
  }

  lemma QuietRestsDown(s: State, e: Event)
    requires Inv(s) && RestsDown(s) && !s.g.started && Enabled(s, e) && !e.OwnerStep?
    ensures DownBelow(Apply(s, e), |s.channels|)
  {
    if e.CallStep? { CallStepIsSame(s, e.t, e.call); } else { QuietStepIsSame(s, e); }
    forall c: nat | c < |s.channels| ensures Down(Apply(s, e), c) {
      assert Down(s, c);
      if e.ChannelStep? { assert Owned(s.g, e.t, At(s, e.t)); }
      StepKeepsDown(s, e, c);
    }
  }

  lemma OwnerRestsDown(s: State, t: Tid, e: OwnerEvent)
    requires Inv(s) && RestsDown(s) && OwnerEnabled(s, t, e)
    ensures RestsDown(OwnerDo(s, t, e))
  {
    assert Phase(s, At(s, t)) && Owned(s.g, t, At(s, t));
    if !s.g.started && e.StopRuntime? {
      DownIsNothingToStop(s);
      OwnerKeepsAllDown(s, t, e, |s.channels|);
    }
    if e == CloseRpc(true) { OwnerKeepsAllDown(s, t, e, |s.channels|); }
  }

  lemma {:induction false} RunRestsDown(s: State, events: seq<Event>)
    requires Inv(s) && RestsDown(s) && Legal(s, events)
    ensures Inv(Run(s, events)) && RestsDown(Run(s, events))
    decreases |events|
  {
    if events != [] {
      StepKeepsInv(s, events[0]);
      StepRestsDown(s, events[0]);
      RunRestsDown(Apply(s, events[0]), events[1..]);
    }
  }

  /** Some step of the run starts the runtime. */
  ghost predicate WasStarted(events: seq<Event>) {
    exists e :: e in events && e.OwnerStep? && e.owner.StartRuntime?
  }

  lemma {:induction false} RunSinceStart(s: State, events: seq<Event>)
    requires Inv(s) && Legal(s, events) && WasStarted(events)
    ensures Inv(Run(s, events)) && RestsDown(Run(s, events))
    decreases |events|
  {
    StepKeepsInv(s, events[0]);
    if events[0].OwnerStep? && events[0].owner.StartRuntime? {
      RunRestsDown(Apply(s, events[0]), events[1..]);
    } else {
      RunSinceStart(Apply(s, events[0]), events[1..]);
    }
  }

  /** In every run in which the runtime was started before, a stop that finds nothing to stop
      leaves every channel inactive, not stopping and with a stopped encoder. */
  lemma StoppedSourceIsSilent(settings: C.Settings, format: RawFrames.Format, preview: bool, dropToLatest: bool,
                              events: seq<Event>)
    requires Legal(Initial(settings, format, preview, dropToLatest), events) && WasStarted(events)
    requires NothingToStop(Run(Initial(settings, format, preview, dropToLatest), events))
    ensures var s := Run(Initial(settings, format, preview, dropToLatest), events);
            forall c :: 0 <= c < |s.channels| ==> Silent(s.channels[c])
  {
    R.InitialInv(settings, format, preview, dropToLatest);
    RunSinceStart(Initial(settings, format, preview, dropToLatest), events);
    var s := Run(Initial(settings, format, preview, dropToLatest), events);
    forall c: nat | c < |s.channels| ensures Silent(s.channels[c]) { assert Down(s, c); }
  }
}
