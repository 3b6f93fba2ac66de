/** When the control endpoint is given up, and what cannot happen afterwards. */
module RuntimeRelease {
  import opened Threads
  import E = EncoderProtocol
  import I = EncoderInterface
  import RawFrames
  import C = Configuration
  import opened RuntimeProtocol
  import opened RuntimeChannels
  import opened RuntimeInvariant
  import opened RuntimeShutdown

  // ---------- All runs ----------

  lemma InitialInv(settings: C.Settings, format: RawFrames.Format, preview: bool, dropToLatest: bool)
    ensures Inv(Initial(settings, format, preview, dropToLatest))
  {
    var s := Initial(settings, format, preview, dropToLatest);
    forall c: nat | c < |s.channels| ensures I.Sound(s.channels[c].encoder) && AllAgree(s, c) {
      I.InitialSound(s.channels[c].encoder.preview);
      forall t ensures Agrees(t, At(s, t), c, s.channels[c]) {
        assert I.Inside(s.channels[c].encoder, t, None);
      }
    }
  }

  lemma {:induction false} RunKeepsInv(s: State, events: seq<Event>)
    requires Inv(s) && Legal(s, events)
    ensures Inv(Run(s, events))
    decreases |events|
  {
    if events != [] {
      StepKeepsInv(s, events[0]);
      RunKeepsInv(Apply(s, events[0]), events[1..]);
    }
  }

  lemma {:induction false} OneMore(s: State, run: seq<Event>, e: Event)
    requires Legal(s, run) && Enabled(Run(s, run), e)
    ensures Legal(s, run + [e]) && Run(s, run + [e]) == Apply(Run(s, run), e)
    decreases |run|
  {
    if run == [] {
      assert run + [e] == [e] && [e][1..] == [];
      assert Legal(Apply(s, e), []);
    } else {
      OneMore(Apply(s, run[0]), run[1..], e);
      assert (run + [e])[1..] == run[1..] + [e];
    }
  }

  // ---------- Giving up the endpoint ----------

  /** Nothing of the source is at work any more. */
  ghost predicate AtRest(s: State) {
    && s.g.jobs == {}
    && PumpsIdle(s, 0, |s.channels|)
    && forall c :: 0 <= c < |s.channels| ==> Silent(s.channels[c])
  }

  /** Whatever the interleaving, and however many stops failed before, the endpoint is given
      up only when no source control operation is left, every encoder is stopped and every
      pump has exited; the control and RPC owners are given up only after that. */
  lemma EndpointReleasedLast(s: State, e: Event)
    requires Inv(s) && Enabled(s, e)
    ensures s.g.endpoint && !Apply(s, e).g.endpoint ==> AtRest(s) && Apply(s, e).g.hasControl == s.g.hasControl
    ensures s.g.hasControl && !Apply(s, e).g.hasControl ==> AtRest(s) && !s.g.endpoint
  {
    if e.OwnerStep? { OwnerReleasesLast(s, e.t, e.owner); }
    else if e.CallStep? { CallStepIsSame(s, e.t, e.call); }
    else { QuietStepIsSame(s, e); }
  }

  lemma OwnerReleasesLast(s: State, t: Tid, e: OwnerEvent)
    requires Inv(s) && OwnerEnabled(s, t, e)
    ensures var g' := OwnerDo(s, t, e).g;
            && (s.g.endpoint && !g'.endpoint ==> AtRest(s) && g'.hasControl == s.g.hasControl)
            && (s.g.hasControl && !g'.hasControl ==> AtRest(s) && !s.g.endpoint)
  {
    assert Phase(s, At(s, t));
    if e.ReleaseEndpoint? || e.CloseRpc? { PhaseIsRest(s, At(s, t)); }
  }

  lemma PhaseIsRest(s: State, pc: Pc)
    requires Inv(s) && Phase(s, pc) && (pc == Owning(Releasing) || pc == Owning(RpcClosing))
    ensures AtRest(s)
  {
    forall c: nat | c < |s.channels| ensures Silent(s.channels[c]) { assert Down(s, c); }
  }

  // ---------- No child after the release ----------

  /** The channel has no child, and no thread is on the way to starting or replacing one. */
  predicate Quenched(pc: Pc, c: nat) {
    match pc
    case Switching(d, _, _, at) => c == d ==> !Activating(at)
    case Configuring(_, at) => c == 0 ==> at.ConfWanting? || at.ConfChecking?
    case _ => true
  }

  ghost predicate Dark(s: State, c: nat) {
    && s.g.closing && c < |s.channels| && s.channels[c].encoder.proc.None?
    && forall t {:trigger At(s, t)} :: Quenched(At(s, t), c)
  }

  predicate Restarts(e: Event) {
    e.OwnerStep? && e.owner.StartRuntime?
  }

  lemma LocalStaysDark(g: Global, v: Here, t: Tid, c: nat, e: LocalEvent)
    requires LocalEnabled(g, v, t, e) && ChannelOf(v.pc) == Some(c)
    requires g.closing && Quenched(v.pc, c)
    ensures Quenched(LocalApply(g, v, t, e).pc, c)
  {
    if e.Activation? { ActivationStaysDark(g, v, t, c, e.activate); }
  }

  lemma ActivationStaysDark(g: Global, v: Here, t: Tid, c: nat, e: ActivateEvent)
    requires ActivateEnabled(v, t, e) && ChannelOf(v.pc) == Some(c) && g.closing && Quenched(v.pc, c)
    ensures Quenched(ActivateApply(g, v, t, e).pc, c)
  {
  }

  lemma EncoderStaysDark(s: State, c: nat, e: E.Event)
    requires Inv(s) && EncoderCan(s, c, e) && Dark(s, c)
    ensures var enc' := E.Apply(s.channels[c].encoder, e);
            enc'.proc.None? && |enc'.children| == |s.channels[c].encoder.children|
  {
    I.InternalStep(s.channels[c].encoder, e);
    assert AllAgree(s, c);
    forall u ensures E.CallOf(E.At(s.channels[c].encoder, u)) != Some(E.StartCall) {
      assert Agrees(u, At(s, u), c, s.channels[c]) && Quenched(At(s, u), c);
    }
  }

  /** A step leaves channel `c` dark and with the same children. */
  ghost predicate StillDark(s: State, s': State, c: nat) {
    && c < |s.channels| && Dark(s', c)
    && |s'.channels[c].encoder.children| == |s.channels[c].encoder.children|
  }

  lemma EncoderKeepsDark(s: State, d: nat, e: E.Event, c: nat)
    requires Inv(s) && EncoderCan(s, d, e) && Dark(s, c)
    ensures StillDark(s, EncoderDo(s, d, e), c)
  {
    if c == d { EncoderStaysDark(s, c, e); }
    forall u ensures Quenched(At(EncoderDo(s, d, e), u), c) { assert Quenched(At(s, u), c); }
  }

  lemma AcceptKeepsDark(s: State, submission: RawFrames.Submission, stamp: int, c: nat)
    requires Dark(s, c)
    ensures StillDark(s, Accept(s, submission, stamp), c)
  {
    forall u ensures Quenched(At(Accept(s, submission, stamp), u), c) { assert Quenched(At(s, u), c); }
  }

  lemma LocalKeepsDark(s: State, t: Tid, e: LocalEvent, c: nat)
    requires Inv(s) && LocalCan(s, t, e) && Dark(s, c)
    ensures StillDark(s, LocalDo(s, t, e), c)
  {
    var s' := LocalDo(s, t, e);
    assert Quenched(At(s, t), c);
    LocalTouches(s, t, e, c);
    if ChannelOf(At(s, t)) == Some(c) {
      assert AllAgree(s, c);
      LocalKeepsChannel(s, t, e, c);
      LocalStaysDark(s.g, HereOf(s, t), t, c, e);
    } else {
      LocalMovesOn(s.g, HereOf(s, t), t, e);
    }
    forall u ensures Quenched(At(s', u), c) {
      assert Quenched(At(s, u), c);
      LocalMovesOne(s, t, e, u);
    }
  }

  lemma CallKeepsDark(s: State, t: Tid, e: CallEvent, c: nat)
    requires Inv(s) && CallCan(s, t, e) && Dark(s, c)
    ensures StillDark(s, CallDo(s, t, e), c)
  {
    CallStepIsSame(s, t, e);
    forall u ensures Quenched(At(CallDo(s, t, e), u), c) {
      assert Quenched(At(s, u), c);
      CallMovesOne(s, t, e, u);
    }
  }

  lemma OwnerKeepsDark(s: State, t: Tid, e: OwnerEvent, c: nat)
    requires Inv(s) && OwnerEnabled(s, t, e) && Dark(s, c) && !e.StartRuntime?
    ensures StillDark(s, OwnerDo(s, t, e), c)
  {
    forall u ensures Quenched(At(OwnerDo(s, t, e), u), c) {
      assert Quenched(At(s, u), c);
      if !Starts(s, t, e, u) { OwnerMovesOne(s, t, e, u); }
    }
  }

  lemma StepKeepsDark(s: State, e: Event, c: nat)
    requires Inv(s) && Enabled(s, e) && Dark(s, c) && !Restarts(e)
    ensures StillDark(s, Apply(s, e), c)
  {
    match e
    case EncoderStep(d, ev) => EncoderKeepsDark(s, d, ev, c);
    case Submit(submission, stamp) => AcceptKeepsDark(s, submission, stamp, c);
    case ChannelStep(t, ev) => LocalKeepsDark(s, t, ev, c);
    case CallStep(t, ev) => CallKeepsDark(s, t, ev, c);
    case OwnerStep(t, ev) => OwnerKeepsDark(s, t, ev, c);
  }

  lemma {:induction false} RunKeepsDark(s: State, events: seq<Event>, c: nat)
    requires Inv(s) && Dark(s, c) && Legal(s, events) && forall e :: e in events ==> !Restarts(e)
    ensures StillDark(s, Run(s, events), c)
    decreases |events|
  {
    if events != [] {
      StepKeepsDark(s, events[0], c);
      StepKeepsInv(s, events[0]);
      RunKeepsDark(Apply(s, events[0]), events[1..], c);
    }
  }

  lemma ReleaseIsDark(s: State, t: Tid, c: nat)
    requires Inv(s) && OwnerAt(At(s, t), Releasing) && c < |s.channels|
    ensures Dark(s, c)
  {
    assert Phase(s, At(s, t));
    assert Down(s, c);
    forall u ensures Quenched(At(s, u), c) { assert Idling(At(s, u), c); }
  }

  /** Once the endpoint has been given up, no child is launched for any channel until the
      runtime is started again. */
  lemma NoLaunchUntilRestart(settings: C.Settings, format: RawFrames.Format, preview: bool, dropToLatest: bool,
                             before: seq<Event>, t: Tid, after: seq<Event>, c: nat)
    requires Legal(Initial(settings, format, preview, dropToLatest), before)
    requires var s := Run(Initial(settings, format, preview, dropToLatest), before);
             var e := OwnerStep(t, ReleaseEndpoint(true));
             Enabled(s, e) && Legal(Apply(s, e), after) && c < |s.channels|
    requires forall e :: e in after ==> !Restarts(e)
    ensures var s := Run(Initial(settings, format, preview, dropToLatest), before);
            var e := OwnerStep(t, ReleaseEndpoint(true));
            var s' := Run(Apply(s, e), after);
            && c < |s'.channels| && s'.channels[c].encoder.proc.None?
            && |s'.channels[c].encoder.children| == |s.channels[c].encoder.children|
  {
    var s := Run(Initial(settings, format, preview, dropToLatest), before);
    var e := OwnerStep(t, ReleaseEndpoint(true));
    InitialInv(settings, format, preview, dropToLatest);
    RunKeepsInv(Initial(settings, format, preview, dropToLatest), before);
    ReleaseIsDark(s, t, c);
    StepKeepsDark(s, e, c);
    StepKeepsInv(s, e);
    RunKeepsDark(Apply(s, e), after, c);
  }
}
