/** When a channel becomes active or inactive. */
module RuntimeActivity {
  import opened Threads
  import E = EncoderProtocol
  import EP = EncoderProofs
  import I = EncoderInterface
  import C = Configuration
  import RawFrames
  import opened RuntimeProtocol
  import opened RuntimeChannels
  import opened RuntimeInvariant
  import opened RuntimeShutdown
  import opened RuntimeQueues
  import R = RuntimeRelease

  // ---------- Turning a channel on and off ----------

  lemma LocalTurns(g: Global, v: Here, t: Tid, e: LocalEvent)
    requires LocalEnabled(g, v, t, e)
    ensures var ch' := LocalApply(g, v, t, e).ch;
            && (ch'.active && !v.ch.active ==> e == Activation(Commit))
            && (!ch'.active && v.ch.active ==> e == Deactivation(Deactivate))
            && (!ch'.stopping && v.ch.stopping ==> e == Deactivation(Deactivate))
  {
  }

  /** Event `e` is step `local` of some thread on channel `c`. */
  predicate IsLocal(s: State, e: Event, c: nat, local: LocalEvent) {
    e.ChannelStep? && e.local == local && ChannelOf(At(s, e.t)) == Some(c)
  }

  /** Only the last step of a switch changes whether a channel is active or stopping. */
  lemma Turns(s: State, e: Event, c: nat)
    requires Enabled(s, e) && c < |s.channels|
    ensures var ch, s' := s.channels[c], Apply(s, e);
            && c < |s'.channels|
            && (s'.channels[c].active && !ch.active ==> IsLocal(s, e, c, Activation(Commit)))
            && (!s'.channels[c].active && ch.active ==> IsLocal(s, e, c, Deactivation(Deactivate)))
            && (!s'.channels[c].stopping && ch.stopping ==> IsLocal(s, e, c, Deactivation(Deactivate)))
  {
    if e.ChannelStep? {
      LocalTurns(s.g, HereOf(s, e.t), e.t, e.local);
      LocalTouches(s, e.t, e.local, c);
    } else {
      OtherKeepsActivity(s, e, c);
    }
  }

  lemma OtherKeepsActivity(s: State, e: Event, c: nat)
    requires Enabled(s, e) && c < |s.channels| && !e.ChannelStep?
    ensures var s' := Apply(s, e);
            && c < |s'.channels| && s'.channels[c].active == s.channels[c].active
            && s'.channels[c].stopping == s.channels[c].stopping
  {
  }

  /** A channel turns inactive only while its encoder is stopped, every child is reaped, every
      reader has ended and its pump is not writing. */
  lemma DeactivatesWhenQuiet(s: State, e: Event, c: nat)
    requires Inv(s) && Enabled(s, e) && c < |s.channels|
    requires s.channels[c].active && !Apply(s, e).channels[c].active
    ensures var enc := s.channels[c].encoder;
            && E.Stopped(enc) && enc.alive == {}
            && (forall k :: k in enc.children ==> k.reaped)
            && !PumpAt(At(s, Pump(c)), PumpWriting)
  {
    Turns(s, e, c);
    DrainedIsQuiet(s, e.t, c);
  }

  lemma DrainedIsQuiet(s: State, t: Tid, c: nat)
    requires Inv(s) && IsAt(At(s, t), Drained) && At(s, t).c == c && c < |s.channels|
    ensures var enc := s.channels[c].encoder;
            && E.Stopped(enc) && enc.alive == {}
            && (forall k :: k in enc.children ==> k.reaped)
            && !PumpAt(At(s, Pump(c)), PumpWriting)
  {
    ConsistentIsFine(s, t, c);
    ConsistentIsFine(s, Pump(c), c);
    I.StoppedIsQuiet(s.channels[c].encoder);
  }

  /** A channel turns active only while nothing is queued and its pump is not writing, so
      nothing accepted before is handed over afterwards. */
  lemma ActivatesWhenEmpty(s: State, e: Event, c: nat)
    requires Inv(s) && Data(s) && Enabled(s, e) && c < |s.channels|
    requires !s.channels[c].active && Apply(s, e).channels[c].active
    ensures s.channels[c].pending == [] && !PumpAt(At(s, Pump(c)), PumpWriting)
    ensures Apply(s, e).channels[c].activatedAt == s.g.framesIn
  {
    Turns(s, e, c);
    CommitsWhenEmpty(s, e.t, c);
  }

  lemma CommitsWhenEmpty(s: State, t: Tid, c: nat)
    requires Inv(s) && InOrder(s, c) && !s.channels[c].active
    requires IsAt(At(s, t), Committing) && At(s, t).c == c
    ensures s.channels[c].pending == [] && !PumpAt(At(s, Pump(c)), PumpWriting)
    ensures LocalCan(s, t, Activation(Commit))
    ensures LocalDo(s, t, Activation(Commit)).channels[c].activatedAt == s.g.framesIn
  {
    ConsistentIsFine(s, t, c);
    ConsistentIsFine(s, Pump(c), c);
  }

  /** A switch that returns normally has applied what was asked.  An activated channel is not
      stopping, and a deactivated one has a stopped encoder; but a deactivation leaves the
      channel stopping exactly when it found it inactive, stopping and with a stopped encoder. */
  lemma SuccessfulSwitch(s: State, t: Tid, e: LocalEvent, c: nat, active: bool)
    requires Inv(s) && LocalCan(s, t, e)
    requires At(s, t).Switching? && At(s, t).c == c && At(s, t).active == active
    requires At(LocalDo(s, t, e), t) == Switched(c, At(s, t).task, true)
    ensures var ch, ch' := s.channels[c], LocalDo(s, t, e).channels[c];
            && ch'.active == active && ch'.transition.None?
            && (active ==> !ch'.stopping)
            && (!active ==> E.Stopped(ch'.encoder))
            && (ch'.stopping <==> e == Activation(Check) && !ch.active && ch.stopping && E.Stopped(ch.encoder))
  {
    ConsistentIsFine(s, t, c);
    LocalMovesOne(s, t, e, t);
    LocalTouches(s, t, e, c);
    SuccessfulHere(s.g, HereOf(s, t), t, e, c);
  }

  lemma SuccessfulHere(g: Global, v: Here, t: Tid, e: LocalEvent, c: nat)
    requires LocalEnabled(g, v, t, e) && v.pc.Switching? && v.pc.c == c && Agrees(t, v.pc, c, v.ch)
    requires LocalApply(g, v, t, e).pc == Switched(c, v.pc.task, true)
    ensures var ch, ch' := v.ch, LocalApply(g, v, t, e).ch;
            && ch'.active == v.pc.active && ch'.transition.None?
            && (v.pc.active ==> !ch'.stopping)
            && (!v.pc.active ==> E.Stopped(ch'.encoder))
            && (ch'.stopping <==> e == Activation(Check) && !ch.active && ch.stopping && E.Stopped(ch.encoder))
  {
  }

  // ---------- After a failed deactivation ----------

  /** The encoder has no child, or refuses to launch one. */
  ghost predicate Muffled(enc: E.State) {
    enc.proc.None? || EP.Refusing(enc)
  }

  /** While a channel is stopping, no thread is on the way to activating it. */
  lemma StoppingBlocksActivation(s: State, c: nat, t: Tid)
    requires Inv(s) && c < |s.channels| && s.channels[c].stopping
    ensures At(s, t).Switching? && At(s, t).c == c ==> !Activating(At(s, t).at)
    ensures c == 0 ==> ConfAt(At(s, t), ConfWanting) || ConfAt(At(s, t), ConfChecking) || !At(s, t).Configuring?
  {
    assert AllAgree(s, c);
    assert Agrees(t, At(s, t), c, s.channels[c]);
  }

  lemma EncoderStaysMuffled(s: State, c: nat, e: E.Event)
    requires Inv(s) && EncoderCan(s, c, e) && s.channels[c].stopping && Muffled(s.channels[c].encoder)
    ensures var enc' := E.Apply(s.channels[c].encoder, e);
            Muffled(enc') && |enc'.children| == |s.channels[c].encoder.children|
  {
    var enc := s.channels[c].encoder;
    assert AllAgree(s, c);
    if enc.proc.None? {
      I.InternalStep(enc, e);
      forall u ensures E.CallOf(E.At(enc, u)) != Some(E.StartCall) {
        assert Agrees(u, At(s, u), c, s.channels[c]);
        StoppingBlocksActivation(s, c, u);
      }
    } else if EP.EndsNewestStop(enc, e) {
      EP.NormalStopQuiesces(enc, e, e.t);
    } else {
      EP.StepKeepsRefusing(enc, e);
    }
  }

  lemma CallStaysMuffled(enc: E.State, e: E.Event)
    requires EP.Inv(enc) && E.Enabled(enc, e) && Muffled(enc) && E.External(e) && !e.CallStart?
    ensures Muffled(E.Apply(enc, e)) && |E.Apply(enc, e).children| == |enc.children|
  {
    if EP.Refusing(enc) { EP.StepKeepsRefusing(enc, e); }
  }

  lemma LocalStaysMuffled(g: Global, v: Here, t: Tid, c: nat, e: LocalEvent)
    requires LocalEnabled(g, v, t, e) && ChannelOf(v.pc) == Some(c) && Agrees(t, v.pc, c, v.ch)
    requires v.ch.stopping && Muffled(v.ch.encoder) && I.Sound(v.ch.encoder)
    ensures var enc' := LocalApply(g, v, t, e).ch.encoder;
            Muffled(enc') && |enc'.children| == |v.ch.encoder.children|
  {
    match e
    case Activation(ev) => ActivationStaysMuffled(g, v, t, c, ev);
    case Deactivation(ev) => DeactivationStaysMuffled(v, t, ev);
    case Replacement(ev) => assert Settled(v.pc, c, v.ch);
    case Delivery(ev) => DeliveryStaysMuffled(g, v, t, ev);
  }

  /** Nobody is past the check of an activation while the channel is stopping. */
  lemma ActivationStaysMuffled(g: Global, v: Here, t: Tid, c: nat, e: ActivateEvent)
    requires ActivateEnabled(v, t, e) && ChannelOf(v.pc) == Some(c) && Agrees(t, v.pc, c, v.ch) && v.ch.stopping
    ensures ActivateApply(g, v, t, e).ch.encoder == v.ch.encoder
  {
  }

  lemma DeliveryStaysMuffled(g: Global, v: Here, t: Tid, e: PumpEvent)
    requires PumpEnabled(g, v, t, e) && v.ch.stopping && Muffled(v.ch.encoder) && I.Sound(v.ch.encoder)
    ensures var enc' := PumpApply(g, v, t, e).ch.encoder;
            Muffled(enc') && |enc'.children| == |v.ch.encoder.children|
  {
    if e.PumpReturns? { CallStaysMuffled(v.ch.encoder, E.Return(t)); }
  }

  lemma DeactivationStaysMuffled(v: Here, t: Tid, e: DeactivateEvent)
    requires DeactivateEnabled(v, t, e) && Muffled(v.ch.encoder) && I.Sound(v.ch.encoder)
    ensures var enc' := DeactivateApply(v, t, e).ch.encoder;
            Muffled(enc') && |enc'.children| == |v.ch.encoder.children|
  {
    if e.CallSilence? { CallStaysMuffled(v.ch.encoder, E.CallStop(t)); }
    if e.SilenceReturns? { CallStaysMuffled(v.ch.encoder, E.Return(t)); }
  }

  /** The channel keeps quiet: nothing is launched for it. */
  ghost predicate StillMuffled(s: State, s': State, c: nat) {
    && c < |s.channels| && c < |s'.channels| && Muffled(s'.channels[c].encoder)
    && |s'.channels[c].encoder.children| == |s.channels[c].encoder.children|
  }

  lemma LocalKeepsMuffled(s: State, t: Tid, e: LocalEvent, c: nat)
    requires Inv(s) && LocalCan(s, t, e) && c < |s.channels|
    requires s.channels[c].stopping && Muffled(s.channels[c].encoder)
    ensures StillMuffled(s, LocalDo(s, t, e), c)
  {
    ConsistentIsFine(s, t, c);
    LocalTouches(s, t, e, c);
    if ChannelOf(At(s, t)) == Some(c) { LocalStaysMuffled(s.g, HereOf(s, t), t, c, e); }
  }

  lemma StepStaysMuffled(s: State, e: Event, c: nat)
    requires Inv(s) && Enabled(s, e) && c < |s.channels|
    requires s.channels[c].stopping && Muffled(s.channels[c].encoder)
    ensures StillMuffled(s, Apply(s, e), c)
  {
    match e
    case EncoderStep(d, ev) => if c == d { EncoderStaysMuffled(s, c, ev); }
    case Submit(submission, stamp) =>
    case ChannelStep(t, ev) => LocalKeepsMuffled(s, t, ev, c);
    case CallStep(_, _) =>
    case OwnerStep(_, _) =>
  }

  /** No deactivation of channel `c` succeeds anywhere in a run. */
  ghost predicate StaysOn(s: State, events: seq<Event>, c: nat)
    requires Legal(s, events)
    decreases |events|
  {
    events == []
    || (!IsLocal(s, events[0], c, Deactivation(Deactivate)) && StaysOn(Apply(s, events[0]), events[1..], c))
  }

  lemma {:induction false} RunStaysMuffled(s: State, events: seq<Event>, c: nat)
    requires Inv(s) && Legal(s, events) && StaysOn(s, events, c) && c < |s.channels|
    requires s.channels[c].stopping && Muffled(s.channels[c].encoder)
    ensures var s' := Run(s, events);
            && c < |s'.channels| && s'.channels[c].stopping
            && |s'.channels[c].encoder.children| == |s.channels[c].encoder.children|
    decreases |events|
  {
    if events != [] {
      Turns(s, events[0], c);
      StepStaysMuffled(s, events[0], c);
      StepKeepsInv(s, events[0]);
      RunStaysMuffled(Apply(s, events[0]), events[1..], c);
    }
  }

  /** From the moment a deactivation asks the encoder to stop until one succeeds, whatever
      fails in between, the channel stays stopping and no child is launched for it. */
  lemma FailedDeactivationHolds(settings: C.Settings, format: RawFrames.Format, preview: bool, dropToLatest: bool,
                                before: seq<Event>, t: Tid, after: seq<Event>)
    requires Legal(Initial(settings, format, preview, dropToLatest), before)
    requires var s := Run(Initial(settings, format, preview, dropToLatest), before);
             var e := ChannelStep(t, Deactivation(CallSilence));
             Enabled(s, e) && Legal(Apply(s, e), after) && StaysOn(Apply(s, e), after, At(s, t).c)
    ensures var s := Run(Initial(settings, format, preview, dropToLatest), before);
            var e := ChannelStep(t, Deactivation(CallSilence));
            var c, s' := At(s, t).c, Run(Apply(s, e), after);
            && c < |s'.channels| && s'.channels[c].stopping
            && |s'.channels[c].encoder.children| == |s.channels[c].encoder.children|
  {
    var s := Run(Initial(settings, format, preview, dropToLatest), before);
    var e := ChannelStep(t, Deactivation(CallSilence));
    R.InitialInv(settings, format, preview, dropToLatest);
    R.RunKeepsInv(Initial(settings, format, preview, dropToLatest), before);
    SilenceMuffles(s, t);
    StepKeepsInv(s, e);
    RunStaysMuffled(Apply(s, e), after, At(s, t).c);
  }

  lemma SilenceMuffles(s: State, t: Tid)
    requires Inv(s) && LocalCan(s, t, Deactivation(CallSilence))
    ensures var c, s' := At(s, t).c, LocalDo(s, t, Deactivation(CallSilence));
            StillMuffled(s, s', c) && s'.channels[c].stopping
  {
    ConsistentIsFine(s, t, At(s, t).c);
    EP.RequestRefuses(s.channels[At(s, t).c].encoder, t);
  }
}
