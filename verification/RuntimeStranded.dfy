/** What the early return of a retried deactivation does to its channel: it stays stopping, with
    a stopped encoder, until a shutdown takes it down. */
module RuntimeStranded {
  import opened Threads
  import E = EncoderProtocol
  import I = EncoderInterface
  import C = Configuration
  import RawFrames
  import opened RuntimeProtocol
  import opened RuntimeChannels
  import opened RuntimeInvariant
  import opened RuntimeShutdown
  import A = RuntimeActivity
  import R = RuntimeRelease

  /** Inactive and stopping, though its encoder is stopped. */
  predicate Blocked(ch: Channel) {
    !ch.active && ch.stopping && E.Stopped(ch.encoder)
  }

  /** Taking channel `c` down. */
  predicate TakingDown(pc: Pc, c: nat) {
    pc.Switching? && pc.c == c && !Activating(pc.at) && !pc.at.Wanting? && !pc.at.Checking?
  }

  /** Blocked, and no thread is at work on ending that. */
  ghost predicate Stranded(s: State, c: nat) {
    && c < |s.channels| && Blocked(s.channels[c])
    && forall t {:trigger At(s, t)} :: !TakingDown(At(s, t), c)
  }

  // ---------- A step on the channel ----------

  lemma ActivationStaysBlocked(g: Global, v: Here, t: Tid, c: nat, e: ActivateEvent)
    requires ActivateEnabled(v, t, e) && ChannelOf(v.pc) == Some(c) && Agrees(t, v.pc, c, v.ch) && Blocked(v.ch)
    ensures var v' := ActivateApply(g, v, t, e); Blocked(v'.ch) && !TakingDown(v'.pc, c)
  {
  }

  lemma DeactivationStaysBlocked(v: Here, t: Tid, c: nat, e: DeactivateEvent)
    requires DeactivateEnabled(v, t, e) && ChannelOf(v.pc) == Some(c) && Blocked(v.ch) && !TakingDown(v.pc, c)
    requires e != StopTake(true)
    ensures var v' := DeactivateApply(v, t, e); Blocked(v'.ch) && !TakingDown(v'.pc, c)
  {
  }

  lemma ReplacementStaysBlocked(g: Global, v: Here, t: Tid, c: nat, e: ConfEvent)
    requires ConfEnabled(v, t, e) && ChannelOf(v.pc) == Some(c) && Agrees(t, v.pc, c, v.ch) && Blocked(v.ch)
    ensures var v' := ConfApply(g, v, t, e); Blocked(v'.ch) && !TakingDown(v'.pc, c)
  {
  }

  lemma DeliveryStaysBlocked(g: Global, v: Here, t: Tid, c: nat, e: PumpEvent)
    requires PumpEnabled(g, v, t, e) && Blocked(v.ch)
    ensures var v' := PumpApply(g, v, t, e); Blocked(v'.ch) && !TakingDown(v'.pc, c)
  {
  }

  lemma LocalStaysBlocked(g: Global, v: Here, t: Tid, c: nat, e: LocalEvent)
    requires LocalEnabled(g, v, t, e) && ChannelOf(v.pc) == Some(c) && Agrees(t, v.pc, c, v.ch)
    requires Blocked(v.ch) && !TakingDown(v.pc, c) && e != Deactivation(StopTake(true))
    ensures var v' := LocalApply(g, v, t, e); Blocked(v'.ch) && !TakingDown(v'.pc, c)
  {
    match e
    case Activation(ev) => ActivationStaysBlocked(g, v, t, c, ev);
    case Deactivation(ev) => DeactivationStaysBlocked(v, t, c, ev);
    case Replacement(ev) => ReplacementStaysBlocked(g, v, t, c, ev);
    case Delivery(ev) => DeliveryStaysBlocked(g, v, t, c, ev);
  }

  /** A step on another channel does not take this one down. */
  lemma LocalElsewhere(g: Global, v: Here, t: Tid, c: nat, e: LocalEvent)
    requires LocalEnabled(g, v, t, e) && ChannelOf(v.pc).Some? && ChannelOf(v.pc) != Some(c)
    ensures !TakingDown(LocalApply(g, v, t, e).pc, c)
  {
    LocalMovesOn(g, v, t, e);
  }

  lemma LocalKeepsStranded(s: State, t: Tid, e: LocalEvent, c: nat)
    requires Inv(s) && Stranded(s, c) && LocalCan(s, t, e)
    requires !A.IsLocal(s, ChannelStep(t, e), c, Deactivation(StopTake(true)))
    ensures Stranded(LocalDo(s, t, e), c)
  {
    ConsistentIsFine(s, t, c);
    LocalTouches(s, t, e, c);
    if ChannelOf(At(s, t)) == Some(c) {
      LocalStaysBlocked(s.g, HereOf(s, t), t, c, e);
    } else {
      LocalElsewhere(s.g, HereOf(s, t), t, c, e);
    }
    forall u ensures !TakingDown(At(LocalDo(s, t, e), u), c) { LocalMovesOne(s, t, e, u); }
  }

  // ---------- Any other step ----------

  /** Nobody is starting the encoder, so it stays stopped. */
  lemma EncoderStaysStopped(s: State, c: nat, e: E.Event)
    requires Inv(s) && Stranded(s, c) && EncoderCan(s, c, e)
    ensures E.Stopped(E.Apply(s.channels[c].encoder, e))
  {
    var enc := s.channels[c].encoder;
    ConsistentIsFine(s, Pump(c), c);
    I.InternalStep(enc, e);
    forall u ensures E.CallOf(E.At(enc, u)) != Some(E.StartCall) { NobodyStarts(s, c, u); }
  }

  lemma NobodyStarts(s: State, c: nat, u: Tid)
    requires Inv(s) && Stranded(s, c)
    ensures E.CallOf(E.At(s.channels[c].encoder, u)) != Some(E.StartCall)
  {
    ConsistentIsFine(s, u, c);
    A.StoppingBlocksActivation(s, c, u);
  }

  lemma EncoderKeepsStranded(s: State, d: nat, e: E.Event, c: nat)
    requires Inv(s) && Stranded(s, c) && EncoderCan(s, d, e)
    ensures Stranded(EncoderDo(s, d, e), c)
  {
    if c == d { EncoderStaysStopped(s, c, e); }
    forall u ensures At(EncoderDo(s, d, e), u) == At(s, u) {}
  }

  lemma AcceptKeepsStranded(s: State, submission: RawFrames.Submission, stamp: int, c: nat)
    requires Stranded(s, c)
    ensures Stranded(Accept(s, submission, stamp), c)
  {
    forall u ensures At(Accept(s, submission, stamp), u) == At(s, u) {}
  }

  lemma CallElsewhere(n: nat, w: There, t: Tid, c: nat, e: CallEvent)
    requires CallEnabled(n, w, t, e)
    ensures !TakingDown(CallApply(n, w, t, e).pc, c)
  {
  }

  lemma CallKeepsStranded(s: State, t: Tid, e: CallEvent, c: nat)
    requires Stranded(s, c) && CallCan(s, t, e)
    ensures Stranded(CallDo(s, t, e), c)
  {
    CallElsewhere(|s.channels|, ThereOf(s, t), t, c, e);
    forall u ensures !TakingDown(At(CallDo(s, t, e), u), c) { CallMovesOne(s, t, e, u); }
  }

  lemma OwnerElsewhere(s: State, t: Tid, c: nat, e: OwnerEvent)
    requires OwnerEnabled(s, t, e)
    ensures !TakingDown(OwnerApply(|s.channels|, NothingToStop(s), ThereOf(s, t), t, e).pc, c)
  {
  }

  lemma OwnerKeepsStranded(s: State, t: Tid, e: OwnerEvent, c: nat)
    requires Stranded(s, c) && OwnerEnabled(s, t, e)
    ensures Stranded(OwnerDo(s, t, e), c)
  {
    OwnerElsewhere(s, t, c, e);
    forall u ensures !TakingDown(At(OwnerDo(s, t, e), u), c) {
      if !Starts(s, t, e, u) { OwnerMovesOne(s, t, e, u); }
    }
  }

  lemma ShutdownTakesDown(s: State, t: Tid, c: nat)
    requires LocalCan(s, t, Deactivation(StopTake(true))) && ChannelOf(At(s, t)) == Some(c)
    ensures TakingDown(At(LocalDo(s, t, Deactivation(StopTake(true))), t), c)
  {
    LocalMovesOne(s, t, Deactivation(StopTake(true)), t);
  }

  /** A channel gets out of there exactly when a shutdown takes its transition lock. */
  lemma StepKeepsStranded(s: State, e: Event, c: nat)
    requires Inv(s) && Stranded(s, c) && Enabled(s, e)
    ensures Stranded(Apply(s, e), c) <==> !A.IsLocal(s, e, c, Deactivation(StopTake(true)))
  {
    if A.IsLocal(s, e, c, Deactivation(StopTake(true))) {
      ShutdownTakesDown(s, e.t, c);
    } else {
      OtherKeepsStranded(s, e, c);
    }
  }

  lemma OtherKeepsStranded(s: State, e: Event, c: nat)
    requires Inv(s) && Stranded(s, c) && Enabled(s, e)
    requires !A.IsLocal(s, e, c, Deactivation(StopTake(true)))
    ensures Stranded(Apply(s, e), c)
  {
    match e
    case EncoderStep(d, ev) => EncoderKeepsStranded(s, d, ev, c);
    case Submit(submission, stamp) => AcceptKeepsStranded(s, submission, stamp, c);
    case ChannelStep(t, ev) => LocalKeepsStranded(s, t, ev, c);
    case CallStep(t, ev) => CallKeepsStranded(s, t, ev, c);
    case OwnerStep(t, ev) => OwnerKeepsStranded(s, t, ev, c);
  }

  // ---------- Over a run ----------

  /** No shutdown comes to take channel `c` down anywhere in a run. */
  ghost predicate NoShutdown(s: State, events: seq<Event>, c: nat)
    requires Legal(s, events)
    decreases |events|
  {
    events == []
    || (!A.IsLocal(s, events[0], c, Deactivation(StopTake(true))) && NoShutdown(Apply(s, events[0]), events[1..], c))
  }

  lemma {:induction false} RunKeepsStranded(s: State, events: seq<Event>, c: nat)
    requires Inv(s) && Stranded(s, c) && Legal(s, events) && NoShutdown(s, events, c)
    ensures Stranded(Run(s, events), c)
    decreases |events|
  {
    if events != [] {
      OtherKeepsStranded(s, events[0], c);
      StepKeepsInv(s, events[0]);
      RunKeepsStranded(Apply(s, events[0]), events[1..], c);
    }
  }

  /** A deactivation that finds its channel blocked returns at once and leaves it stranded. */
  lemma EarlyReturnStrands(s: State, t: Tid, c: nat)
    requires Inv(s) && LocalCan(s, t, Activation(Check)) && ChannelOf(At(s, t)) == Some(c)
    requires !At(s, t).active && Blocked(s.channels[c])
    ensures var s' := LocalDo(s, t, Activation(Check)); Stranded(s', c) && At(s', t) == Switched(c, At(s, t).task, true)
  {
    var s' := LocalDo(s, t, Activation(Check));
    LocalTouches(s, t, Activation(Check), c);
    forall u ensures !TakingDown(At(s', u), c) {
      ConsistentIsFine(s, t, c);
      ConsistentIsFine(s, u, c);
      LocalMovesOne(s, t, Activation(Check), u);
    }
    LocalMovesOne(s, t, Activation(Check), t);
  }

  /** From the early return of a deactivation on a channel that a failed attempt left stopping,
      until a shutdown comes to take the channel down, it stays stopping and without a child,
      and no activation of it succeeds. */
  lemma StrandedUntilShutdown(settings: C.Settings, format: RawFrames.Format, preview: bool, dropToLatest: bool,
                              before: seq<Event>, t: Tid, after: seq<Event>)
    requires Legal(Initial(settings, format, preview, dropToLatest), before)
    requires var s := Run(Initial(settings, format, preview, dropToLatest), before);
             var e := ChannelStep(t, Activation(Check));
             && Enabled(s, e) && !At(s, t).active && Blocked(HereOf(s, t).ch)
             && Legal(Apply(s, e), after) && NoShutdown(Apply(s, e), after, At(s, t).c)
    ensures var s := Run(Initial(settings, format, preview, dropToLatest), before);
            var e := ChannelStep(t, Activation(Check));
            var c, s' := At(s, t).c, Run(Apply(s, e), after);
            c < |s'.channels| && Blocked(s'.channels[c])
  {
    var s := Run(Initial(settings, format, preview, dropToLatest), before);
    var e := ChannelStep(t, Activation(Check));
    R.InitialInv(settings, format, preview, dropToLatest);
    R.RunKeepsInv(Initial(settings, format, preview, dropToLatest), before);
    EarlyReturnStrands(s, t, At(s, t).c);
    StepKeepsInv(s, e);
    RunKeepsStranded(Apply(s, e), after, At(s, t).c);
  }
}
