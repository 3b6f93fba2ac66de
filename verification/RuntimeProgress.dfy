/** A thread at work in the runtime can go on unless it waits.

  `NextStep` names the step, with every native action succeeding and every timed acquisition
  succeeding that can. */
module RuntimeProgress {
  import opened Threads
  import E = EncoderProtocol
  import EO = EncoderOutcomes
  import opened RuntimeProtocol
  import opened RuntimeInvariant
  import opened RuntimeShutdown

  /** Inside an encoder the next step is the call's own, until it has returned. */
  function InsideOr(enc: E.State, c: nat, t: Tid, leave: LocalEvent): Event {
    if E.At(enc, t).Returned? then ChannelStep(t, leave) else EncoderStep(c, EO.NextStep(enc, t))
  }

  function NextOfSwitch(ch: Channel, c: nat, t: Tid, at: SwitchPoint): Event {
    match at
    case Wanting => ChannelStep(t, Activation(TakeTransition))
    case Checking => ChannelStep(t, Activation(Check))
    case Claiming => ChannelStep(t, Activation(ClaimChannel))
    case Claimed => ChannelStep(t, Activation(CallStart))
    case Starting => InsideOr(ch.encoder, c, t, Activation(StartReturns))
    case Confirming => ChannelStep(t, Activation(Confirm))
    case Committing => ChannelStep(t, Activation(Commit))
    case Failing => ChannelStep(t, Activation(CallRecovery))
    case Recovering => InsideOr(ch.encoder, c, t, Activation(RecoveryReturns))
    case Muting => ChannelStep(t, Deactivation(Mute))
    case Muted => ChannelStep(t, Deactivation(CallSilence))
    case Silencing => InsideOr(ch.encoder, c, t, Deactivation(SilenceReturns))
    case Verifying => ChannelStep(t, Deactivation(Verify))
    case Draining => ChannelStep(t, Deactivation(DrainChannel(ch.lock.None?)))
    case Drained => ChannelStep(t, Deactivation(Deactivate))
  }

  function NextOfReplacement(ch: Channel, t: Tid, at: ConfPoint): Event {
    match at
    case ConfWanting => ChannelStep(t, Replacement(ConfTake))
    case ConfChecking => ChannelStep(t, Replacement(ConfCheck))
    case ConfClaiming => ChannelStep(t, Replacement(ConfClaim))
    case ConfBuilding => ChannelStep(t, Replacement(ConfBuild(true)))
    case ConfStopping => InsideOr(ch.encoder, 0, t, Replacement(ConfStopReturns))
    case ConfSwapping => ChannelStep(t, Replacement(ConfSwap))
  }

  function NextOfPump(g: Global, ch: Channel, c: nat, t: Tid, at: PumpPoint): Event {
    match at
    case PumpWaiting => ChannelStep(t, Delivery(if g.pumpStop then PumpExit else PumpWake))
    case PumpClaiming => ChannelStep(t, Delivery(PumpClaim))
    case PumpHolding => ChannelStep(t, Delivery(PumpTake))
    case PumpWriting => InsideOr(ch.encoder, c, t, Delivery(PumpReturns))
    case PumpCounting => ChannelStep(t, Delivery(PumpCount))
  }

  function NextOfOwner(s: State, t: Tid, at: OwnerPoint): Event {
    match at
    case Creating => OwnerStep(t, CreateControl(true))
    case PumpStarting(_) => OwnerStep(t, StartPump(true))
    case Listening => OwnerStep(t, Listen(true))
    case Closing => OwnerStep(t, CloseGate)
    case Quiescing => OwnerStep(t, Quiesce(s.g.hasControl ==> s.g.jobs == {}))
    case StopAt(c) => ChannelStep(t, Deactivation(StopTake(c < |s.channels| && s.channels[c].transition.None?)))
    case JoinAt(c) => OwnerStep(t, JoinPump(At(s, Pump(c)).Idle?))
    case Releasing => OwnerStep(t, ReleaseEndpoint(true))
    case RpcClosing => OwnerStep(t, CloseRpc(true))
  }

  /** The next step of a thread, if everything outside works and nothing is in its way. */
  function NextStep(s: State, t: Tid): Event
    requires |s.channels| > 0
  {
    match At(s, t)
    case Switching(c, _, _, at) => NextOfSwitch(s.channels[if c < |s.channels| then c else 0], c, t, at)
    case Configuring(_, at) => NextOfReplacement(s.channels[0], t, at)
    case Pumping(c, at) => NextOfPump(s.g, s.channels[if c < |s.channels| then c else 0], c, t, at)
    case Owning(at) => NextOfOwner(s, t, at)
    case Entered(_) => CallStep(t, TakeControl(s.g.control.None?))
    case Dispatching(_) => CallStep(t, Dispatch(false))
    case Publishing(_) => CallStep(t, Publish)
    case Leaving => CallStep(t, LeaveControl)
    case Exiting => CallStep(t, ExitJob)
    case _ => CallStep(t, Resume)
  }

  /** The thread waits for a lock without a timeout, or as a pump for a frame. */
  predicate Waits(g: Global, v: Here, t: Tid) {
    match v.pc
    case Switching(_, _, _, Wanting) => v.ch.transition.Some?
    case Switching(_, _, _, Claiming) => v.ch.lock.Some?
    case Configuring(_, ConfWanting) => v.ch.transition.Some?
    case Configuring(_, ConfClaiming) => v.ch.lock.Some?
    case Pumping(_, PumpWaiting) => !g.pumpStop && (!v.ch.active || v.ch.stopping || v.ch.pending == [])
    case Pumping(_, PumpClaiming) => v.ch.lock.Some?
    case Pumping(_, PumpWriting) =>
      (E.At(v.ch.encoder, t).AtWriteLock? || E.At(v.ch.encoder, t).WriteFailed?) && EO.InItsWay(v.ch.encoder, t)
    case _ => false
  }

  predicate ThreadWaits(s: State, t: Tid) {
    var c := ChannelOf(At(s, t));
    c.Some? && c.value < |s.channels| && Waits(s.g, HereOf(s, t), t)
  }

  /** Inside the encoder the next step of the call can be taken unless it waits for a lock. */
  lemma InsideGoesOn(s: State, t: Tid, c: nat)
    requires Inv(s) && c < |s.channels| && InsideAt(At(s, t), c).Some?
    ensures var enc := s.channels[c].encoder;
            && !E.At(enc, t).Idle?
            && (!E.At(enc, t).Returned? && !ThreadWaits(s, t) ==> EncoderCan(s, c, EO.NextStep(enc, t)))
  {
    ConsistentIsFine(s, t, c);
    EO.CallsGoOn(s.channels[c].encoder, t);
  }

  /** The step is the call's own inside the encoder, or one on the channel that can be taken. */
  predicate Ready(g: Global, v: Here, t: Tid, c: nat, e: Event) {
    match e
    case EncoderStep(d, ev) =>
      d == c && ev == EO.NextStep(v.ch.encoder, t) && InsideAt(v.pc, c).Some? && !E.At(v.ch.encoder, t).Returned?
    case ChannelStep(u, ev) => u == t && LocalEnabled(g, v, t, ev)
    case _ => false
  }

  lemma SwitchIsReady(g: Global, v: Here, t: Tid, c: nat)
    requires v.pc.Switching? && v.pc.c == c && !Waits(g, v, t)
    requires InsideAt(v.pc, c) == E.CallOf(E.At(v.ch.encoder, t))
    ensures Ready(g, v, t, c, NextOfSwitch(v.ch, c, t, v.pc.at))
  {
  }

  lemma ReplacementIsReady(g: Global, v: Here, t: Tid)
    requires v.pc.Configuring? && !Waits(g, v, t)
    requires InsideAt(v.pc, 0) == E.CallOf(E.At(v.ch.encoder, t))
    ensures Ready(g, v, t, 0, NextOfReplacement(v.ch, t, v.pc.conf))
  {
  }

  lemma PumpIsReady(g: Global, v: Here, t: Tid, c: nat)
    requires v.pc.Pumping? && v.pc.c == c && !Waits(g, v, t)
    requires InsideAt(v.pc, c) == E.CallOf(E.At(v.ch.encoder, t))
    ensures Ready(g, v, t, c, NextOfPump(g, v.ch, c, t, v.pc.pump))
  {
  }

  lemma ReadyIsEnabled(s: State, t: Tid, c: nat, e: Event)
    requires Inv(s) && ChannelOf(At(s, t)) == Some(c) && c < |s.channels| && !ThreadWaits(s, t)
    requires Ready(s.g, HereOf(s, t), t, c, e)
    ensures Enabled(s, e)
  {
    if e.EncoderStep? { InsideGoesOn(s, t, c); }
  }

  lemma ChannelWorkGoesOn(s: State, t: Tid)
    requires Inv(s) && (At(s, t).Switching? || At(s, t).Configuring? || At(s, t).Pumping?) && !ThreadWaits(s, t)
    ensures Enabled(s, NextStep(s, t))
  {
    var c := ChannelOf(At(s, t)).value;
    ConsistentIsFine(s, t, 0);
    ConsistentIsFine(s, t, c);
    if At(s, t).Switching? { SwitchIsReady(s.g, HereOf(s, t), t, c); }
    else if At(s, t).Configuring? { ReplacementIsReady(s.g, HereOf(s, t), t); }
    else { PumpIsReady(s.g, HereOf(s, t), t, c); }
    ReadyIsEnabled(s, t, c, NextStep(s, t));
  }

  lemma OwnerGoesOn(s: State, t: Tid)
    requires Inv(s) && At(s, t).Owning?
    ensures Enabled(s, NextStep(s, t))
  {
    ConsistentIsFine(s, t, 0);
    assert Phase(s, At(s, t));
  }

  /** In every reachable state every thread at work can take its next step, unless it waits for
      a lock without a timeout, or as a pump for a frame. */
  lemma ThreadsGoOn(s: State, t: Tid)
    requires Inv(s) && !At(s, t).Idle? && !ThreadWaits(s, t)
    ensures Enabled(s, NextStep(s, t))
  {
    match At(s, t)
    case Switching(_, _, _, _) => ChannelWorkGoesOn(s, t);
    case Configuring(_, _) => ChannelWorkGoesOn(s, t);
    case Pumping(_, _) => ChannelWorkGoesOn(s, t);
    case Owning(_) => OwnerGoesOn(s, t);
    case _ =>
  }
}
