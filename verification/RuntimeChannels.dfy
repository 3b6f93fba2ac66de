/** What every step of the runtime keeps about one channel and the threads at work on it.

  `Agrees` ties the program point of a thread to the locks of a channel that it holds, to the
  entry point of the encoder that it is inside, and to what it may count on between two of its
  steps.  The lemmas take three parties in turn.  The thread that steps on the channel agrees
  with what it leaves behind.  A thread that stands elsewhere, or that stands still, is not
  disturbed: it agrees with the channel after the step if it did before.  And the encoder, with
  the steps it takes on its own, stays sound and moves no thread in or out.  None of them
  mentions more than one channel.
 */
module RuntimeChannels {
  import opened Threads
  import E = EncoderProtocol
  import I = EncoderInterface
  import opened RuntimeProtocol

  // ---------- A thread and a channel ----------

  /** What a thread in the middle of a transition may count on. */
  predicate Settled(pc: Pc, c: nat, ch: Channel) {
    match pc
    case Switching(d, active, task, at) =>
      c == d ==>
        && (Activating(at) ==> !ch.stopping && active)
        && (!Activating(at) && !at.Wanting? && !at.Checking? ==> !active)
        && (at.Muted? || at.Silencing? || at.Verifying? || at.Draining? || at.Drained? ==> ch.stopping)
        && (at.Draining? || at.Drained? ==> E.Stopped(ch.encoder))
        && (task.Shutdown? || task.PumpFault? ==> !active)
    case Configuring(_, at) =>
      c == 0 ==>
        && (at.ConfClaiming? || at.ConfBuilding? || at.ConfStopping? || at.ConfSwapping? ==>
              !ch.active && !ch.stopping && ch.encoder.proc.None?)
    case _ => true
  }

  /** The locks are held, and the encoder is entered, as the program point says. */
  predicate Agrees(t: Tid, pc: Pc, c: nat, ch: Channel) {
    && (HoldsTransition(pc, c) <==> ch.transition == Some(t))
    && (HoldsChannel(pc, c) <==> ch.lock == Some(t))
    && E.CallOf(E.At(ch.encoder, t)) == InsideAt(pc, c)
    && Settled(pc, c, ch)
  }

  /** The effect on its encoder of a step that is not a replacement. */
  ghost predicate Stepped(enc: E.State, enc': E.State, t: Tid) {
    || enc' == enc
    || (I.OnlyMoved(enc, enc', t, E.CallOf(E.At(enc', t)))
        && (enc'.stopping == enc.stopping || E.CallOf(E.At(enc', t)) == Some(E.StopCall)))
  }

  predicate Stops(e: LocalEvent) {
    || (e.Activation? && e.activate.CallRecovery?)
    || (e.Deactivation? && e.deactivate.CallSilence?)
    || (e.Replacement? && e.conf == ConfBuild(true))
  }

  lemma ActivationSteps(g: Global, v: Here, t: Tid, e: ActivateEvent)
    requires ActivateEnabled(v, t, e) && I.Sound(v.ch.encoder)
    requires e.CallRecovery? ==> I.NobodyInside(v.ch.encoder, E.StopCall)
    ensures var enc' := ActivateApply(g, v, t, e).ch.encoder; I.Sound(enc') && Stepped(v.ch.encoder, enc', t)
  {
    if e.CallStart? { I.CallStartMoves(v.ch.encoder, t); }
    if e.CallRecovery? { I.CallStopMoves(v.ch.encoder, t); }
    if e.StartReturns? || e.RecoveryReturns? { I.ReturnMoves(v.ch.encoder, t); }
  }

  lemma DeactivationSteps(v: Here, t: Tid, e: DeactivateEvent)
    requires DeactivateEnabled(v, t, e) && I.Sound(v.ch.encoder)
    requires e.CallSilence? ==> I.NobodyInside(v.ch.encoder, E.StopCall)
    ensures var enc' := DeactivateApply(v, t, e).ch.encoder; I.Sound(enc') && Stepped(v.ch.encoder, enc', t)
  {
    if e.CallSilence? { I.CallStopMoves(v.ch.encoder, t); }
    if e.SilenceReturns? { I.ReturnMoves(v.ch.encoder, t); }
  }

  lemma ReplacementSteps(g: Global, v: Here, t: Tid, e: ConfEvent)
    requires ConfEnabled(v, t, e) && I.Sound(v.ch.encoder) && !e.ConfSwap?
    requires e == ConfBuild(true) ==> I.NobodyInside(v.ch.encoder, E.StopCall)
    ensures var enc' := ConfApply(g, v, t, e).ch.encoder; I.Sound(enc') && Stepped(v.ch.encoder, enc', t)
  {
    if e == ConfBuild(true) { I.CallStopMoves(v.ch.encoder, t); }
    if e.ConfStopReturns? { I.ReturnMoves(v.ch.encoder, t); }
  }

  lemma DeliverySteps(g: Global, v: Here, t: Tid, e: PumpEvent)
    requires PumpEnabled(g, v, t, e) && I.Sound(v.ch.encoder)
    ensures var enc' := PumpApply(g, v, t, e).ch.encoder; I.Sound(enc') && Stepped(v.ch.encoder, enc', t)
  {
    if e.PumpTake? && v.ch.pending != [] { I.CallWriteMoves(v.ch.encoder, t, v.ch.pending[0].stamp); }
    if e.PumpReturns? { I.ReturnMoves(v.ch.encoder, t); }
  }

  // ---------- The thread that takes a step ----------

  lemma ActivationAgrees(g: Global, v: Here, t: Tid, c: nat, e: ActivateEvent)
    requires ActivateEnabled(v, t, e) && ChannelOf(v.pc) == Some(c) && Agrees(t, v.pc, c, v.ch)
    requires Stepped(v.ch.encoder, ActivateApply(g, v, t, e).ch.encoder, t)
    ensures var v' := ActivateApply(g, v, t, e); Agrees(t, v'.pc, c, v'.ch)
  {
    if e.CallStart? || e.StartReturns? || e.CallRecovery? || e.RecoveryReturns? { ActivationCallAgrees(g, v, t, c, e); }
  }

  lemma ActivationCallAgrees(g: Global, v: Here, t: Tid, c: nat, e: ActivateEvent)
    requires ActivateEnabled(v, t, e) && ChannelOf(v.pc) == Some(c) && Agrees(t, v.pc, c, v.ch)
    requires e.CallStart? || e.StartReturns? || e.CallRecovery? || e.RecoveryReturns?
    requires Stepped(v.ch.encoder, ActivateApply(g, v, t, e).ch.encoder, t)
    ensures var v' := ActivateApply(g, v, t, e); Agrees(t, v'.pc, c, v'.ch)
  {
  }

  lemma DeactivationAgrees(v: Here, t: Tid, c: nat, e: DeactivateEvent)
    requires DeactivateEnabled(v, t, e) && ChannelOf(v.pc) == Some(c) && Agrees(t, v.pc, c, v.ch)
    requires Stepped(v.ch.encoder, DeactivateApply(v, t, e).ch.encoder, t)
    ensures var v' := DeactivateApply(v, t, e); Agrees(t, v'.pc, c, v'.ch)
  {
    if e.CallSilence? || e.SilenceReturns? { DeactivationCallAgrees(v, t, c, e); }
  }

  lemma DeactivationCallAgrees(v: Here, t: Tid, c: nat, e: DeactivateEvent)
    requires DeactivateEnabled(v, t, e) && ChannelOf(v.pc) == Some(c) && Agrees(t, v.pc, c, v.ch)
    requires e.CallSilence? || e.SilenceReturns?
    requires Stepped(v.ch.encoder, DeactivateApply(v, t, e).ch.encoder, t)
    ensures var v' := DeactivateApply(v, t, e); Agrees(t, v'.pc, c, v'.ch)
  {
  }

  lemma ReplacementAgrees(g: Global, v: Here, t: Tid, e: ConfEvent)
    requires ConfEnabled(v, t, e) && Agrees(t, v.pc, 0, v.ch)
    requires e.ConfSwap? || Stepped(v.ch.encoder, ConfApply(g, v, t, e).ch.encoder, t)
    ensures var v' := ConfApply(g, v, t, e); Agrees(t, v'.pc, 0, v'.ch)
  {
  }

  lemma DeliveryAgrees(g: Global, v: Here, t: Tid, c: nat, e: PumpEvent)
    requires PumpEnabled(g, v, t, e) && ChannelOf(v.pc) == Some(c) && Agrees(t, v.pc, c, v.ch)
    requires Stepped(v.ch.encoder, PumpApply(g, v, t, e).ch.encoder, t)
    ensures var v' := PumpApply(g, v, t, e); Agrees(t, v'.pc, c, v'.ch)
  {
  }

  // ---------- Any other thread ----------

  /** No thread but `t` takes or gives back a lock, and only a holder of the transition lock
      changes what another holder counts on. */
  ghost predicate Respects(ch: Channel, ch': Channel, t: Tid) {
    && (ch'.transition == ch.transition || (ch.transition.None? && ch'.transition == Some(t))
        || (ch.transition == Some(t) && ch'.transition.None?))
    && (ch'.lock == ch.lock || (ch.lock.None? && ch'.lock == Some(t)) || (ch.lock == Some(t) && ch'.lock.None?))
    && (ch.transition.Some? && ch.transition != Some(t) ==>
          && ch'.active == ch.active && ch'.stopping == ch.stopping
          && ch'.encoder.proc == ch.encoder.proc && ch'.encoder.readers == ch.encoder.readers
          && ch'.encoder.stopping == ch.encoder.stopping)
  }

  /** Every other thread stays where it was in the encoder. */
  ghost predicate Leaves(ch: Channel, ch': Channel, t: Tid) {
    || Stepped(ch.encoder, ch'.encoder, t)
    || (ch.transition == Some(t) && ch.lock == Some(t) && forall u :: I.Inside(ch'.encoder, u, None))
  }

  lemma OtherAgrees(ch: Channel, ch': Channel, t: Tid, c: nat, u: Tid, pc: Pc)
    requires Agrees(u, pc, c, ch) && u != t && Respects(ch, ch', t) && Leaves(ch, ch', t)
    ensures Agrees(u, pc, c, ch')
  {
    if !Stepped(ch.encoder, ch'.encoder, t) { assert I.Inside(ch'.encoder, u, None); }
  }

  lemma ActivationRespects(g: Global, v: Here, t: Tid, c: nat, e: ActivateEvent)
    requires ActivateEnabled(v, t, e) && ChannelOf(v.pc) == Some(c) && Agrees(t, v.pc, c, v.ch)
    ensures Respects(v.ch, ActivateApply(g, v, t, e).ch, t)
  {
  }

  lemma DeactivationRespects(v: Here, t: Tid, c: nat, e: DeactivateEvent)
    requires DeactivateEnabled(v, t, e) && ChannelOf(v.pc) == Some(c) && Agrees(t, v.pc, c, v.ch)
    ensures Respects(v.ch, DeactivateApply(v, t, e).ch, t)
  {
  }

  lemma ReplacementRespects(g: Global, v: Here, t: Tid, e: ConfEvent)
    requires ConfEnabled(v, t, e) && Agrees(t, v.pc, 0, v.ch)
    ensures Respects(v.ch, ConfApply(g, v, t, e).ch, t)
  {
  }

  lemma DeliveryRespects(g: Global, v: Here, t: Tid, c: nat, e: PumpEvent)
    requires PumpEnabled(g, v, t, e) && ChannelOf(v.pc) == Some(c) && Agrees(t, v.pc, c, v.ch)
    ensures Respects(v.ch, PumpApply(g, v, t, e).ch, t)
  {
  }

  lemma ReplacementLeaves(g: Global, v: Here, t: Tid, e: ConfEvent)
    requires ConfEnabled(v, t, e) && Agrees(t, v.pc, 0, v.ch)
    requires e.ConfSwap? || Stepped(v.ch.encoder, ConfApply(g, v, t, e).ch.encoder, t)
    ensures Leaves(v.ch, ConfApply(g, v, t, e).ch, t)
  {
    I.InitialSound(v.ch.encoder.preview);
  }

  // ---------- All threads at a step ----------

  ghost predicate AllAgree(s: State, c: nat)
    requires c < |s.channels|
  {
    forall t :: Agrees(t, At(s, t), c, s.channels[c])
  }

  /** Nobody is inside a stop while another thread holds the transition lock outside of one. */
  lemma StopsAreSerial(s: State, c: nat, t: Tid)
    requires c < |s.channels| && AllAgree(s, c)
    requires HoldsTransition(At(s, t), c) && InsideAt(At(s, t), c) != Some(E.StopCall)
    ensures I.NobodyInside(s.channels[c].encoder, E.StopCall)
  {
    forall u ensures E.CallOf(E.At(s.channels[c].encoder, u)) != Some(E.StopCall) {
      assert Agrees(u, At(s, u), c, s.channels[c]) && Agrees(t, At(s, t), c, s.channels[c]);
    }
  }

  lemma StartsAreSerial(s: State, c: nat, t: Tid)
    requires c < |s.channels| && AllAgree(s, c)
    requires HoldsTransition(At(s, t), c) && InsideAt(At(s, t), c) != Some(E.StartCall)
    ensures I.NobodyInside(s.channels[c].encoder, E.StartCall)
  {
    forall u ensures E.CallOf(E.At(s.channels[c].encoder, u)) != Some(E.StartCall) {
      assert Agrees(u, At(s, u), c, s.channels[c]) && Agrees(t, At(s, t), c, s.channels[c]);
    }
  }

  /** A step on the channel itself: the encoder stays sound and all threads agree with it. */
  lemma LocalKeepsChannel(s: State, t: Tid, e: LocalEvent, c: nat)
    requires LocalCan(s, t, e) && ChannelOf(At(s, t)) == Some(c)
    requires AllAgree(s, c) && I.Sound(s.channels[c].encoder)
    ensures var v' := LocalApply(s.g, HereOf(s, t), t, e);
            && I.Sound(v'.ch.encoder) && Agrees(t, v'.pc, c, v'.ch)
            && Respects(s.channels[c], v'.ch, t) && Leaves(s.channels[c], v'.ch, t)
            && (!IsSwap(e) ==> Stepped(s.channels[c].encoder, v'.ch.encoder, t))
  {
    var v := HereOf(s, t);
    assert Agrees(t, v.pc, c, v.ch);
    if Stops(e) { StopsAreSerial(s, c, t); }
    match e
    case Activation(ev) =>
      ActivationSteps(s.g, v, t, ev);
      ActivationAgrees(s.g, v, t, c, ev);
      ActivationRespects(s.g, v, t, c, ev);
    case Deactivation(ev) =>
      DeactivationSteps(v, t, ev);
      DeactivationAgrees(v, t, c, ev);
      DeactivationRespects(v, t, c, ev);
    case Replacement(ev) =>
      if ev.ConfSwap? { I.InitialSound(v.ch.encoder.preview); } else { ReplacementSteps(s.g, v, t, ev); }
      ReplacementAgrees(s.g, v, t, ev);
      ReplacementRespects(s.g, v, t, ev);
      ReplacementLeaves(s.g, v, t, ev);
    case Delivery(ev) =>
      DeliverySteps(s.g, v, t, ev);
      DeliveryAgrees(s.g, v, t, c, ev);
      DeliveryRespects(s.g, v, t, c, ev);
  }
}
