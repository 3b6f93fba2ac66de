/** How the operations of the runtime end, and why they fail.

  Every lemma here is about one step; `RuntimeRequests` and `RuntimeStops` put them together
  over runs. */
module RuntimeOutcomes {
  import opened Threads
  import E = EncoderProtocol
  import C = Configuration
  import RawFrames
  import opened FrameQueue
  import opened RuntimeProtocol
  import opened RuntimeInvariant

  // ---------- Setting a channel active or inactive ----------

  /** Why a switch fails: it would activate a channel that is being stopped, the start of its
      encoder has failed and was undone, or a deactivation could not take the transition in time,
      stop the encoder, find it stopped, or wait for the pump. */
  predicate SwitchFails(g: Global, v: Here, t: Tid, e: LocalEvent)
    requires LocalEnabled(g, v, t, e)
  {
    match e
    case Activation(Check) => v.pc.active && (g.closing || v.ch.stopping)
    case Activation(RecoveryReturns) => true
    case Deactivation(StopTake(ok)) => !ok
    case Deactivation(SilenceReturns) => !E.At(v.ch.encoder, t).ok
    case Deactivation(Verify) => !E.Stopped(v.ch.encoder)
    case Deactivation(DrainChannel(ok)) => !ok
    case _ => false
  }

  /** A switch ends in failure exactly for one of these reasons. */
  lemma SwitchFailsForAReason(g: Global, v: Here, t: Tid, e: LocalEvent)
    requires LocalEnabled(g, v, t, e)
    ensures var pc' := LocalApply(g, v, t, e).pc; pc'.Switched? && !pc'.ok <==> SwitchFails(g, v, t, e)
  {
    match e
    case Activation(ev) => ActivationFails(g, v, t, ev);
    case Deactivation(ev) => DeactivationFails(g, v, t, ev);
    case _ => LocalMovesOn(g, v, t, e);
  }

  lemma ActivationFails(g: Global, v: Here, t: Tid, e: ActivateEvent)
    requires ActivateEnabled(v, t, e)
    ensures var pc' := ActivateApply(g, v, t, e).pc;
            pc'.Switched? && !pc'.ok <==> SwitchFails(g, v, t, Activation(e))
  {
  }

  lemma DeactivationFails(g: Global, v: Here, t: Tid, e: DeactivateEvent)
    requires DeactivateEnabled(v, t, e)
    ensures var pc' := DeactivateApply(v, t, e).pc;
            pc'.Switched? && !pc'.ok <==> SwitchFails(g, v, t, Deactivation(e))
  {
  }

  /** An activation turns to stopping the encoder again exactly when its start has failed, or
      has returned without a running child. */
  lemma StartIsUndone(g: Global, v: Here, t: Tid, e: ActivateEvent)
    requires ActivateEnabled(v, t, e)
    ensures IsAt(ActivateApply(g, v, t, e).pc, Failing)
       <==> (e.StartReturns? && !E.At(v.ch.encoder, t).ok) || (e.Confirm? && !Running(v.ch.encoder))
  {
  }

  /** It returns at once exactly when the channel is already as wanted: active with a running
      child, or inactive with a stopped encoder. */
  lemma NothingToSwitch(g: Global, v: Here, t: Tid)
    requires ActivateEnabled(v, t, Check)
    ensures var v' := ActivateApply(g, v, t, Check);
            && (v.pc.active ==> (v'.pc == Switched(v.pc.c, v.pc.task, true)
                                 <==> v.ch.active && Running(v.ch.encoder) && !g.closing && !v.ch.stopping))
            && (!v.pc.active ==> (v'.pc == Switched(v.pc.c, v.pc.task, true)
                                  <==> !v.ch.active && E.Stopped(v.ch.encoder)))
  {
  }

  function SwitchStage(at: SwitchPoint): nat {
    match at
    case Wanting => 0
    case Checking => 1
    case Claiming | Muting => 2
    case Claimed | Muted => 3
    case Starting | Silencing => 4
    case Confirming | Verifying => 5
    case Committing | Draining => 6
    case Failing | Drained => 7
    case Recovering => 8
  }

  /** Every step of a switch brings it forward or ends it. */
  lemma SwitchesAdvance(g: Global, v: Here, t: Tid, e: LocalEvent)
    requires LocalEnabled(g, v, t, e) && v.pc.Switching?
    ensures var pc' := LocalApply(g, v, t, e).pc;
            pc'.Switched? || (pc'.Switching? && SwitchStage(v.pc.at) < SwitchStage(pc'.at))
  {
    match e
    case Activation(ev) => ActivationAdvances(g, v, t, ev);
    case Deactivation(ev) => DeactivationAdvances(v, t, ev);
  }

  lemma ActivationAdvances(g: Global, v: Here, t: Tid, e: ActivateEvent)
    requires ActivateEnabled(v, t, e)
    ensures var pc' := ActivateApply(g, v, t, e).pc;
            pc'.Switched? || (pc'.Switching? && SwitchStage(v.pc.at) < SwitchStage(pc'.at))
  {
  }

  lemma DeactivationAdvances(v: Here, t: Tid, e: DeactivateEvent)
    requires DeactivateEnabled(v, t, e) && v.pc.Switching?
    ensures var pc' := DeactivateApply(v, t, e).pc;
            pc'.Switched? || (pc'.Switching? && SwitchStage(v.pc.at) < SwitchStage(pc'.at))
  {
  }

  // ---------- Replacing the RTP encoder ----------

  /** Why a replacement is given up: the source is stopping, its channel is not at rest, or the
      new encoder's preflight or the stop of the old one has failed. */
  predicate ReplacementFails(g: Global, v: Here, t: Tid, e: ConfEvent)
    requires ConfEnabled(v, t, e)
  {
    match e
    case ConfCheck => g.closing || v.ch.active || v.ch.stopping || !E.Stopped(v.ch.encoder)
    case ConfBuild(ok) => !ok
    case ConfStopReturns => !E.At(v.ch.encoder, t).ok
    case _ => false
  }

  function ConfStage(at: ConfPoint): nat {
    match at
    case ConfWanting => 0
    case ConfChecking => 1
    case ConfClaiming => 2
    case ConfBuilding => 3
    case ConfStopping => 4
    case ConfSwapping => 5
  }

  /** A replacement is given up exactly for one of these reasons, and else goes on until the
      settings are replaced. */
  lemma ReplacementFailsForAReason(g: Global, v: Here, t: Tid, e: ConfEvent)
    requires ConfEnabled(v, t, e)
    ensures var pc' := ConfApply(g, v, t, e).pc;
            && (pc'.Leaving? <==> ReplacementFails(g, v, t, e))
            && (!pc'.Leaving? ==> if e.ConfSwap? then pc' == Publishing(v.pc.plan)
                                  else pc'.Configuring? && pc'.plan == v.pc.plan
                                       && ConfStage(v.pc.conf) < ConfStage(pc'.conf))
  {
  }

  // ---------- Source control operations ----------

  /** What an operation turns to once it holds the source transition: nothing if it is
      cancelled; a patch needs the current revision and to be accepted. */
  lemma DispatchDecides(n: nat, w: There, t: Tid, cancelled: bool)
    requires CallEnabled(n, w, t, Dispatch(cancelled))
    ensures var pc' := CallApply(n, w, t, Dispatch(cancelled)).pc;
            match w.pc.job
            case OtherJob => pc' == Leaving
            case SetRtp(active) =>
              if cancelled then pc' == Leaving else pc' == Switching(0, active, Domain, Wanting)
            case Configure(expected, patch) =>
              if !cancelled && patch != [] && expected == w.g.revision && C.Check(w.g.settings, patch).Candidate?
              then pc' == Configuring(Plan(expected, patch, C.Check(w.g.settings, patch).settings), ConfWanting)
              else pc' == Leaving
  {
  }

  /** How far an operation has come that is not at work on a channel. */
  function JobStage(pc: Pc): nat {
    match pc
    case Entered(_) => 1
    case Dispatching(_) => 2
    case Configuring(_, _) => 3
    case Switching(_, _, _, _) => 3
    case Switched(_, _, _) => 4
    case Publishing(_) => 4
    case Leaving => 5
    case Exiting => 6
    case _ => 0
  }

  /** Every step of an admitted operation brings it forward, and the last ends it. */
  lemma JobsAdvance(n: nat, w: There, t: Tid, e: CallEvent)
    requires CallEnabled(n, w, t, e) && IsJob(w.pc)
    ensures var pc' := CallApply(n, w, t, e).pc;
            if e.ExitJob? then pc'.Idle? else JobStage(w.pc) < JobStage(pc')
  {
  }

  // ---------- Delivering a frame ----------

  /** The pump hands the oldest frame over, with its stamp, exactly when the channel is active, not
      stopping, and has one; else it goes back to waiting. */
  lemma PumpHandsOver(g: Global, v: Here, t: Tid)
    requires PumpEnabled(g, v, t, PumpTake)
    ensures var v' := PumpApply(g, v, t, PumpTake);
            if v.ch.active && !v.ch.stopping && v.ch.pending != []
            then v'.ch.handed == v.ch.handed + [v.ch.pending[0].sequence] && v'.ch.pending == v.ch.pending[1..]
                 && v'.pc == Pumping(v.pc.c, PumpWriting) && v'.ch.encoder.preview == v.ch.encoder.preview
                 && ((v.ch.encoder.preview ==> v.ch.pending[0].stamp > 0)
                     <==> E.At(v'.ch.encoder, t) == E.AtWriteLock(v.ch.pending[0].stamp))
            else v'.ch == v.ch.(lock := None) && v'.pc == Pumping(v.pc.c, PumpWaiting)
  {
  }

  /** After a write the pump counts the frame, unless the write has failed; then it sets its
      channel inactive. */
  lemma PumpGoesOn(g: Global, v: Here, t: Tid)
    requires PumpEnabled(g, v, t, PumpReturns)
    ensures var v' := PumpApply(g, v, t, PumpReturns);
            v'.ch.lock.None? && if E.At(v.ch.encoder, t).ok then v'.pc == Pumping(v.pc.c, PumpCounting)
                                else v'.pc == Switching(v.pc.c, false, PumpFault, Wanting)
  {
  }

  // ---------- Accepting a frame ----------

  /** A submission is accepted exactly when it has passed validation, the runtime is not
      closing, and it has the stamp it needs. */
  predicate Acceptable(s: State, submission: RawFrames.Submission, stamp: int) {
    submission.Queued? && !s.g.closing && (if |s.channels| > 1 then stamp > 0 else stamp >= 0)
  }

  /** An accepted frame gets the next number and becomes the newest frame of every active
      channel that is not stopping; nothing else changes. */
  lemma AcceptedExactly(s: State, submission: RawFrames.Submission, stamp: int)
    ensures var s' := Accept(s, submission, stamp);
            if Acceptable(s, submission, stamp) then
              && s'.g == s.g.(framesIn := s.g.framesIn + 1) && s'.pcs == s.pcs && |s'.channels| == |s.channels|
              && forall c :: 0 <= c < |s.channels| ==>
                   var ch, ch' := s.channels[c], s'.channels[c];
                   if ch.active && !ch.stopping then
                     ch'.offered == ch.offered + 1 && ch'.pending != []
                     && ch'.pending[|ch'.pending| - 1] == Frame(s.g.framesIn + 1, |submission.data|, stamp)
                   else ch' == ch
            else s' == s
  {
  }
}
