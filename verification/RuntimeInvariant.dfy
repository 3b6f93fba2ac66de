/** What every interleaving of the runtime keeps, with any number of client threads.

  `Consistent` lifts the agreement of one thread with one channel to all of them: channels and
  threads are where they belong, the global locks and the count of admitted operations match
  the threads that hold them, every thread agrees with every channel, and every encoder is
  sound.  Each kind of event has its own lemmas, so that no proof has to look at all events
  together: an event of an encoder, a submission, a step on a channel, a call or a step of a
  source operation, and a step of the thread that starts or stops the runtime.  So what
  RuntimeChannels derives for one channel, that its stops take turns, holds of all of them.
 */
module RuntimeInvariant {
  import opened Threads
  import E = EncoderProtocol
  import I = EncoderInterface
  import RawFrames
  import opened RuntimeProtocol
  import opened RuntimeChannels

  // ---------- The invariant ----------

  /** Channel numbers exist, and a pump thread does nothing but pump its own channel. */
  predicate Placed(n: nat, t: Tid, pc: Pc) {
    match pc
    case Idle => true
    case Switching(c, _, task, _) => c < n && (if task.PumpFault? then t == Pump(c) else t.Client?)
    case Switched(c, task, _) => c < n && (if task.PumpFault? then t == Pump(c) else t.Client?)
    case Pumping(c, _) => c < n && t == Pump(c)
    case Owning(at) => t.Client? && (at.StopAt? || at.JoinAt? ==> at.c < n)
    case _ => t.Client?
  }

  /** The source transition, the lifecycle lock and the admission count agree with the threads. */
  predicate Owned(g: Global, t: Tid, pc: Pc) {
    && (HoldsControl(pc) <==> g.control == Some(t))
    && (IsOwner(pc) <==> g.owner == Some(t))
    && (IsJob(pc) <==> t in g.jobs)
  }

  /** Threads, locks and encoders agree with one another. */
  ghost predicate Consistent(s: State) {
    && |s.channels| >= 1
    && (forall t :: Placed(|s.channels|, t, At(s, t)))
    && (forall t :: Owned(s.g, t, At(s, t)))
    && (forall c :: 0 <= c < |s.channels| ==> AllAgree(s, c))
    && (forall c :: 0 <= c < |s.channels| ==> I.Sound(s.channels[c].encoder))
  }

  ghost predicate PumpsIdle(s: State, from: nat, to: nat) {
    forall c: nat :: from <= c < to ==> At(s, Pump(c)).Idle?
  }

  // ---------- Steps and threads ----------

  predicate Spawns(s: State, e: Event, u: Tid)
    requires Enabled(s, e)
  {
    e.OwnerStep? && Starts(s, e.t, e.owner, u)
  }

  /** Starting a pump moves the new thread as well. */
  predicate Starts(s: State, t: Tid, e: OwnerEvent, u: Tid)
    requires OwnerEnabled(s, t, e)
  {
    Spawned(s, t, e).Some? && u == Pump(Spawned(s, t, e).value)
  }

  predicate ActorIs(e: Event, t: Tid) {
    !e.EncoderStep? && !e.Submit? && e.t == t
  }

  lemma OthersUnmoved(s: State, e: Event, u: Tid)
    requires Enabled(s, e) && !ActorIs(e, u) && !Spawns(s, e, u)
    ensures At(Apply(s, e), u) == At(s, u)
  {
    match e
    case ChannelStep(t, ev) => LocalMovesOne(s, t, ev, u);
    case CallStep(t, ev) => CallMovesOne(s, t, ev, u);
    case OwnerStep(t, ev) => OwnerMovesOne(s, t, ev, u);
    case _ =>
  }

  lemma LocalMovesOne(s: State, t: Tid, e: LocalEvent, u: Tid)
    requires LocalCan(s, t, e)
    ensures At(LocalDo(s, t, e), u) == if u == t then LocalApply(s.g, HereOf(s, t), t, e).pc else At(s, u)
  {
  }

  lemma CallMovesOne(s: State, t: Tid, e: CallEvent, u: Tid)
    requires CallCan(s, t, e)
    ensures At(CallDo(s, t, e), u) == if u == t then CallApply(|s.channels|, ThereOf(s, t), t, e).pc else At(s, u)
  {
  }

  lemma OwnerMovesOne(s: State, t: Tid, e: OwnerEvent, u: Tid)
    requires OwnerEnabled(s, t, e) && !Starts(s, t, e, u)
    ensures At(OwnerDo(s, t, e), u)
         == if u == t then OwnerApply(|s.channels|, NothingToStop(s), ThereOf(s, t), t, e).pc else At(s, u)
  {
  }

  /** What a step on a channel leaves: the other channels, and all threads but one. */
  lemma LocalTouches(s: State, t: Tid, e: LocalEvent, d: nat)
    requires LocalCan(s, t, e) && d < |s.channels|
    ensures var s' := LocalDo(s, t, e);
            && |s'.channels| == |s.channels| && s'.format == s.format
            && s'.g == AfterLocal(s.g, HereOf(s, t), t, e)
            && s'.channels[d] == if ChannelOf(At(s, t)) == Some(d) then LocalApply(s.g, HereOf(s, t), t, e).ch
                                 else s.channels[d]
  {
  }

  lemma StepKeepsShape(s: State, e: Event)
    requires Enabled(s, e)
    ensures |Apply(s, e).channels| == |s.channels| && Apply(s, e).format == s.format
  {
  }

  // ---------- Placement ----------

  /** Where a step on a channel can take a thread. */
  predicate Onward(pc: Pc, pc': Pc) {
    match pc
    case Switching(c, active, task, _) =>
      pc' == Switched(c, task, true) || pc' == Switched(c, task, false)
      || (pc'.Switching? && pc' == Switching(c, active, task, pc'.at))
    case Configuring(plan, _) =>
      pc'.Leaving? || pc' == Publishing(plan) || (pc'.Configuring? && pc' == Configuring(plan, pc'.conf))
    case Pumping(c, _) =>
      pc'.Idle? || pc' == Switching(c, false, PumpFault, Wanting) || (pc'.Pumping? && pc'.c == c)
    case Owning(StopAt(c)) => pc' == Switching(c, false, Shutdown, Muting) || pc' == Switched(c, Shutdown, false)
    case _ => false
  }

  lemma LocalMovesOn(g: Global, v: Here, t: Tid, e: LocalEvent)
    requires LocalEnabled(g, v, t, e)
    ensures Onward(v.pc, LocalApply(g, v, t, e).pc)
  {
    match e
    case Activation(ev) => ActivationMovesOn(g, v, t, ev);
    case Deactivation(ev) => DeactivationMovesOn(v, t, ev);
    case Replacement(ev) => ReplacementMovesOn(g, v, t, ev);
    case Delivery(ev) => DeliveryMovesOn(g, v, t, ev);
  }

  lemma ActivationMovesOn(g: Global, v: Here, t: Tid, e: ActivateEvent)
    requires ActivateEnabled(v, t, e)
    ensures Onward(v.pc, ActivateApply(g, v, t, e).pc)
  {
  }

  lemma DeactivationMovesOn(v: Here, t: Tid, e: DeactivateEvent)
    requires DeactivateEnabled(v, t, e)
    ensures Onward(v.pc, DeactivateApply(v, t, e).pc)
  {
  }

  lemma ReplacementMovesOn(g: Global, v: Here, t: Tid, e: ConfEvent)
    requires ConfEnabled(v, t, e)
    ensures Onward(v.pc, ConfApply(g, v, t, e).pc)
  {
  }

  lemma DeliveryMovesOn(g: Global, v: Here, t: Tid, e: PumpEvent)
    requires PumpEnabled(g, v, t, e)
    ensures Onward(v.pc, PumpApply(g, v, t, e).pc)
  {
  }

  lemma LocalKeepsPlaced(n: nat, g: Global, v: Here, t: Tid, e: LocalEvent)
    requires LocalEnabled(g, v, t, e) && Placed(n, t, v.pc)
    ensures Placed(n, t, LocalApply(g, v, t, e).pc)
  {
    LocalMovesOn(g, v, t, e);
    OnwardKeepsPlaced(n, t, v.pc, LocalApply(g, v, t, e).pc);
  }

  lemma OnwardKeepsPlaced(n: nat, t: Tid, pc: Pc, pc': Pc)
    requires Onward(pc, pc') && Placed(n, t, pc)
    ensures Placed(n, t, pc')
  {
  }

  lemma CallKeepsPlaced(n: nat, w: There, t: Tid, e: CallEvent)
    requires CallEnabled(n, w, t, e) && Placed(n, t, w.pc) && n >= 1
    ensures Placed(n, t, CallApply(n, w, t, e).pc)
  {
  }

  lemma OwnerKeepsPlaced(s: State, t: Tid, e: OwnerEvent)
    requires OwnerEnabled(s, t, e) && Placed(|s.channels|, t, At(s, t)) && |s.channels| >= 1
    ensures Placed(|s.channels|, t, OwnerApply(|s.channels|, NothingToStop(s), ThereOf(s, t), t, e).pc)
  {
  }

  // ---------- Ownership of the global locks ----------

  lemma LocalKeepsOwned(g: Global, v: Here, t: Tid, e: LocalEvent)
    requires LocalEnabled(g, v, t, e) && Owned(g, t, v.pc)
    ensures Owned(AfterLocal(g, v, t, e), t, LocalApply(g, v, t, e).pc)
  {
    LocalMovesOn(g, v, t, e);
    LocalSetsSettings(g, v, t, e);
    OnwardKeepsOwned(g, AfterLocal(g, v, t, e), t, v.pc, LocalApply(g, v, t, e).pc);
  }

  lemma LocalSetsSettings(g: Global, v: Here, t: Tid, e: LocalEvent)
    requires LocalEnabled(g, v, t, e)
    ensures AfterLocal(g, v, t, e) == g.(settings := AfterLocal(g, v, t, e).settings)
  {
  }

  lemma OnwardKeepsOwned(g: Global, g': Global, t: Tid, pc: Pc, pc': Pc)
    requires Onward(pc, pc') && Owned(g, t, pc) && g' == g.(settings := g'.settings)
    ensures Owned(g', t, pc')
  {
  }

  lemma CallKeepsOwned(n: nat, w: There, t: Tid, e: CallEvent)
    requires CallEnabled(n, w, t, e) && Owned(w.g, t, w.pc)
    ensures var w' := CallApply(n, w, t, e); Owned(w'.g, t, w'.pc)
  {
  }

  lemma CallKeepsOthersOwned(n: nat, w: There, t: Tid, e: CallEvent, u: Tid, pc: Pc)
    requires CallEnabled(n, w, t, e) && Owned(w.g, t, w.pc) && Owned(w.g, u, pc) && u != t
    ensures Owned(CallApply(n, w, t, e).g, u, pc)
  {
  }

  lemma OwnerKeepsOwned(s: State, t: Tid, e: OwnerEvent)
    requires OwnerEnabled(s, t, e) && Owned(s.g, t, At(s, t))
    ensures var w' := OwnerApply(|s.channels|, NothingToStop(s), ThereOf(s, t), t, e); Owned(w'.g, t, w'.pc)
  {
  }

  lemma OwnerKeepsOthersOwned(s: State, t: Tid, e: OwnerEvent, u: Tid, pc: Pc)
    requires OwnerEnabled(s, t, e) && Owned(s.g, t, At(s, t)) && Owned(s.g, u, pc) && u != t
    ensures Owned(OwnerApply(|s.channels|, NothingToStop(s), ThereOf(s, t), t, e).g, u, pc)
  {
  }

  // ---------- Agreement away from the step ----------

  lemma LocalAgreesElsewhere(g: Global, v: Here, t: Tid, e: LocalEvent, d: nat, ch: Channel)
    requires LocalEnabled(g, v, t, e) && ChannelOf(v.pc).Some? && ChannelOf(v.pc).value != d && Agrees(t, v.pc, d, ch)
    ensures Agrees(t, LocalApply(g, v, t, e).pc, d, ch)
  {
    LocalMovesOn(g, v, t, e);
    OnwardAgreesElsewhere(t, v.pc, LocalApply(g, v, t, e).pc, d, ch);
  }

  lemma OnwardAgreesElsewhere(t: Tid, pc: Pc, pc': Pc, d: nat, ch: Channel)
    requires Onward(pc, pc') && ChannelOf(pc).Some? && ChannelOf(pc).value != d && Agrees(t, pc, d, ch)
    ensures Agrees(t, pc', d, ch)
  {
  }

  lemma CallAgrees(n: nat, w: There, t: Tid, e: CallEvent, d: nat, ch: Channel)
    requires CallEnabled(n, w, t, e) && Agrees(t, w.pc, d, ch)
    ensures Agrees(t, CallApply(n, w, t, e).pc, d, ch)
  {
  }

  lemma OwnerAgrees(s: State, t: Tid, e: OwnerEvent, d: nat, ch: Channel)
    requires OwnerEnabled(s, t, e) && Agrees(t, At(s, t), d, ch)
    ensures Agrees(t, OwnerApply(|s.channels|, NothingToStop(s), ThereOf(s, t), t, e).pc, d, ch)
  {
  }

  // ---------- Consistency is kept ----------

  /** A pump is started only where none is running. */
  ghost predicate SpawnsOnIdle(s: State, e: Event)
    requires Enabled(s, e)
  {
    e.OwnerStep? ==> StartsOnIdle(s, e.t, e.owner)
  }

  ghost predicate StartsOnIdle(s: State, t: Tid, e: OwnerEvent)
    requires OwnerEnabled(s, t, e)
  {
    forall u :: Starts(s, t, e, u) ==> At(s, u).Idle?
  }

  /** The invariant of one thread and one channel. */
  ghost predicate Fine(s: State, u: Tid, d: nat) {
    && d < |s.channels|
    && Placed(|s.channels|, u, At(s, u)) && Owned(s.g, u, At(s, u))
    && Agrees(u, At(s, u), d, s.channels[d])
  }

  lemma ConsistentIsFine(s: State, u: Tid, d: nat)
    requires Consistent(s) && d < |s.channels|
    ensures Fine(s, u, d) && I.Sound(s.channels[d].encoder)
  {
    assert AllAgree(s, d);
  }

  /** A step of the encoder keeps what a thread at work on the channel counts on. */
  lemma EncoderKeepsAgree(s: State, c: nat, e: E.Event, u: Tid)
    requires Consistent(s) && EncoderCan(s, c, e)
    ensures Agrees(u, At(s, u), c, Calling(s.channels[c], E.Apply(s.channels[c].encoder, e)))
  {
    ConsistentIsFine(s, u, c);
    I.InternalStep(s.channels[c].encoder, e);
    if HoldsTransition(At(s, u), c) && InsideAt(At(s, u), c) != Some(E.StartCall) {
      assert AllAgree(s, c);
      StartsAreSerial(s, c, u);
    }
    InternalAgrees(s.channels[c], E.Apply(s.channels[c].encoder, e), u, At(s, u), c);
  }

  lemma InternalAgrees(ch: Channel, enc: E.State, u: Tid, pc: Pc, c: nat)
    requires Agrees(u, pc, c, ch) && I.Internal(ch.encoder, enc)
    requires HoldsTransition(pc, c) && InsideAt(pc, c) != Some(E.StartCall) ==> I.NobodyInside(ch.encoder, E.StartCall)
    ensures Agrees(u, pc, c, Calling(ch, enc))
  {
  }

  lemma EncoderKeepsFine(s: State, c: nat, e: E.Event, u: Tid, d: nat)
    requires Consistent(s) && EncoderCan(s, c, e) && d < |s.channels|
    ensures Fine(EncoderDo(s, c, e), u, d)
  {
    ConsistentIsFine(s, u, d);
    EncoderKeepsAgree(s, c, e, u);
  }

  lemma AcceptKeepsFine(s: State, submission: RawFrames.Submission, stamp: int, u: Tid, d: nat)
    requires Fine(s, u, d)
    ensures Fine(Accept(s, submission, stamp), u, d)
  {
  }

  lemma LocalKeepsFine(s: State, t: Tid, e: LocalEvent, u: Tid, d: nat)
    requires Consistent(s) && LocalCan(s, t, e) && d < |s.channels|
    ensures Fine(LocalDo(s, t, e), u, d)
  {
    ConsistentIsFine(s, u, d);
    LocalMovesOne(s, t, e, u);
    LocalTouches(s, t, e, d);
    LocalAgreesAt(s, t, e, u, d);
    if u == t {
      LocalKeepsPlaced(|s.channels|, s.g, HereOf(s, t), t, e);
      LocalKeepsOwned(s.g, HereOf(s, t), t, e);
    }
  }

  lemma LocalAgreesAt(s: State, t: Tid, e: LocalEvent, u: Tid, d: nat)
    requires Consistent(s) && LocalCan(s, t, e) && d < |s.channels|
    ensures var v' := LocalApply(s.g, HereOf(s, t), t, e);
            Agrees(u, if u == t then v'.pc else At(s, u), d,
                   if ChannelOf(At(s, t)) == Some(d) then v'.ch else s.channels[d])
  {
    ConsistentIsFine(s, u, d);
    if ChannelOf(At(s, t)) == Some(d) {
      assert AllAgree(s, d);
      LocalKeepsChannel(s, t, e, d);
      if u != t { OtherAgrees(s.channels[d], LocalApply(s.g, HereOf(s, t), t, e).ch, t, d, u, At(s, u)); }
    } else if u == t {
      LocalAgreesElsewhere(s.g, HereOf(s, t), t, e, d, s.channels[d]);
    }
  }

  lemma CallKeepsFine(s: State, t: Tid, e: CallEvent, u: Tid, d: nat)
    requires Consistent(s) && CallCan(s, t, e) && d < |s.channels|
    ensures Fine(CallDo(s, t, e), u, d)
  {
    ConsistentIsFine(s, u, d);
    ConsistentIsFine(s, t, d);
    CallMovesOne(s, t, e, u);
    if u == t {
      CallKeepsPlaced(|s.channels|, ThereOf(s, t), t, e);
      CallKeepsOwned(|s.channels|, ThereOf(s, t), t, e);
      CallAgrees(|s.channels|, ThereOf(s, t), t, e, d, s.channels[d]);
    } else {
      CallKeepsOthersOwned(|s.channels|, ThereOf(s, t), t, e, u, At(s, u));
    }
  }

  lemma OwnerKeepsFine(s: State, t: Tid, e: OwnerEvent, u: Tid, d: nat)
    requires Consistent(s) && OwnerEnabled(s, t, e) && StartsOnIdle(s, t, e) && d < |s.channels|
    ensures Fine(OwnerDo(s, t, e), u, d)
  {
    ConsistentIsFine(s, u, d);
    ConsistentIsFine(s, t, d);
    if u == t {
      OwnerKeepsPlaced(s, t, e);
      OwnerKeepsOwned(s, t, e);
      OwnerAgrees(s, t, e, d, s.channels[d]);
    } else {
      OwnerKeepsOthersOwned(s, t, e, u, At(s, u));
    }
    if Starts(s, t, e, u) { StartedIsFine(s, t, e, u, d); } else { OwnerMovesOne(s, t, e, u); }
  }

  lemma StartedIsFine(s: State, t: Tid, e: OwnerEvent, u: Tid, d: nat)
    requires Consistent(s) && OwnerEnabled(s, t, e) && StartsOnIdle(s, t, e) && Starts(s, t, e, u) && d < |s.channels|
    requires Owned(OwnerDo(s, t, e).g, u, At(s, u))
    ensures Fine(OwnerDo(s, t, e), u, d)
  {
    ConsistentIsFine(s, u, d);
    assert At(s, u).Idle?;
  }

  lemma StepKeepsFine(s: State, e: Event, u: Tid, d: nat)
    requires Consistent(s) && Enabled(s, e) && SpawnsOnIdle(s, e) && d < |s.channels|
    ensures Fine(Apply(s, e), u, d)
  {
    match e
    case EncoderStep(c, ev) => EncoderKeepsFine(s, c, ev, u, d);
    case Submit(submission, stamp) =>
      ConsistentIsFine(s, u, d);
      AcceptKeepsFine(s, submission, stamp, u, d);
    case ChannelStep(t, ev) => LocalKeepsFine(s, t, ev, u, d);
    case CallStep(t, ev) => CallKeepsFine(s, t, ev, u, d);
    case OwnerStep(t, ev) => OwnerKeepsFine(s, t, ev, u, d);
  }

  lemma LocalKeepsSound(s: State, t: Tid, e: LocalEvent, d: nat)
    requires Consistent(s) && LocalCan(s, t, e) && d < |s.channels|
    ensures var s' := LocalDo(s, t, e); d < |s'.channels| && I.Sound(s'.channels[d].encoder)
  {
    ConsistentIsFine(s, t, d);
    LocalTouches(s, t, e, d);
    if ChannelOf(At(s, t)) == Some(d) {
      assert AllAgree(s, d);
      LocalKeepsChannel(s, t, e, d);
    }
  }

  lemma EncoderKeepsSound(s: State, c: nat, e: E.Event, d: nat)
    requires Consistent(s) && EncoderCan(s, c, e) && d < |s.channels|
    ensures I.Sound(EncoderDo(s, c, e).channels[d].encoder)
  {
    ConsistentIsFine(s, Client(0), d);
    if c == d { I.InternalStep(s.channels[c].encoder, e); }
  }

  lemma StepKeepsSound(s: State, e: Event, d: nat)
    requires Consistent(s) && Enabled(s, e) && d < |s.channels|
    ensures var s' := Apply(s, e); d < |s'.channels| && I.Sound(s'.channels[d].encoder)
  {
    ConsistentIsFine(s, Client(0), d);
    match e
    case EncoderStep(c, ev) => EncoderKeepsSound(s, c, ev, d);
    case Submit(_, _) =>
    case ChannelStep(t, ev) => LocalKeepsSound(s, t, ev, d);
    case CallStep(_, _) =>
    case OwnerStep(_, _) =>
  }

  lemma StepKeepsConsistent(s: State, e: Event)
    requires Consistent(s) && Enabled(s, e) && SpawnsOnIdle(s, e)
    ensures Consistent(Apply(s, e))
  {
    var s' := Apply(s, e);
    StepKeepsShape(s, e);
    forall u ensures Placed(|s'.channels|, u, At(s', u)) && Owned(s'.g, u, At(s', u)) { StepKeepsFine(s, e, u, 0); }
    forall c: nat | 0 <= c < |s'.channels| ensures AllAgree(s', c) && I.Sound(s'.channels[c].encoder) {
      StepKeepsSound(s, e, c);
      forall u ensures Agrees(u, At(s', u), c, s'.channels[c]) { StepKeepsFine(s, e, u, c); }
    }
  }
}
