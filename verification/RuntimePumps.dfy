/** When a channel has its pump: unless, since its last start, the pump came back from a failed
    write and could not set the channel inactive. */
module RuntimePumps {
  import opened Threads
  import C = Configuration
  import RawFrames
  import opened RuntimeProtocol
  import opened RuntimeInvariant
  import opened RuntimeShutdown
  import R = RuntimeRelease

  /** The runtime is still being started by a thread that has not started this pump yet. */
  predicate Unstaffed(pc: Pc, c: nat) {
    pc == Owning(Creating) || (pc.Owning? && pc.owner.PumpStarting? && pc.owner.c <= c)
  }

  /** Started, past starting this pump, and not closing. */
  ghost predicate Staffing(s: State, c: nat) {
    s.g.started && !s.g.closing && forall t :: !Unstaffed(At(s, t), c)
  }

  // ---------- How a pump thread ends ----------

  /** The pump comes back from a write that failed, and its channel could not be set inactive. */
  predicate GivesUp(s: State, e: Event, c: nat) {
    e == CallStep(Pump(c), Resume) && At(s, Pump(c)) == Switched(c, PumpFault, false)
  }

  lemma LocalExits(g: Global, v: Here, t: Tid, e: LocalEvent)
    requires LocalEnabled(g, v, t, e) && ChannelOf(v.pc).Some?
    ensures LocalApply(g, v, t, e).pc.Idle? <==> e == Delivery(PumpExit)
    ensures e == Delivery(PumpExit) ==> g.pumpStop
  {
  }

  lemma CallExits(n: nat, w: There, c: nat, e: CallEvent)
    requires CallEnabled(n, w, Pump(c), e) && Placed(n, Pump(c), w.pc)
    ensures !w.pc.Idle?
    ensures CallApply(n, w, Pump(c), e).pc.Idle? <==> e == Resume && w.pc == Switched(c, PumpFault, false)
  {
  }

  /** A pump thread is there after a step exactly when the step starts it, or it was there and
      neither gives up nor leaves for a shutdown. */
  lemma PumpComesAndGoes(s: State, e: Event, c: nat)
    requires Consistent(s) && Enabled(s, e)
    ensures !At(Apply(s, e), Pump(c)).Idle?
       <==> Spawns(s, e, Pump(c))
            || (!At(s, Pump(c)).Idle? && !GivesUp(s, e, c) && e != ChannelStep(Pump(c), Delivery(PumpExit)))
    ensures e == ChannelStep(Pump(c), Delivery(PumpExit)) ==> s.g.pumpStop
  {
    assert Placed(|s.channels|, Pump(c), At(s, Pump(c)));
    match e
    case ChannelStep(t, ev) =>
      LocalMovesOne(s, t, ev, Pump(c));
      if t == Pump(c) { LocalExits(s.g, HereOf(s, t), t, ev); }
    case CallStep(t, ev) =>
      CallMovesOne(s, t, ev, Pump(c));
      if t == Pump(c) { CallExits(|s.channels|, ThereOf(s, t), c, ev); }
    case OwnerStep(t, ev) =>
      if !Starts(s, t, ev, Pump(c)) { OwnerMovesOne(s, t, ev, Pump(c)); }
    case _ => OthersUnmoved(s, e, Pump(c));
  }

  // ---------- What is known since the pump was last started ----------

  lemma LocalKeepsStaffing(s: State, t: Tid, e: LocalEvent, c: nat)
    requires LocalCan(s, t, e) && Staffing(LocalDo(s, t, e), c)
    ensures Staffing(s, c)
  {
    var s' := LocalDo(s, t, e);
    forall u ensures !Unstaffed(At(s, u), c) {
      LocalMovesOne(s, t, e, u);
      assert !Unstaffed(At(s', u), c);
    }
  }

  predicate SameFlags(g: Global, g': Global) {
    g'.started == g.started && g'.closing == g.closing && g'.pumpStop == g.pumpStop
  }

  lemma CallKeepsFlags(n: nat, w: There, t: Tid, e: CallEvent)
    requires CallEnabled(n, w, t, e)
    ensures SameFlags(w.g, CallApply(n, w, t, e).g)
  {
    if e.Resume? { ResumeKeepsFlags(n, w); }
  }

  lemma ResumeKeepsFlags(n: nat, w: There)
    requires w.pc.Switched?
    ensures SameFlags(w.g, Resumed(n, w).g)
  {
  }

  lemma CallIsStaffed(n: nat, w: There, t: Tid, e: CallEvent, c: nat)
    requires CallEnabled(n, w, t, e)
    ensures !Unstaffed(w.pc, c)
  {
  }

  lemma CallKeepsStaffing(s: State, t: Tid, e: CallEvent, c: nat)
    requires CallCan(s, t, e) && Staffing(CallDo(s, t, e), c)
    ensures Staffing(s, c)
  {
    var s' := CallDo(s, t, e);
    CallKeepsFlags(|s.channels|, ThereOf(s, t), t, e);
    CallIsStaffed(|s.channels|, ThereOf(s, t), t, e, c);
    forall u ensures !Unstaffed(At(s, u), c) {
      CallMovesOne(s, t, e, u);
      assert !Unstaffed(At(s', u), c);
    }
  }

  lemma OwnerKeepsStaffing(s: State, t: Tid, e: OwnerEvent, c: nat)
    requires Inv(s) && OwnerEnabled(s, t, e) && c < |s.channels| && Staffing(OwnerDo(s, t, e), c)
    requires !Starts(s, t, e, Pump(c))
    ensures Staffing(s, c)
  {
    var s' := OwnerDo(s, t, e);
    assert Phase(s, At(s, t)) && Placed(|s.channels|, t, At(s, t));
    assert !Unstaffed(At(s', t), c);
    OwnerMovesOne(s, t, e, t);
    forall u ensures !Unstaffed(At(s, u), c) { StaysStaffed(s, t, e, c, u); }
  }

  lemma StaysStaffed(s: State, t: Tid, e: OwnerEvent, c: nat, u: Tid)
    requires Inv(s) && OwnerEnabled(s, t, e) && c < |s.channels| && Staffing(OwnerDo(s, t, e), c)
    requires !Starts(s, t, e, Pump(c))
    ensures !Unstaffed(At(s, u), c)
  {
    var s' := OwnerDo(s, t, e);
    assert Phase(s, At(s, t)) && Placed(|s.channels|, u, At(s, u)) && Placed(|s.channels|, t, At(s, t));
    assert !Unstaffed(At(s', u), c) && !Unstaffed(At(s', t), c);
    if !Starts(s, t, e, u) { OwnerMovesOne(s, t, e, u); }
  }

  /** Only starting the pump can lead to a state past starting it. */
  lemma StepKeepsStaffing(s: State, e: Event, c: nat)
    requires Inv(s) && Enabled(s, e) && c < |s.channels| && Staffing(Apply(s, e), c) && !Spawns(s, e, Pump(c))
    ensures Staffing(s, c)
  {
    match e
    case ChannelStep(t, ev) => LocalKeepsStaffing(s, t, ev, c);
    case CallStep(t, ev) => CallKeepsStaffing(s, t, ev, c);
    case OwnerStep(t, ev) => OwnerKeepsStaffing(s, t, ev, c);
    case _ => QuietKeepsStaffing(s, e, c);
  }

  lemma QuietKeepsStaffing(s: State, e: Event, c: nat)
    requires Enabled(s, e) && (e.EncoderStep? || e.Submit?) && Staffing(Apply(s, e), c)
    ensures Staffing(s, c)
  {
    var s' := Apply(s, e);
    forall u ensures !Unstaffed(At(s, u), c) {
      OthersUnmoved(s, e, u);
      assert !Unstaffed(At(s', u), c);
    }
  }

  /** Pumps are told to stop only by a shutdown. */
  predicate StopsLate(g: Global) {
    g.pumpStop ==> g.closing
  }

  lemma StepStopsLate(s: State, e: Event)
    requires Inv(s) && Enabled(s, e) && StopsLate(s.g)
    ensures StopsLate(Apply(s, e).g)
  {
    match e
    case CallStep(t, ev) => CallKeepsFlags(|s.channels|, ThereOf(s, t), t, ev);
    case OwnerStep(t, ev) => OwnerStopsLate(s, t, ev);
    case _ =>
  }

  lemma OwnerStopsLate(s: State, t: Tid, e: OwnerEvent)
    requires Inv(s) && OwnerEnabled(s, t, e) && StopsLate(s.g)
    ensures StopsLate(OwnerDo(s, t, e).g)
  {
    assert Phase(s, At(s, t));
  }

  // ---------- Over a run ----------

  /** No step of the run starts the pump of channel `c`. */
  ghost predicate NeverStarted(s: State, events: seq<Event>, c: nat)
    requires Legal(s, events)
    decreases |events|
  {
    events == [] || (!Spawns(s, events[0], Pump(c)) && NeverStarted(Apply(s, events[0]), events[1..], c))
  }

  /** At some step of the run the pump of channel `c` gives up, and it is not started again. */
  ghost predicate GaveUp(s: State, events: seq<Event>, c: nat)
    requires Legal(s, events)
    decreases |events|
  {
    events != []
    && ((GivesUp(s, events[0], c) && NeverStarted(Apply(s, events[0]), events[1..], c))
        || GaveUp(Apply(s, events[0]), events[1..], c))
  }

  lemma {:induction false} StaffedAllAlong(s: State, events: seq<Event>, c: nat)
    requires Inv(s) && Legal(s, events) && c < |s.channels| && NeverStarted(s, events, c) && Staffing(Run(s, events), c)
    ensures Staffing(s, c)
    decreases |events|
  {
    if events != [] {
      StepKeepsInv(s, events[0]);
      StepKeepsShape(s, events[0]);
      StaffedAllAlong(Apply(s, events[0]), events[1..], c);
      StepKeepsStaffing(s, events[0], c);
    }
  }

  /** The pump is missing at the end exactly when it gave up on the way, or was missing from the
      start, and was not started since. */
  lemma {:induction false} RunLosesPump(s: State, events: seq<Event>, c: nat)
    requires Inv(s) && StopsLate(s.g) && Legal(s, events) && c < |s.channels| && Staffing(Run(s, events), c)
    ensures At(Run(s, events), Pump(c)).Idle?
       <==> GaveUp(s, events, c) || (At(s, Pump(c)).Idle? && NeverStarted(s, events, c))
    decreases |events|
  {
    if events != [] {
      var s', rest := Apply(s, events[0]), events[1..];
      StepKeepsInv(s, events[0]);
      StepKeepsShape(s, events[0]);
      StepStopsLate(s, events[0]);
      RunLosesPump(s', rest, c);
      PumpComesAndGoes(s, events[0], c);
      if NeverStarted(s', rest, c) {
        StaffedAllAlong(s', rest, c);
        if !Spawns(s, events[0], Pump(c)) { StepKeepsStaffing(s, events[0], c); }
      }
    }
  }

  /** In every reachable state of a runtime that is started, past starting the pump and not
      closing, the pump of a channel is missing exactly when, since it was last started, it came
      back from a failed write and could not set its channel inactive. */
  lemma PumpMissingIffGaveUp(settings: C.Settings, format: RawFrames.Format, preview: bool, dropToLatest: bool,
                             events: seq<Event>, c: nat)
    requires Legal(Initial(settings, format, preview, dropToLatest), events)
    requires c < |Initial(settings, format, preview, dropToLatest).channels|
    requires Staffing(Run(Initial(settings, format, preview, dropToLatest), events), c)
    ensures var s := Initial(settings, format, preview, dropToLatest);
            At(Run(s, events), Pump(c)).Idle? <==> GaveUp(s, events, c)
  {
    var s := Initial(settings, format, preview, dropToLatest);
    R.InitialInv(settings, format, preview, dropToLatest);
    RunLosesPump(s, events, c);
    if NeverStarted(s, events, c) { StaffedAllAlong(s, events, c); }
  }

  // ---------- Without its pump ----------

  lemma LocalHands(g: Global, v: Here, t: Tid, e: LocalEvent)
    requires LocalEnabled(g, v, t, e) && !v.pc.Pumping?
    ensures LocalApply(g, v, t, e).ch.handed == v.ch.handed
  {
    match e
    case Activation(ev) => ActivationHands(g, v, t, ev);
    case Deactivation(ev) => DeactivationHands(v, t, ev);
    case _ =>
  }

  lemma ActivationHands(g: Global, v: Here, t: Tid, e: ActivateEvent)
    requires ActivateEnabled(v, t, e)
    ensures ActivateApply(g, v, t, e).ch.handed == v.ch.handed
  {
  }

  lemma DeactivationHands(v: Here, t: Tid, e: DeactivateEvent)
    requires DeactivateEnabled(v, t, e)
    ensures DeactivateApply(v, t, e).ch.handed == v.ch.handed
  {
  }

  /** Nobody but its own pump hands frames of a channel to the encoder. */
  lemma StepHandsNothing(s: State, e: Event, c: nat)
    requires Consistent(s) && Enabled(s, e) && c < |s.channels| && At(s, Pump(c)).Idle?
    ensures c < |Apply(s, e).channels| && Apply(s, e).channels[c].handed == s.channels[c].handed
  {
    if e.ChannelStep? {
      assert Placed(|s.channels|, e.t, At(s, e.t));
      LocalTouches(s, e.t, e.local, c);
      if ChannelOf(At(s, e.t)) == Some(c) { LocalHands(s.g, HereOf(s, e.t), e.t, e.local); }
    } else {
      OtherHandsNothing(s, e, c);
    }
  }

  lemma OtherHandsNothing(s: State, e: Event, c: nat)
    requires Enabled(s, e) && !e.ChannelStep? && c < |s.channels|
    ensures c < |Apply(s, e).channels| && Apply(s, e).channels[c].handed == s.channels[c].handed
  {
  }

  /** Until its pump is started, no frame of the channel reaches its encoder, whatever is
      submitted and however often it is activated. */
  lemma {:induction false} NothingHandedWithoutPump(s: State, events: seq<Event>, c: nat)
    requires Inv(s) && Legal(s, events) && c < |s.channels| && At(s, Pump(c)).Idle? && NeverStarted(s, events, c)
    ensures At(Run(s, events), Pump(c)).Idle?
    ensures c < |Run(s, events).channels| && Run(s, events).channels[c].handed == s.channels[c].handed
    decreases |events|
  {
    if events != [] {
      StepKeepsInv(s, events[0]);
      StepHandsNothing(s, events[0], c);
      PumpComesAndGoes(s, events[0], c);
      NothingHandedWithoutPump(Apply(s, events[0]), events[1..], c);
    }
  }
}
