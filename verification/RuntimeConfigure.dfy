/** When a patch that is alone at work succeeds.

  `SucceedsIffConfigurable` looks at the moment at which an admitted patch is about to be
  dispatched, and at the runs in which nobody but its thread takes a step. */
module RuntimeConfigure {
  import opened Threads
  import E = EncoderProtocol
  import C = Configuration
  import opened RuntimeProtocol
  import opened RuntimeInvariant
  import opened RuntimeShutdown
  import R = RuntimeRelease

  // ---------- Configuring alone ----------

  /** A patch is accepted for the current revision, and the RTP channel is at rest: nobody holds
      its locks, it is inactive and not stopping, and its encoder is stopped. */
  predicate Configurable(s: State, expected: int, patch: C.Patch) {
    && Patchable(s, expected, patch)
    && |s.channels| > 0 && AtRest(s.g, s.channels[0])
    && s.channels[0].transition.None? && s.channels[0].lock.None?
  }

  predicate Patchable(s: State, expected: int, patch: C.Patch) {
    patch != [] && expected == s.g.revision && C.Check(s.g.settings, patch).Candidate?
  }

  predicate AtRest(g: Global, ch: Channel) {
    !g.closing && !ch.active && !ch.stopping && E.Stopped(ch.encoder)
  }

  /** A step by which thread `t` carries out a patch. */
  predicate Own(e: Event, t: Tid) {
    match e
    case EncoderStep(c, ev) =>
      c == 0 && !ev.ChildExits? && !ev.ReaderExits? && !ev.EmitCheck? && !ev.EmitPop? && ev.t == t
    case Submit(_, _) => false
    case ChannelStep(u, _) => u == t
    case CallStep(u, ev) => u == t && (ev == Dispatch(false) || ev.Publish?)
    case OwnerStep(_, _) => false
  }

  /** A run of such steps from `s` to `x`. */
  ghost predicate Leads(s: State, t: Tid, run: seq<Event>, x: State) {
    Legal(s, run) && Run(s, run) == x && forall e :: e in run ==> Own(e, t)
  }

  lemma Locally(s: State, t: Tid, run: seq<Event>, x: State, e: ConfEvent) returns (run': seq<Event>, y: State)
    requires Leads(s, t, run, x) && LocalCan(x, t, Replacement(e))
    ensures Leads(s, t, run', y) && y == LocalDo(x, t, Replacement(e))
  {
    run', y := run + [ChannelStep(t, Replacement(e))], LocalDo(x, t, Replacement(e));
    R.OneMore(s, run, ChannelStep(t, Replacement(e)));
  }

  lemma Calls(s: State, t: Tid, run: seq<Event>, x: State, e: CallEvent) returns (run': seq<Event>, y: State)
    requires Leads(s, t, run, x) && CallCan(x, t, e) && (e == Dispatch(false) || e.Publish?)
    ensures Leads(s, t, run', y) && y == CallDo(x, t, e)
  {
    run', y := run + [CallStep(t, e)], CallDo(x, t, e);
    R.OneMore(s, run, CallStep(t, e));
  }

  lemma Inside(s: State, t: Tid, run: seq<Event>, x: State, e: E.Event) returns (run': seq<Event>, y: State)
    requires Leads(s, t, run, x) && EncoderCan(x, 0, e) && Own(EncoderStep(0, e), t)
    ensures Leads(s, t, run', y) && y == EncoderDo(x, 0, e)
  {
    run', y := run + [EncoderStep(0, e)], EncoderDo(x, 0, e);
    R.OneMore(s, run, EncoderStep(0, e));
  }

  // ---------- It succeeds when it can ----------

  /** With nobody at its locks, nobody is inside the encoder. */
  lemma NobodyInside(s: State, c: nat, t: Tid)
    requires Inv(s) && c < |s.channels| && s.channels[c].transition.None? && s.channels[c].lock.None?
    ensures E.At(s.channels[c].encoder, t).Idle? && s.channels[c].encoder.lifecycle != Some(t)
  {
    ConsistentIsFine(s, t, c);
    assert E.HoldsLifecycle(E.At(s.channels[c].encoder, t)) <==> s.channels[c].encoder.lifecycle == Some(t);
  }

  lemma FreeLifecycle(s: State, c: nat)
    requires Inv(s) && c < |s.channels| && s.channels[c].transition.None? && s.channels[c].lock.None?
    ensures s.channels[c].encoder.lifecycle.None?
  {
    var enc := s.channels[c].encoder;
    if enc.lifecycle.Some? { NobodyInside(s, c, enc.lifecycle.value); }
  }

  /** Where the thread is, and what it sees: `g` everywhere, and the channel with `at` as its
      point in the encoder. */
  predicate Sees(x: State, t: Tid, g: Global, pc: Pc, locked: Option<Tid>, transition: Option<Tid>,
                 at: E.Pc, lifecycle: Option<Tid>) {
    && |x.channels| > 0 && x.g == g && At(x, t) == pc
    && var ch := x.channels[0];
       && ch.transition == transition && ch.lock == locked && !ch.active && !ch.stopping
       && E.At(ch.encoder, t) == at && ch.encoder.lifecycle == lifecycle
       && ch.encoder.proc.None? && ch.encoder.readers == {}
  }

  predicate Calm(x: State) {
    |x.channels| > 0 && !x.channels[0].encoder.stopping
  }

  lemma Dispatches(s: State, t: Tid, expected: int, patch: C.Patch) returns (run: seq<Event>, y: State)
    requires Inv(s) && At(s, t) == Dispatching(Configure(expected, patch)) && Configurable(s, expected, patch)
    ensures Leads(s, t, run, y) && Calm(y)
    ensures var plan := Plan(expected, patch, C.Check(s.g.settings, patch).settings);
            Sees(y, t, s.g, Configuring(plan, ConfWanting), None, None, E.Idle, None)
  {
    NobodyInside(s, 0, t);
    FreeLifecycle(s, 0);
    run, y := Calls(s, t, [], s, Dispatch(false));
  }

  lemma Takes(s: State, t: Tid, run: seq<Event>, x: State, plan: Plan) returns (run': seq<Event>, y: State)
    requires Leads(s, t, run, x) && Calm(x) && !s.g.closing
    requires Sees(x, t, s.g, Configuring(plan, ConfWanting), None, None, E.Idle, None)
    ensures Leads(s, t, run', y) && Calm(y)
    ensures Sees(y, t, s.g, Configuring(plan, ConfClaiming), None, Some(t), E.Idle, None)
  {
    run', y := Locally(s, t, run, x, ConfTake);
    run', y := Locally(s, t, run', y, ConfCheck);
  }

  lemma Claims(s: State, t: Tid, run: seq<Event>, x: State, plan: Plan) returns (run': seq<Event>, y: State)
    requires Leads(s, t, run, x)
    requires Sees(x, t, s.g, Configuring(plan, ConfClaiming), None, Some(t), E.Idle, None)
    ensures Leads(s, t, run', y)
    ensures Sees(y, t, s.g, Configuring(plan, ConfBuilding), Some(t), Some(t), E.Idle, None)
  {
    run', y := Locally(s, t, run, x, ConfClaim);
  }

  lemma Builds(s: State, t: Tid, run: seq<Event>, x: State, plan: Plan)
    returns (run': seq<Event>, y: State, generation: nat)
    requires Leads(s, t, run, x)
    requires Sees(x, t, s.g, Configuring(plan, ConfBuilding), Some(t), Some(t), E.Idle, None)
    ensures Leads(s, t, run', y)
    ensures Sees(y, t, s.g, Configuring(plan, ConfStopping), Some(t), Some(t), E.StopWaiting(generation), None)
  {
    generation := x.channels[0].encoder.generation + 1;
    run', y := Locally(s, t, run, x, ConfBuild(true));
  }

  lemma Enters(s: State, t: Tid, run: seq<Event>, x: State, pc: Pc, generation: nat)
    returns (run': seq<Event>, y: State)
    requires Leads(s, t, run, x) && Sees(x, t, s.g, pc, Some(t), Some(t), E.StopWaiting(generation), None)
    ensures Leads(s, t, run', y)
    ensures Sees(y, t, s.g, pc, Some(t), Some(t), E.StopEntered(generation), Some(t))
  {
    run', y := Inside(s, t, run, x, E.StopTake(t, true));
  }

  lemma Finds(s: State, t: Tid, run: seq<Event>, x: State, pc: Pc, generation: nat)
    returns (run': seq<Event>, y: State)
    requires Leads(s, t, run, x) && Sees(x, t, s.g, pc, Some(t), Some(t), E.StopEntered(generation), Some(t))
    ensures Leads(s, t, run', y)
    ensures Sees(y, t, s.g, pc, Some(t), Some(t), E.Settling(E.ForStop(generation)), Some(t))
  {
    run', y := Inside(s, t, run, x, E.StopRead(t));
  }

  lemma Settles(s: State, t: Tid, run: seq<Event>, x: State, pc: Pc, generation: nat)
    returns (run': seq<Event>, y: State)
    requires Leads(s, t, run, x)
    requires Sees(x, t, s.g, pc, Some(t), Some(t), E.Settling(E.ForStop(generation)), Some(t))
    ensures Leads(s, t, run', y)
    ensures Sees(y, t, s.g, pc, Some(t), Some(t), E.Returned(E.StopCall, true), None)
  {
    run', y := Inside(s, t, run, x, E.SettleStop(t));
  }

  lemma Returns(s: State, t: Tid, run: seq<Event>, x: State, plan: Plan) returns (run': seq<Event>, y: State)
    requires Leads(s, t, run, x)
    requires Sees(x, t, s.g, Configuring(plan, ConfStopping), Some(t), Some(t), E.Returned(E.StopCall, true), None)
    ensures Leads(s, t, run', y)
    ensures Sees(y, t, s.g, Configuring(plan, ConfSwapping), Some(t), Some(t), E.Idle, None)
  {
    run', y := Locally(s, t, run, x, ConfStopReturns);
  }

  lemma Swaps(s: State, t: Tid, run: seq<Event>, x: State, plan: Plan) returns (run': seq<Event>, y: State)
    requires Leads(s, t, run, x)
    requires Sees(x, t, s.g, Configuring(plan, ConfSwapping), Some(t), Some(t), E.Idle, None)
    ensures Leads(s, t, run', y) && Calm(y) && y.channels[0].built == plan.candidate
    ensures Sees(y, t, s.g.(settings := plan.candidate), Publishing(plan), None, None, E.Idle, None)
  {
    run', y := Locally(s, t, run, x, ConfSwap);
  }

  /** What a patch that has succeeded leaves. */
  predicate Achieved(s: State, x: State, t: Tid, expected: int, patch: C.Patch) {
    && C.Check(s.g.settings, patch).Candidate?
    && var candidate := C.Check(s.g.settings, patch).settings;
       && x.g == s.g.(settings := candidate, revision := s.g.revision + 1,
                      described := Destination(candidate.rtpHost, candidate.rtpPort),
                      log := s.g.log + [Plan(expected, patch, candidate)])
       && |x.channels| > 0 && x.channels[0].built == candidate && E.Stopped(x.channels[0].encoder)
       && x.channels[0].transition.None? && x.channels[0].lock.None? && At(x, t) == Leaving
  }

  lemma Publishes(s: State, t: Tid, run: seq<Event>, x: State, expected: int, patch: C.Patch)
    returns (run': seq<Event>, y: State)
    requires Leads(s, t, run, x) && Calm(x) && C.Check(s.g.settings, patch).Candidate?
    requires var plan := Plan(expected, patch, C.Check(s.g.settings, patch).settings);
             && Sees(x, t, s.g.(settings := plan.candidate), Publishing(plan), None, None, E.Idle, None)
             && x.channels[0].built == plan.candidate
    ensures Leads(s, t, run', y) && Achieved(s, y, t, expected, patch)
  {
    run', y := Calls(s, t, run, x, Publish);
  }

  lemma Stops(s: State, t: Tid, expected: int, patch: C.Patch) returns (run: seq<Event>, y: State)
    requires Inv(s) && At(s, t) == Dispatching(Configure(expected, patch)) && Configurable(s, expected, patch)
    ensures Leads(s, t, run, y)
    ensures var plan := Plan(expected, patch, C.Check(s.g.settings, patch).settings);
            Sees(y, t, s.g, Configuring(plan, ConfSwapping), Some(t), Some(t), E.Idle, None)
  {
    var plan := Plan(expected, patch, C.Check(s.g.settings, patch).settings);
    var generation;
    run, y := Dispatches(s, t, expected, patch);
    run, y := Takes(s, t, run, y, plan);
    run, y := Claims(s, t, run, y, plan);
    run, y, generation := Builds(s, t, run, y, plan);
    run, y := Enters(s, t, run, y, Configuring(plan, ConfStopping), generation);
    run, y := Finds(s, t, run, y, Configuring(plan, ConfStopping), generation);
    run, y := Settles(s, t, run, y, Configuring(plan, ConfStopping), generation);
    run, y := Returns(s, t, run, y, plan);
  }

  /** A patch that is accepted, on a channel at rest, can be carried through by its thread alone:
      the settings are replaced, the revision is consumed, and the description renewed. */
  lemma ConfigurableSucceeds(s: State, t: Tid, expected: int, patch: C.Patch) returns (run: seq<Event>, y: State)
    requires Inv(s) && At(s, t) == Dispatching(Configure(expected, patch)) && Configurable(s, expected, patch)
    ensures Leads(s, t, run, y) && Achieved(s, y, t, expected, patch)
  {
    var plan := Plan(expected, patch, C.Check(s.g.settings, patch).settings);
    run, y := Stops(s, t, expected, patch);
    run, y := Swaps(s, t, run, y, plan);
    run, y := Publishes(s, t, run, y, expected, patch);
  }

  // ---------- And not otherwise ----------

  /** What its thread alone has come to with a patch that is not configurable. */
  predicate Stuck(s: State, x: State, t: Tid, expected: int, patch: C.Patch) {
    && x.g == s.g && |x.channels| > 0 && |s.channels| > 0
    && StuckHere(s, Here(x.channels[0], At(x, t)), t, expected, patch)
  }

  predicate StuckHere(s: State, v: Here, t: Tid, expected: int, patch: C.Patch)
    requires |s.channels| > 0
  {
    var ch := s.channels[0];
    match v.pc
    case Dispatching(job) => job == Configure(expected, patch) && v.ch == ch
    case Configuring(_, ConfWanting) => Patchable(s, expected, patch) && v.ch == ch
    case Configuring(_, ConfChecking) =>
      Patchable(s, expected, patch) && ch.transition.None? && v.ch == ch.(transition := Some(t))
    case Configuring(_, ConfClaiming) =>
      Patchable(s, expected, patch) && AtRest(s.g, ch) && ch.transition.None? && v.ch == ch.(transition := Some(t))
    case Leaving => true
    case _ => false
  }

  lemma ReplacementStaysStuck(s: State, x: State, t: Tid, e: LocalEvent, expected: int, patch: C.Patch)
    requires Inv(x) && !Configurable(s, expected, patch) && Stuck(s, x, t, expected, patch) && LocalCan(x, t, e)
    ensures Stuck(s, LocalDo(x, t, e), t, expected, patch)
  {
    LocalMovesOne(x, t, e, t);
    LocalTouches(x, t, e, 0);
    StuckStep(s, x.g, HereOf(x, t), t, e, expected, patch);
  }

  lemma StuckStep(s: State, g: Global, v: Here, t: Tid, e: LocalEvent, expected: int, patch: C.Patch)
    requires LocalEnabled(g, v, t, e) && g == s.g && v.pc.Configuring? && |s.channels| > 0
    requires !Configurable(s, expected, patch) && StuckHere(s, v, t, expected, patch)
    ensures StuckHere(s, LocalApply(g, v, t, e), t, expected, patch) && !IsSwap(e)
  {
  }

  lemma CallStaysStuck(s: State, x: State, t: Tid, e: CallEvent, expected: int, patch: C.Patch)
    requires !Configurable(s, expected, patch) && Stuck(s, x, t, expected, patch) && CallCan(x, t, e)
    requires e == Dispatch(false) || e.Publish?
    ensures Stuck(s, CallDo(x, t, e), t, expected, patch)
  {
    CallMovesOne(x, t, e, t);
  }

  /** The thread is not inside the encoder, so it takes no step there. */
  lemma StuckIsOutside(s: State, x: State, t: Tid, e: E.Event, expected: int, patch: C.Patch)
    requires Inv(x) && Stuck(s, x, t, expected, patch) && Own(EncoderStep(0, e), t)
    ensures !EncoderCan(x, 0, e)
  {
    ConsistentIsFine(x, t, 0);
  }

  lemma StepStaysStuck(s: State, x: State, t: Tid, e: Event, expected: int, patch: C.Patch)
    requires Inv(x) && !Configurable(s, expected, patch) && Stuck(s, x, t, expected, patch)
    requires Enabled(x, e) && Own(e, t)
    ensures Stuck(s, Apply(x, e), t, expected, patch)
  {
    match e
    case EncoderStep(_, ev) => StuckIsOutside(s, x, t, ev, expected, patch);
    case ChannelStep(_, ev) => ReplacementStaysStuck(s, x, t, ev, expected, patch);
    case CallStep(_, ev) => CallStaysStuck(s, x, t, ev, expected, patch);
  }

  lemma {:induction false} RunStaysStuck(s: State, x: State, t: Tid, run: seq<Event>, expected: int, patch: C.Patch)
    requires Inv(x) && !Configurable(s, expected, patch) && Stuck(s, x, t, expected, patch)
    requires Legal(x, run) && forall e :: e in run ==> Own(e, t)
    ensures Stuck(s, Run(x, run), t, expected, patch)
    decreases |run|
  {
    if run != [] {
      assert Own(run[0], t);
      StepStaysStuck(s, x, t, run[0], expected, patch);
      StepKeepsInv(x, run[0]);
      RunStaysStuck(s, Apply(x, run[0]), t, run[1..], expected, patch);
    }
  }

  /** Thread `t` alone can bring about a success of the patch. */
  ghost predicate CanSucceed(s: State, t: Tid, expected: int, patch: C.Patch) {
    exists run :: Legal(s, run) && (forall e :: e in run ==> Own(e, t))
                  && Achieved(s, Run(s, run), t, expected, patch)
  }

  /** From every state in which a patch is about to be dispatched, its thread alone can carry it
      through exactly when it is accepted for the current revision and the channel is at rest;
      else nothing about the configuration changes, however far the thread goes. */
  lemma SucceedsIffConfigurable(s: State, t: Tid, expected: int, patch: C.Patch)
    requires Inv(s) && At(s, t) == Dispatching(Configure(expected, patch))
    ensures CanSucceed(s, t, expected, patch) <==> Configurable(s, expected, patch)
    ensures !Configurable(s, expected, patch) ==>
              forall run :: Legal(s, run) && (forall e :: e in run ==> Own(e, t)) ==> Run(s, run).g == s.g
  {
    if Configurable(s, expected, patch) {
      var run, y := ConfigurableSucceeds(s, t, expected, patch);
    } else {
      forall run | Legal(s, run) && (forall e :: e in run ==> Own(e, t)) ensures Run(s, run).g == s.g {
        RunStaysStuck(s, s, t, run, expected, patch);
      }
    }
  }
}
