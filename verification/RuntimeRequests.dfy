/** A switch applies what was asked for. */
module RuntimeRequests {
  import opened Threads
  import E = EncoderProtocol
  import C = Configuration
  import RawFrames
  import opened RuntimeProtocol
  import opened RuntimeInvariant
  import opened RuntimeShutdown
  import A = RuntimeActivity
  import R = RuntimeRelease

  /** A channel, and whether it is wanted active. */
  datatype Request = Request(c: nat, active: bool, task: Task)

  /** What a step of thread `t` asks for: a consumer's demand, a source control operation that
      was not cancelled, a pump whose write has failed, or a shutdown that comes to a channel. */
  function Asked(s: State, e: Event, t: Tid): Option<Request> {
    match e
    case CallStep(u, Want(c, active)) => if u == t then Some(Request(c, active, Demand)) else None
    case CallStep(u, Dispatch(false)) =>
      if u == t && At(s, t).Dispatching? && At(s, t).job.SetRtp? then Some(Request(0, At(s, t).job.active, Domain))
      else None
    case ChannelStep(u, Delivery(PumpReturns)) =>
      if u == t && At(s, t).Pumping? && At(s, t).c < |s.channels|
         && E.At(s.channels[At(s, t).c].encoder, t) == E.Returned(E.WriteCall, false)
      then Some(Request(At(s, t).c, false, PumpFault)) else None
    case ChannelStep(u, Deactivation(StopTake(true))) =>
      if u == t && OwnerIsAt(At(s, t)) then Some(Request(At(s, t).owner.c, false, Shutdown)) else None
    case _ => None
  }

  predicate OwnerIsAt(pc: Pc) {
    pc.Owning? && pc.owner.StopAt?
  }

  /** The thread is at work on the request. */
  predicate Serves(pc: Pc, r: Request) {
    pc.Switching? && pc.c == r.c && pc.active == r.active && pc.task == r.task
  }

  // ---------- From the request to its end ----------

  lemma AskingServes(s: State, e: Event, t: Tid)
    requires Enabled(s, e) && Asked(s, e, t).Some?
    ensures Serves(At(Apply(s, e), t), Asked(s, e, t).value)
  {
    match e
    case CallStep(_, ev) => CallMovesOne(s, t, ev, t);
    case ChannelStep(_, ev) => LocalMovesOne(s, t, ev, t);
  }

  /** Until it ends, a switch keeps to its request. */
  lemma KeepsServing(s: State, e: Event, t: Tid, r: Request)
    requires Inv(s) && Enabled(s, e) && Serves(At(s, t), r)
    ensures var pc' := At(Apply(s, e), t);
            Serves(pc', r) || pc' == Switched(r.c, r.task, true) || pc' == Switched(r.c, r.task, false)
  {
    match e
    case ChannelStep(u, ev) =>
      LocalMovesOne(s, u, ev, t);
      if u == t { LocalMovesOn(s.g, HereOf(s, t), t, ev); }
    case CallStep(u, ev) => CallMovesOne(s, u, ev, t);
    case OwnerStep(u, ev) =>
      OwnerLeavesSwitch(s, u, ev, t);
    case _ => OthersUnmoved(s, e, t);
  }

  lemma OwnerLeavesSwitch(s: State, u: Tid, e: OwnerEvent, t: Tid)
    requires Inv(s) && OwnerEnabled(s, u, e) && At(s, t).Switching?
    ensures At(OwnerDo(s, u, e), t) == At(s, t)
  {
    OwnerStartsIdle(s, u, e);
    OwnerMovesOne(s, u, e, t);
  }

  /** Thread `t` is in the middle of a switch all along a run. */
  ghost predicate Underway(s: State, events: seq<Event>, t: Tid)
    requires Legal(s, events)
    decreases |events|
  {
    At(s, t).Switching? && (events == [] || Underway(Apply(s, events[0]), events[1..], t))
  }

  lemma {:induction false} RunKeepsServing(s: State, events: seq<Event>, t: Tid, r: Request)
    requires Inv(s) && Legal(s, events) && Serves(At(s, t), r) && Underway(s, events, t)
    ensures Inv(Run(s, events)) && Serves(At(Run(s, events), t), r)
    decreases |events|
  {
    if events != [] {
      StepKeepsInv(s, events[0]);
      KeepsServing(s, events[0], t, r);
      RunKeepsServing(Apply(s, events[0]), events[1..], t, r);
    }
  }

  /** What it means that a request has been applied. */
  predicate Applied(s: State, r: Request) {
    && r.c < |s.channels|
    && var ch := s.channels[r.c];
       ch.active == r.active && (r.active ==> !ch.stopping) && (!r.active ==> E.Stopped(ch.encoder))
  }

  /** From the step that asks for it, whatever happens in between, up to the step with which the
      thread returns from the switch: a normal return has applied what was asked for, on the
      channel it was asked for; nothing but a return ends the switch. */
  lemma RequestIsApplied(settings: C.Settings, format: RawFrames.Format, preview: bool, dropToLatest: bool,
                         before: seq<Event>, e: Event, t: Tid, between: seq<Event>, last: Event)
    requires Legal(Initial(settings, format, preview, dropToLatest), before)
    requires var s := Run(Initial(settings, format, preview, dropToLatest), before);
             && Enabled(s, e) && Asked(s, e, t).Some?
             && Legal(Apply(s, e), between) && Underway(Apply(s, e), between, t)
             && Enabled(Run(Apply(s, e), between), last)
    ensures var s := Run(Initial(settings, format, preview, dropToLatest), before);
            var r, s' := Asked(s, e, t).value, Apply(Run(Apply(s, e), between), last);
            if At(s', t).Switching? then Serves(At(s', t), r)
            else At(s', t).Switched? && At(s', t).c == r.c && At(s', t).task == r.task
                 && (At(s', t).ok ==> Applied(s', r))
  {
    var s := Run(Initial(settings, format, preview, dropToLatest), before);
    var r, s1 := Asked(s, e, t).value, Apply(s, e);
    R.InitialInv(settings, format, preview, dropToLatest);
    R.RunKeepsInv(Initial(settings, format, preview, dropToLatest), before);
    StepKeepsInv(s, e);
    AskingServes(s, e, t);
    RunKeepsServing(s1, between, t, r);
    LastStepApplies(Run(s1, between), last, t, r);
  }

  lemma LastStepApplies(s: State, e: Event, t: Tid, r: Request)
    requires Inv(s) && Enabled(s, e) && Serves(At(s, t), r)
    ensures var s' := Apply(s, e);
            if At(s', t).Switching? then Serves(At(s', t), r)
            else At(s', t).Switched? && At(s', t).c == r.c && At(s', t).task == r.task
                 && (At(s', t).ok ==> Applied(s', r))
  {
    KeepsServing(s, e, t, r);
    if At(Apply(s, e), t) == Switched(r.c, r.task, true) {
      EndsItself(s, e, t);
      StepKeepsShape(s, e);
      A.SuccessfulSwitch(s, t, e.local, r.c, r.active);
    }
  }

  /** Nobody but the thread itself ends its switch. */
  lemma EndsItself(s: State, e: Event, t: Tid)
    requires Inv(s) && Enabled(s, e) && At(s, t).Switching? && At(Apply(s, e), t).Switched?
    ensures e.ChannelStep? && e.t == t
  {
    if e.OwnerStep? {
      OwnerLeavesSwitch(s, e.t, e.owner, t);
    } else if e.CallStep? {
      CallMovesOne(s, e.t, e.call, t);
    } else if !ActorIs(e, t) {
      OthersUnmoved(s, e, t);
    }
  }
}
