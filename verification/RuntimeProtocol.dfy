/** The adapter runtime: encoder channels with their pumps, consumer demand, online
  configuration, source control admission, and an ordered shutdown that may fail and be
  retried.

  Every channel owns an encoder that runs the protocol of EncoderProtocol; a thread inside
  one of its entry points is at the corresponding program point here.  Events are lock
  acquisitions, critical sections and native outcomes, as there.  A step either works on one
  channel, giving its next value from the old one alone, or leaves all channels unchanged.
 */
module RuntimeProtocol {
  import opened Threads
  import E = EncoderProtocol
  import opened FrameQueue
  import C = Configuration
  import RawFrames

  /** Why a thread changes the activity of a channel. */
  datatype Task = Demand | Domain | PumpFault | Shutdown

  /** A source control operation.  A capture is another job that leaves without taking the
      source transition. */
  datatype Job = SetRtp(active: bool) | Configure(expected: int, patch: C.Patch) | OtherJob

  /** A patch with the revision it was meant for and the settings it was checked to produce. */
  datatype Plan = Plan(expected: int, patch: C.Patch, candidate: C.Settings)

  /** Progress in setting a channel active or inactive. */
  datatype SwitchPoint =
    | Wanting | Checking
    | Claiming | Claimed | Starting | Confirming | Committing | Failing | Recovering
    | Muting | Muted | Silencing | Verifying | Draining | Drained

  /** Progress in replacing the RTP encoder. */
  datatype ConfPoint = ConfWanting | ConfChecking | ConfClaiming | ConfBuilding | ConfStopping | ConfSwapping

  datatype PumpPoint = PumpWaiting | PumpClaiming | PumpHolding | PumpWriting | PumpCounting

  /** Progress in starting or stopping the runtime. */
  datatype OwnerPoint =
    | Creating | PumpStarting(c: nat) | Listening
    | Closing | Quiescing | StopAt(c: nat) | JoinAt(c: nat) | Releasing | RpcClosing

  /** Where a thread is.  A source control operation is admitted, then holds the source
      transition, and is done with it when `Exiting`. */
  datatype Pc =
    | Idle
    | Entered(job: Job)
    | Dispatching(job: Job)
    | Publishing(plan: Plan)
    | Leaving
    | Exiting
    | Switching(c: nat, active: bool, task: Task, at: SwitchPoint)
    | Switched(c: nat, task: Task, ok: bool)
    | Configuring(plan: Plan, conf: ConfPoint)
    | Pumping(c: nat, pump: PumpPoint)
    | Owning(owner: OwnerPoint)

  /** `built`: the settings the encoder was built from; `retired`: the encoders it replaced.
      `offered` counts the frames accepted while the channel was active; `handed` lists the
      sequence numbers passed to the encoder, and `activatedAt` is the number of frames
      accepted when the channel last became active. */
  datatype Channel = Channel(
    encoder: E.State,
    built: C.Settings,
    retired: seq<E.State>,
    active: bool,
    stopping: bool,
    pending: seq<Frame>,
    pendingBytes: int,
    depth: nat,
    transition: Option<Tid>,
    lock: Option<Tid>,
    offered: nat,
    dropped: nat,
    cleared: nat,
    out: nat,
    failed: nat,
    handed: seq<nat>,
    activatedAt: nat)

  datatype Destination = Destination(host: C.Host, port: int)

  /** `base` and `log`: the settings when the control server was created, and the patches it
      has applied since. */
  datatype Global = Global(
    framesIn: nat,
    started: bool,
    closing: bool,
    pumpStop: bool,
    hasControl: bool,
    endpoint: bool,
    gateClosed: bool,
    jobs: set<Tid>,
    control: Option<Tid>,
    owner: Option<Tid>,
    settings: C.Settings,
    described: Destination,
    revision: nat,
    base: C.Settings,
    log: seq<Plan>)

  datatype State = State(channels: seq<Channel>, pcs: map<Tid, Pc>, g: Global, format: RawFrames.Format)

  function NewChannel(preview: bool, settings: C.Settings, depth: nat): Channel {
    Channel(E.Initial(preview), settings, [], false, false, [], 0, depth, None, None, 0, 0, 0, 0, 0, [], 0)
  }

  /** The RTP channel, and the preview channel when there is one. */
  function Initial(settings: C.Settings, format: RawFrames.Format, preview: bool, dropToLatest: bool): State {
    var depth := if dropToLatest then 1 else 32;
    State(
      [NewChannel(false, settings, depth)] + if preview then [NewChannel(true, settings, depth)] else [],
      map[],
      Global(0, false, false, false, false, false, false, {}, None, None,
             settings, Destination(settings.rtpHost, settings.rtpPort), 1, settings, []),
      format)
  }

  function At(s: State, t: Tid): Pc {
    if t in s.pcs then s.pcs[t] else Idle
  }

  // ---------- What a program point holds ----------

  predicate Activating(at: SwitchPoint) {
    at.Claiming? || at.Claimed? || at.Starting? || at.Confirming? || at.Committing? || at.Failing? || at.Recovering?
  }

  predicate HoldsTransition(pc: Pc, c: nat) {
    match pc
    case Switching(d, _, _, at) => c == d && !at.Wanting?
    case Configuring(_, at) => c == 0 && !at.ConfWanting?
    case _ => false
  }

  predicate HoldsChannel(pc: Pc, c: nat) {
    match pc
    case Switching(d, _, _, at) => c == d && ((Activating(at) && !at.Claiming?) || at.Drained?)
    case Configuring(_, at) => c == 0 && (at.ConfBuilding? || at.ConfStopping? || at.ConfSwapping?)
    case Pumping(d, at) => c == d && (at.PumpHolding? || at.PumpWriting?)
    case _ => false
  }

  predicate HasTask(pc: Pc, task: Task) {
    (pc.Switching? || pc.Switched?) && pc.task == task
  }

  /** Holds the source transition of the control server. */
  predicate HoldsControl(pc: Pc) {
    pc.Dispatching? || pc.Leaving? || pc.Configuring? || pc.Publishing? || HasTask(pc, Domain)
  }

  /** Is counted as an admitted source control operation. */
  predicate IsJob(pc: Pc) {
    pc.Entered? || pc.Exiting? || HoldsControl(pc)
  }

  /** Holds the lifecycle lock of the runtime. */
  predicate IsOwner(pc: Pc) {
    pc.Owning? || HasTask(pc, Shutdown)
  }

  /** The entry point of channel `c`'s encoder that a thread is inside of. */
  function InsideAt(pc: Pc, c: nat): Option<E.Call> {
    match pc
    case Switching(d, _, _, at) =>
      if c != d then None
      else if at.Starting? then Some(E.StartCall)
      else if at.Recovering? || at.Silencing? then Some(E.StopCall)
      else None
    case Configuring(_, at) => if c == 0 && at.ConfStopping? then Some(E.StopCall) else None
    case Pumping(d, at) => if c == d && at.PumpWriting? then Some(E.WriteCall) else None
    case _ => None
  }

  /** The channel a step of a thread at this point works on, if any. */
  function ChannelOf(pc: Pc): Option<nat> {
    match pc
    case Switching(c, _, _, _) => Some(c)
    case Configuring(_, _) => Some(0)
    case Pumping(c, _) => Some(c)
    case Owning(StopAt(c)) => Some(c)
    case _ => None
  }

  // ---------- Steps of a thread on its channel ----------

  /** A channel and the program point of a thread working on it. */
  datatype Here = Here(ch: Channel, pc: Pc)

  /** The thread enters or leaves its encoder. */
  function Calling(ch: Channel, enc: E.State): Channel {
    ch.(encoder := enc)
  }

  function Cleared(ch: Channel): Channel {
    ch.(pending := [], pendingBytes := 0, cleared := ch.cleared + |ch.pending|)
  }

  predicate Running(enc: E.State) {
    enc.proc.Some? && enc.proc.value < |enc.children| && !enc.children[enc.proc.value].reaped
  }

  predicate IsAt(pc: Pc, at: SwitchPoint) {
    pc.Switching? && pc.at == at
  }

  function Move(v: Here, at: SwitchPoint): Here
    requires v.pc.Switching?
  {
    v.(pc := v.pc.(at := at))
  }

  /** Give the transition lock back and return. */
  function Done(v: Here, ok: bool): Here
    requires v.pc.Switching?
  {
    Here(v.ch.(transition := None), Switched(v.pc.c, v.pc.task, ok))
  }

  /** Setting a channel active, or deciding to set it inactive. */
  datatype ActivateEvent =
    | TakeTransition
    | Check
    | ClaimChannel
    | CallStart
    | StartReturns
    | Confirm
    | Commit
    | CallRecovery
    | RecoveryReturns

  predicate ActivateEnabled(v: Here, t: Tid, e: ActivateEvent) {
    match e
    case TakeTransition => IsAt(v.pc, Wanting) && v.ch.transition.None?
    case Check => IsAt(v.pc, Checking)
    case ClaimChannel => IsAt(v.pc, Claiming) && v.ch.lock.None?
    case CallStart => IsAt(v.pc, Claimed) && E.At(v.ch.encoder, t).Idle?
    case StartReturns => IsAt(v.pc, Starting) && E.At(v.ch.encoder, t).Returned?
    case Confirm => IsAt(v.pc, Confirming)
    case Commit => IsAt(v.pc, Committing)
    case CallRecovery => IsAt(v.pc, Failing) && E.At(v.ch.encoder, t).Idle?
    case RecoveryReturns => IsAt(v.pc, Recovering) && E.At(v.ch.encoder, t).Returned?
  }

  function ActivateApply(g: Global, v: Here, t: Tid, e: ActivateEvent): Here
    requires ActivateEnabled(v, t, e)
  {
    match e
    case TakeTransition => Move(v.(ch := v.ch.(transition := Some(t))), Checking)
    case Check =>
      if v.pc.active && (g.closing || v.ch.stopping) then Done(v, false)
      else if v.pc.active == v.ch.active && (if v.pc.active then Running(v.ch.encoder) else E.Stopped(v.ch.encoder))
      then Done(v, true)
      else Move(v, if v.pc.active then Claiming else Muting)
    case ClaimChannel => Move(v.(ch := v.ch.(lock := Some(t))), Claimed)
    case CallStart => Move(v.(ch := Calling(v.ch, E.BeginStart(v.ch.encoder, t))), Starting)
    case StartReturns =>
      Move(v.(ch := Calling(v.ch, E.Leave(v.ch.encoder, t))), if E.At(v.ch.encoder, t).ok then Confirming else Failing)
    case Confirm => Move(v, if Running(v.ch.encoder) then Committing else Failing)
    case Commit =>
      Done(v.(ch := v.ch.(active := true, lock := None,
                          activatedAt := if v.ch.active then v.ch.activatedAt else g.framesIn)), true)
    case CallRecovery => Move(v.(ch := Calling(v.ch, E.BeginStop(v.ch.encoder, t))), Recovering)
    case RecoveryReturns => Done(v.(ch := Calling(v.ch, E.Leave(v.ch.encoder, t)).(lock := None)), false)
  }

  /** Setting a channel inactive, for a consumer or for a shutdown. */
  datatype DeactivateEvent =
    | StopTake(ok: bool)
    | Mute
    | CallSilence
    | SilenceReturns
    | Verify
    | DrainChannel(ok: bool)
    | Deactivate

  predicate DeactivateEnabled(v: Here, t: Tid, e: DeactivateEvent) {
    match e
    case StopTake(ok) => v.pc.Owning? && v.pc.owner.StopAt? && (ok <==> v.ch.transition.None?)
    case Mute => IsAt(v.pc, Muting)
    case CallSilence => IsAt(v.pc, Muted) && E.At(v.ch.encoder, t).Idle?
    case SilenceReturns => IsAt(v.pc, Silencing) && E.At(v.ch.encoder, t).Returned?
    case Verify => IsAt(v.pc, Verifying)
    case DrainChannel(ok) => IsAt(v.pc, Draining) && (ok <==> v.ch.lock.None?)
    case Deactivate => IsAt(v.pc, Drained)
  }

  function DeactivateApply(v: Here, t: Tid, e: DeactivateEvent): Here
    requires DeactivateEnabled(v, t, e)
  {
    match e
    case StopTake(ok) =>
      var c := v.pc.owner.c;
      if ok then Here(v.ch.(transition := Some(t)), Switching(c, false, Shutdown, Muting))
      else v.(pc := Switched(c, Shutdown, false))
    case Mute => Move(v.(ch := Cleared(v.ch).(stopping := true)), Muted)
    case CallSilence => Move(v.(ch := Calling(v.ch, E.BeginStop(v.ch.encoder, t))), Silencing)
    case SilenceReturns =>
      var v1 := v.(ch := Calling(v.ch, E.Leave(v.ch.encoder, t)));
      if E.At(v.ch.encoder, t).ok then Move(v1, Verifying) else Done(v1, false)
    case Verify => if E.Stopped(v.ch.encoder) then Move(v, Draining) else Done(v, false)
    case DrainChannel(ok) => if ok then Move(v.(ch := v.ch.(lock := Some(t))), Drained) else Done(v, false)
    case Deactivate => Done(v.(ch := v.ch.(active := false, stopping := false, lock := None)), true)
  }

  /** Replacing the RTP encoder.  `ConfSwap` also publishes the new settings. */
  datatype ConfEvent =
    | ConfTake
    | ConfCheck
    | ConfClaim
    | ConfBuild(ok: bool)
    | ConfStopReturns
    | ConfSwap

  predicate ConfAt(pc: Pc, at: ConfPoint) {
    pc.Configuring? && pc.conf == at
  }

  predicate ConfEnabled(v: Here, t: Tid, e: ConfEvent) {
    match e
    case ConfTake => ConfAt(v.pc, ConfWanting) && v.ch.transition.None?
    case ConfCheck => ConfAt(v.pc, ConfChecking)
    case ConfClaim => ConfAt(v.pc, ConfClaiming) && v.ch.lock.None?
    case ConfBuild(_) => ConfAt(v.pc, ConfBuilding) && E.At(v.ch.encoder, t).Idle?
    case ConfStopReturns => ConfAt(v.pc, ConfStopping) && E.At(v.ch.encoder, t).Returned?
    case ConfSwap => ConfAt(v.pc, ConfSwapping)
  }

  function ConfApply(g: Global, v: Here, t: Tid, e: ConfEvent): Here
    requires ConfEnabled(v, t, e)
  {
    var plan := v.pc.plan;
    match e
    case ConfTake => Here(v.ch.(transition := Some(t)), Configuring(plan, ConfChecking))
    case ConfCheck =>
      if g.closing || v.ch.active || v.ch.stopping || !E.Stopped(v.ch.encoder)
      then Here(v.ch.(transition := None), Leaving)
      else v.(pc := Configuring(plan, ConfClaiming))
    case ConfClaim => Here(v.ch.(lock := Some(t)), Configuring(plan, ConfBuilding))
    case ConfBuild(ok) =>
      if ok then Here(Calling(v.ch, E.BeginStop(v.ch.encoder, t)), Configuring(plan, ConfStopping))
      else Here(v.ch.(lock := None, transition := None), Leaving)
    case ConfStopReturns =>
      var ch := Calling(v.ch, E.Leave(v.ch.encoder, t));
      if E.At(v.ch.encoder, t).ok then Here(ch, Configuring(plan, ConfSwapping))
      else Here(ch.(lock := None, transition := None), Leaving)
    case ConfSwap =>
      Here(Cleared(v.ch).(encoder := E.Initial(v.ch.encoder.preview), built := plan.candidate,
                          retired := v.ch.retired + [v.ch.encoder], lock := None, transition := None),
           Publishing(plan))
  }

  /** The pump of a channel. */
  datatype PumpEvent =
    | PumpWake
    | PumpExit
    | PumpClaim
    | PumpTake
    | PumpReturns
    | PumpCount

  predicate PumpAt(pc: Pc, at: PumpPoint) {
    pc.Pumping? && pc.pump == at
  }

  predicate PumpEnabled(g: Global, v: Here, t: Tid, e: PumpEvent) {
    match e
    case PumpWake =>
      PumpAt(v.pc, PumpWaiting) && !g.pumpStop && v.ch.active && !v.ch.stopping && v.ch.pending != []
    case PumpExit => PumpAt(v.pc, PumpWaiting) && g.pumpStop
    case PumpClaim => PumpAt(v.pc, PumpClaiming) && v.ch.lock.None?
    case PumpTake => PumpAt(v.pc, PumpHolding) && E.At(v.ch.encoder, t).Idle?
    case PumpReturns => PumpAt(v.pc, PumpWriting) && E.At(v.ch.encoder, t).Returned?
    case PumpCount => PumpAt(v.pc, PumpCounting)
  }

  function PumpApply(g: Global, v: Here, t: Tid, e: PumpEvent): Here
    requires PumpEnabled(g, v, t, e)
  {
    var c := v.pc.c;
    match e
    case PumpWake => v.(pc := Pumping(c, PumpClaiming))
    case PumpExit => v.(pc := Idle)
    case PumpClaim => Here(v.ch.(lock := Some(t)), Pumping(c, PumpHolding))
    case PumpTake =>
      if !v.ch.active || v.ch.stopping || v.ch.pending == [] then Here(v.ch.(lock := None), Pumping(c, PumpWaiting))
      else Here(Handing(Calling(v.ch, E.BeginWrite(v.ch.encoder, t, v.ch.pending[0].stamp))), Pumping(c, PumpWriting))
    case PumpReturns =>
      var ch := Calling(v.ch, E.Leave(v.ch.encoder, t)).(lock := None);
      if E.At(v.ch.encoder, t).ok then Here(ch, Pumping(c, PumpCounting))
      else Here(ch.(failed := ch.failed + 1), Switching(c, false, PumpFault, Wanting))
    case PumpCount => Here(v.ch.(out := v.ch.out + 1), Pumping(c, PumpWaiting))
  }

  /** The oldest queued frame goes to the encoder. */
  function Handing(ch: Channel): Channel
    requires ch.pending != []
  {
    ch.(pending := ch.pending[1..], pendingBytes := ch.pendingBytes - ch.pending[0].bytes,
        handed := ch.handed + [ch.pending[0].sequence])
  }

  // ---------- Steps on no channel ----------

  /** The global state and the program point of a thread working on it. */
  datatype There = There(g: Global, pc: Pc)

  /** A call from outside or a source control operation. */
  datatype CallEvent =
    | Want(c: nat, active: bool)
    | Resume
    | Admit(job: Job)
    | TakeControl(ok: bool)
    | Dispatch(cancelled: bool)
    | Publish
    | LeaveControl
    | ExitJob

  predicate CallEnabled(n: nat, w: There, t: Tid, e: CallEvent) {
    match e
    case Want(c, _) => t.Client? && w.pc.Idle? && c < n
    case Resume => w.pc.Switched?
    case Admit(_) => t.Client? && w.pc.Idle? && w.g.hasControl && !w.g.gateClosed
    case TakeControl(ok) => w.pc.Entered? && (ok ==> w.g.control.None?)
    case Dispatch(_) => w.pc.Dispatching?
    case Publish => w.pc.Publishing?
    case LeaveControl => w.pc.Leaving?
    case ExitJob => w.pc.Exiting?
  }

  function CallApply(n: nat, w: There, t: Tid, e: CallEvent): There
    requires CallEnabled(n, w, t, e)
  {
    match e
    case Want(c, active) => w.(pc := Switching(c, active, Demand, Wanting))
    case Resume => Resumed(n, w)
    case Admit(job) => There(w.g.(jobs := w.g.jobs + {t}), Entered(job))
    case TakeControl(ok) =>
      if ok then There(w.g.(control := Some(t)), Dispatching(w.pc.job)) else w.(pc := Exiting)
    case Dispatch(cancelled) => w.(pc := if cancelled then Leaving else Dispatched(w.g, w.pc.job))
    case Publish =>
      There(w.g.(revision := w.g.revision + 1, log := w.g.log + [w.pc.plan],
                 described := Destination(w.g.settings.rtpHost, w.g.settings.rtpPort)), Leaving)
    case LeaveControl => There(w.g.(control := None), Exiting)
    case ExitJob => There(w.g.(jobs := w.g.jobs - {t}), Idle)
  }

  /** What a thread does after setting a channel active or inactive. */
  function Resumed(n: nat, w: There): There
    requires w.pc.Switched?
  {
    match w.pc.task
    case Demand => w.(pc := Idle)
    case Domain => w.(pc := Leaving)
    case PumpFault =>
      // The pump thread ends if it cannot set its channel inactive.
      w.(pc := if w.pc.ok then Pumping(w.pc.c, PumpWaiting) else Idle)
    case Shutdown =>
      if !w.pc.ok then GiveUp(w.g)
      else w.(pc := Owning(if w.pc.c + 1 < n then StopAt(w.pc.c + 1) else JoinAt(0)))
  }

  /** A failed shutdown step: give the lifecycle lock back and keep every owner. */
  function GiveUp(g: Global): There {
    There(g.(owner := None), Idle)
  }

  /** The handler of an admitted operation once it holds the source transition. */
  function Dispatched(g: Global, job: Job): Pc {
    match job
    case OtherJob => Leaving
    case SetRtp(active) => Switching(0, active, Domain, Wanting)
    case Configure(expected, patch) =>
      var outcome := C.Check(g.settings, patch);
      if patch == [] || expected != g.revision || outcome.Refused? then Leaving
      else Configuring(Plan(expected, patch, outcome.settings), ConfWanting)
  }

  /** Starting and stopping the runtime. */
  datatype OwnerEvent =
    | StartRuntime
    | CreateControl(ok: bool)
    | StartPump(ok: bool)
    | Listen(ok: bool)
    | StopRuntime
    | CloseGate
    | Quiesce(ok: bool)
    | JoinPump(ok: bool)
    | ReleaseEndpoint(ok: bool)
    | CloseRpc(ok: bool)

  predicate OwnerAt(pc: Pc, at: OwnerPoint) {
    pc == Owning(at)
  }

  predicate OwnerEnabled(s: State, t: Tid, e: OwnerEvent) {
    var w := ThereOf(s, t);
    match e
    case StartRuntime => t.Client? && w.pc.Idle? && w.g.owner.None? && !w.g.started
    case CreateControl(_) => OwnerAt(w.pc, Creating)
    case StartPump(_) => w.pc.Owning? && w.pc.owner.PumpStarting?
    case Listen(_) => OwnerAt(w.pc, Listening)
    case StopRuntime => t.Client? && w.pc.Idle? && w.g.owner.None?
    case CloseGate => OwnerAt(w.pc, Closing)
    case Quiesce(ok) => OwnerAt(w.pc, Quiescing) && (ok <==> w.g.hasControl ==> w.g.jobs == {})
    case JoinPump(ok) => w.pc.Owning? && w.pc.owner.JoinAt? && (ok <==> At(s, Pump(w.pc.owner.c)).Idle?)
    case ReleaseEndpoint(ok) => OwnerAt(w.pc, Releasing) && (ok && w.g.hasControl ==> w.g.jobs == {})
    case CloseRpc(_) => OwnerAt(w.pc, RpcClosing)
  }

  predicate NothingToStop(s: State) {
    !s.g.started && !s.g.hasControl && forall c :: 0 <= c < |s.channels| ==> E.Stopped(s.channels[c].encoder)
  }

  /** The effect on the acting thread; `quiet` says that there is nothing to stop. */
  function OwnerApply(n: nat, quiet: bool, w: There, t: Tid, e: OwnerEvent): There
    requires (e.StartPump? ==> w.pc.Owning? && w.pc.owner.PumpStarting?)
    requires (e.JoinPump? ==> w.pc.Owning? && w.pc.owner.JoinAt?)
  {
    match e
    case StartRuntime =>
      There(w.g.(owner := Some(t), pumpStop := false, closing := false, started := true), Owning(Creating))
    case CreateControl(ok) =>
      if ok then There(w.g.(hasControl := true, gateClosed := false, revision := 1, log := [], base := w.g.settings),
                       Owning(PumpStarting(0)))
      else Close(w.g)
    case StartPump(ok) =>
      var c := w.pc.owner.c;
      if c >= n then w.(pc := Owning(Listening))
      else if ok then w.(pc := Owning(PumpStarting(c + 1)))
      else Close(w.g)
    case Listen(ok) => if ok then There(w.g.(endpoint := true, owner := None), Idle) else Close(w.g)
    case StopRuntime => if quiet then w else Close(w.g.(owner := Some(t)))
    case CloseGate => There(w.g.(gateClosed := true), Owning(Quiescing))
    case Quiesce(ok) => if ok then There(w.g.(pumpStop := true), Owning(StopAt(0))) else GiveUp(w.g)
    case JoinPump(ok) =>
      if !ok then GiveUp(w.g)
      else w.(pc := Owning(if w.pc.owner.c + 1 < n then JoinAt(w.pc.owner.c + 1) else Releasing))
    case ReleaseEndpoint(ok) => if ok then There(w.g.(endpoint := false), Owning(RpcClosing)) else GiveUp(w.g)
    case CloseRpc(ok) => GiveUp(if ok then w.g.(started := false, hasControl := false) else w.g)
  }

  /** The start of a shutdown. */
  function Close(g: Global): There {
    There(g.(closing := true), Owning(Closing))
  }

  /** The pump thread that an event starts, if any. */
  function Spawned(s: State, t: Tid, e: OwnerEvent): Option<nat>
    requires OwnerEnabled(s, t, e)
  {
    if e.StartPump? && e.ok && At(s, t).owner.c < |s.channels| then Some(At(s, t).owner.c) else None
  }

  // ---------- Frames ----------

  /** An accepted frame joins the queue of an active channel. */
  function Enqueued(ch: Channel, f: Frame): Channel {
    if !ch.active || ch.stopping then ch
    else
      var q := Offer(ch.pending, f, ch.depth);
      ch.(pending := q, pendingBytes := Bytes(q), offered := ch.offered + 1,
          dropped := ch.dropped + |ch.pending| + 1 - |q|)
  }

  /** What a published message turns into before it can be queued. */
  ghost predicate Genuine(format: RawFrames.Format, submission: RawFrames.Submission) {
    exists message :: RawFrames.Submitted(format, message) == submission
  }

  /** A message that does not validate, or lacks the stamp that a preview needs, is refused,
      as is every frame once the runtime closes. */
  predicate Refuses(s: State, submission: RawFrames.Submission, stamp: int) {
    submission.Refused? || s.g.closing || stamp < 0 || (|s.channels| > 1 && stamp == 0)
  }

  /** Frames are numbered as they are accepted.  Stamp 0 stands for a missing stamp. */
  function Accept(s: State, submission: RawFrames.Submission, stamp: int): State {
    if Refuses(s, submission, stamp) then s
    else
      var f := Frame(s.g.framesIn + 1, |submission.data|, stamp);
      s.(g := s.g.(framesIn := s.g.framesIn + 1),
         channels := seq(|s.channels|, c requires 0 <= c < |s.channels| => Enqueued(s.channels[c], f)))
  }

  // ---------- Events ----------

  /** A step of an encoder, a submitted frame, or a step of thread `t`. */
  datatype Event =
    | EncoderStep(c: nat, e: E.Event)
    | Submit(submission: RawFrames.Submission, stamp: int)
    | ChannelStep(t: Tid, local: LocalEvent)
    | CallStep(t: Tid, call: CallEvent)
    | OwnerStep(t: Tid, owner: OwnerEvent)

  /** A step of a thread on the channel its program point names. */
  datatype LocalEvent =
    | Activation(activate: ActivateEvent)
    | Deactivation(deactivate: DeactivateEvent)
    | Replacement(conf: ConfEvent)
    | Delivery(pump: PumpEvent)

  predicate LocalEnabled(g: Global, v: Here, t: Tid, e: LocalEvent) {
    match e
    case Activation(ev) => ActivateEnabled(v, t, ev)
    case Deactivation(ev) => DeactivateEnabled(v, t, ev)
    case Replacement(ev) => ConfEnabled(v, t, ev)
    case Delivery(ev) => PumpEnabled(g, v, t, ev)
  }

  function LocalApply(g: Global, v: Here, t: Tid, e: LocalEvent): Here
    requires LocalEnabled(g, v, t, e)
  {
    match e
    case Activation(ev) => ActivateApply(g, v, t, ev)
    case Deactivation(ev) => DeactivateApply(v, t, ev)
    case Replacement(ev) => ConfApply(g, v, t, ev)
    case Delivery(ev) => PumpApply(g, v, t, ev)
  }

  predicate IsSwap(e: LocalEvent) {
    e.Replacement? && e.conf.ConfSwap?
  }

  /** Replacing the encoder and the settings is one critical section. */
  function AfterLocal(g: Global, v: Here, t: Tid, e: LocalEvent): Global
    requires LocalEnabled(g, v, t, e)
  {
    if IsSwap(e) then g.(settings := v.pc.plan.candidate) else g
  }

  function HereOf(s: State, t: Tid): Here
    requires ChannelOf(At(s, t)).Some? && ChannelOf(At(s, t)).value < |s.channels|
  {
    Here(s.channels[ChannelOf(At(s, t)).value], At(s, t))
  }

  function ThereOf(s: State, t: Tid): There {
    There(s.g, At(s, t))
  }

  // ---------- The effect of an event on the whole state ----------

  predicate EncoderCan(s: State, c: nat, e: E.Event) {
    c < |s.channels| && !E.External(e) && E.Enabled(s.channels[c].encoder, e)
  }

  function EncoderDo(s: State, c: nat, e: E.Event): State
    requires EncoderCan(s, c, e)
  {
    s.(channels := s.channels[c := Calling(s.channels[c], E.Apply(s.channels[c].encoder, e))])
  }

  predicate LocalCan(s: State, t: Tid, e: LocalEvent) {
    && ChannelOf(At(s, t)).Some? && ChannelOf(At(s, t)).value < |s.channels|
    && LocalEnabled(s.g, HereOf(s, t), t, e)
  }

  function LocalDo(s: State, t: Tid, e: LocalEvent): State
    requires LocalCan(s, t, e)
  {
    var v' := LocalApply(s.g, HereOf(s, t), t, e);
    s.(channels := s.channels[ChannelOf(At(s, t)).value := v'.ch], pcs := s.pcs[t := v'.pc],
       g := AfterLocal(s.g, HereOf(s, t), t, e))
  }

  predicate CallCan(s: State, t: Tid, e: CallEvent) {
    CallEnabled(|s.channels|, ThereOf(s, t), t, e)
  }

  function CallDo(s: State, t: Tid, e: CallEvent): State
    requires CallCan(s, t, e)
  {
    var w := CallApply(|s.channels|, ThereOf(s, t), t, e);
    s.(pcs := s.pcs[t := w.pc], g := w.g)
  }

  function OwnerDo(s: State, t: Tid, e: OwnerEvent): State
    requires OwnerEnabled(s, t, e)
  {
    var w := OwnerApply(|s.channels|, NothingToStop(s), ThereOf(s, t), t, e);
    s.(pcs := WithPump(s.pcs[t := w.pc], Spawned(s, t, e)), g := w.g)
  }

  function WithPump(pcs: map<Tid, Pc>, spawned: Option<nat>): map<Tid, Pc> {
    if spawned.Some? then pcs[Pump(spawned.value) := Pumping(spawned.value, PumpWaiting)] else pcs
  }

  ghost predicate Enabled(s: State, e: Event) {
    match e
    case EncoderStep(c, ev) => EncoderCan(s, c, ev)
    case Submit(submission, _) => Genuine(s.format, submission)
    case ChannelStep(t, ev) => LocalCan(s, t, ev)
    case CallStep(t, ev) => CallCan(s, t, ev)
    case OwnerStep(t, ev) => OwnerEnabled(s, t, ev)
  }

  function Apply(s: State, e: Event): State
    requires Enabled(s, e)
  {
    match e
    case EncoderStep(c, ev) => EncoderDo(s, c, ev)
    case Submit(submission, stamp) => Accept(s, submission, stamp)
    case ChannelStep(t, ev) => LocalDo(s, t, ev)
    case CallStep(t, ev) => CallDo(s, t, ev)
    case OwnerStep(t, ev) => OwnerDo(s, t, ev)
  }

  // ---------- Runs ----------

  ghost predicate Legal(s: State, events: seq<Event>)
    decreases |events|
  {
    events == [] || (Enabled(s, events[0]) && Legal(Apply(s, events[0]), events[1..]))
  }

  function Run(s: State, events: seq<Event>): State
    requires Legal(s, events)
    decreases |events|
  {
    if events == [] then s else Run(Apply(s, events[0]), events[1..])
  }
}
