/** The lifecycle of one supervised encoder process, shared by any number of threads.

  Each event is one state-lock critical section, one acquisition of the lifecycle or write
  lock, or one native action that may succeed or fail.  `Apply` gives the effect of an
  enabled event; every interleaving of the threads is a sequence of enabled events.  Native
  failures and the moments at which a child or an output reader ends are chosen freely; a
  timed acquisition may run out at any moment at which another thread holds the lock.
 */
module EncoderProtocol {
  import opened Threads

  /** Stamps of frames written but not yet matched with an output unit. */
  const MAX_STAMPS := 64

  type Stamp = int

  /** An entry point of the encoder. */
  datatype Call = WriteCall | StartCall | StopCall

  /** On whose behalf a child is being taken down, and the stop generation seen then. */
  datatype Goal = ForStop(generation: nat) | ForRestart(call: Call, generation: nat)

  /** Where a thread is. */
  datatype Pc =
    | Idle
    | AtWriteLock(stamp: Stamp)
    | WriteEntered(stamp: Stamp)
    | Admitted(child: nat, stamp: Stamp)
    | Writing(child: nat)
    | WriteFailed(child: nat)
    | Starting
    | Restarting(call: Call, child: nat)
    | StopWaiting(generation: nat)
    | StopEntered(generation: nat)
    | Reaping(goal: Goal, child: nat)
    | Draining(goal: Goal, child: nat)
    | Joining(goal: Goal, child: nat)
    | Settling(goal: Goal)
    | Returned(call: Call, ok: bool)

  /** An access unit handed to the callback: its number in the child's output, its stamp. */
  datatype Delivery = Delivery(unit: int, stamp: Stamp)

  /** Everything that ever happened to one child.  `checked`: its output reader has found
      the child current and is about to take a stamp. */
  datatype Child = Child(reaped: bool, stamps: seq<Stamp>, parsed: nat, checked: bool, delivered: seq<Delivery>)

  datatype Reader = Reader(child: nat, output: bool)

  datatype State = State(
    preview: bool,
    proc: Option<nat>,
    children: seq<Child>,
    stopping: bool,
    generation: nat,
    readers: set<Reader>,
    alive: set<Reader>,
    lifecycle: Option<Tid>,
    writeLock: Option<Tid>,
    queue: seq<Stamp>,
    pcs: map<Tid, Pc>)

  function Initial(preview: bool): State {
    State(preview, None, [], false, 0, {}, {}, None, None, [], map[])
  }

  function At(s: State, t: Tid): Pc {
    if t in s.pcs then s.pcs[t] else Idle
  }

  function Put(s: State, t: Tid, pc: Pc): State {
    s.(pcs := s.pcs[t := pc])
  }

  predicate HoldsLifecycle(pc: Pc) {
    pc.Starting? || pc.Restarting? || pc.StopEntered? || pc.Reaping? || pc.Draining? || pc.Joining? || pc.Settling?
  }

  predicate HoldsWrite(pc: Pc) {
    pc.WriteEntered? || pc.Admitted? || pc.Writing?
  }

  /** The entry point a thread is inside of. */
  function CallOf(pc: Pc): Option<Call> {
    match pc
    case Idle => None
    case AtWriteLock(_) | WriteEntered(_) | Admitted(_, _) | Writing(_) | WriteFailed(_) => Some(WriteCall)
    case Starting => Some(StartCall)
    case Restarting(call, _) => Some(call)
    case StopWaiting(_) | StopEntered(_) => Some(StopCall)
    case Reaping(goal, _) => Some(GoalCall(goal))
    case Draining(goal, _) => Some(GoalCall(goal))
    case Joining(goal, _) => Some(GoalCall(goal))
    case Settling(goal) => Some(GoalCall(goal))
    case Returned(call, _) => Some(call)
  }

  function GoalCall(goal: Goal): Call {
    if goal.ForStop? then StopCall else goal.call
  }

  // ---------- Launching a child ----------

  /** `NoChild`: preflight or process creation failed, before or after the stamps were
      cleared.  `NewChild`: the child exists; `ok` unless one of its readers could not be
      recorded or started. */
  datatype Launch = NoChild(cleared: bool) | NewChild(recorded: set<Reader>, started: set<Reader>, ok: bool)

  function ReadersOf(s: State, c: nat): set<Reader> {
    if s.preview then {Reader(c, false), Reader(c, true)} else {Reader(c, false)}
  }

  predicate Possible(s: State, l: Launch) {
    l.NewChild? ==>
      && l.started <= l.recorded <= ReadersOf(s, |s.children|)
      && (l.ok ==> l.started == ReadersOf(s, |s.children|))
  }

  /** `_launch_locked`, inside one state-lock critical section. */
  function Spawn(s: State, l: Launch): State {
    match l
    case NoChild(cleared) => s.(queue := if cleared then [] else s.queue)
    case NewChild(recorded, started, ok) =>
      s.(children := s.children + [Child(false, [], 0, false, [])], proc := Some(|s.children|), queue := [],
         readers := s.readers + recorded, alive := s.alive + started, stopping := s.stopping || !ok)
  }

  /** The launch by a thread that holds the lifecycle lock, which it then gives back. */
  function LaunchBy(s: State, t: Tid, call: Call, l: Launch): State {
    Release(Spawn(s, l), t, call, l.NewChild? && l.ok)
  }

  /** Give the lifecycle lock back and return from `call`. */
  function Release(s: State, t: Tid, call: Call, ok: bool): State {
    Put(s.(lifecycle := None), t, Returned(call, ok))
  }

  function ReleaseWrite(s: State, t: Tid, pc: Pc): State {
    Put(s.(writeLock := None), t, pc)
  }

  // ---------- Entering and leaving ----------

  /** A preview refuses a frame without a positive stamp. */
  function BeginWrite(s: State, t: Tid, stamp: Stamp): State {
    Put(s, t, if s.preview && stamp <= 0 then Returned(WriteCall, false) else AtWriteLock(stamp))
  }

  /** A start does not wait for a transition in progress. */
  function BeginStart(s: State, t: Tid): State {
    if s.lifecycle.Some? then Put(s, t, Returned(StartCall, false))
    else Put(s.(lifecycle := Some(t)), t, Starting)
  }

  function BeginStop(s: State, t: Tid): State {
    Put(s.(stopping := true, generation := s.generation + 1), t, StopWaiting(s.generation + 1))
  }

  function Leave(s: State, t: Tid): State {
    Put(s, t, Idle)
  }

  // ---------- Events ----------

  datatype Event =
    // A thread enters or leaves the encoder.
    | CallWrite(t: Tid, stamp: Stamp)
    | CallStart(t: Tid)
    | CallStop(t: Tid)
    | Return(t: Tid)
    // Writing a frame.
    | TakeWriteLock(t: Tid)
    | Admit(t: Tid)
    | BeforeWrite(t: Tid)
    | WriteFrame(t: Tid, ok: bool)
    | TakeLifecycle(t: Tid)
    // Starting, restarting and stopping.
    | StartDecide(t: Tid, launch: Launch)
    | RestartDecide(t: Tid)
    | StopTake(t: Tid, ok: bool)
    | StopRead(t: Tid)
    | Reap(t: Tid, ok: bool)
    | DrainWriter(t: Tid, ok: bool)
    | JoinReaders(t: Tid, ok: bool)
    | SettleStop(t: Tid)
    | SettleRestart(t: Tid, launch: Launch)
    // The child and its output.
    | ChildExits(c: nat)
    | ReaderExits(r: Reader)
    | EmitCheck(c: nat)
    | EmitPop(c: nat)

  /** The events that other threads of the program trigger by calling the encoder. */
  predicate External(e: Event) {
    e.CallWrite? || e.CallStart? || e.CallStop? || e.Return?
  }

  predicate Enabled(s: State, e: Event) {
    match e
    case CallWrite(t, _) => At(s, t).Idle?
    case CallStart(t) => At(s, t).Idle?
    case CallStop(t) => At(s, t).Idle?
    case Return(t) => At(s, t).Returned?
    case TakeWriteLock(t) => At(s, t).AtWriteLock? && s.writeLock.None?
    case Admit(t) => At(s, t).WriteEntered?
    case BeforeWrite(t) => At(s, t).Admitted? && At(s, t).child < |s.children|
    case WriteFrame(t, ok) =>
      // A dead child, or one whose input is closed, accepts no frame.
      At(s, t).Writing? && At(s, t).child < |s.children| && (ok ==> !s.children[At(s, t).child].reaped)
    case TakeLifecycle(t) => At(s, t).WriteFailed? && s.lifecycle.None?
    case StartDecide(t, l) =>
      At(s, t).Starting? && Possible(s, l) && (s.proc.Some? ==> s.proc.value < |s.children|)
    case RestartDecide(t) => At(s, t).Restarting?
    case StopTake(t, ok) => At(s, t).StopWaiting? && (ok <==> s.lifecycle.None?)
    case StopRead(t) => At(s, t).StopEntered?
    case Reap(t, _) => At(s, t).Reaping? && At(s, t).child < |s.children|
    case DrainWriter(t, ok) => At(s, t).Draining? && (ok <==> s.writeLock.None?)
    case JoinReaders(t, ok) => At(s, t).Joining? && (ok ==> s.alive * s.readers == {})
    case SettleStop(t) => At(s, t).Settling? && At(s, t).goal.ForStop?
    case SettleRestart(t, l) => At(s, t).Settling? && At(s, t).goal.ForRestart? && Possible(s, l)
    case ChildExits(c) => c < |s.children|
    case ReaderExits(r) => r in s.alive && (r.output && r.child < |s.children| ==> !s.children[r.child].checked)
    case EmitCheck(c) =>
      // The codec assumption: at most one access unit for each frame written so far.
      && c < |s.children| && Reader(c, true) in s.alive && !s.children[c].checked
      && s.children[c].parsed < |s.children[c].stamps|
    case EmitPop(c) => c < |s.children| && s.children[c].checked
  }

  function Apply(s: State, e: Event): State
    requires Enabled(s, e)
  {
    match e
    case CallWrite(t, stamp) => BeginWrite(s, t, stamp)
    case CallStart(t) => BeginStart(s, t)
    case CallStop(t) => BeginStop(s, t)
    case Return(t) => Leave(s, t)
    case TakeWriteLock(t) => Put(s.(writeLock := Some(t)), t, WriteEntered(At(s, t).stamp))
    case Admit(t) =>
      if s.stopping || s.proc.None? then ReleaseWrite(s, t, Returned(WriteCall, true))
      else Put(s, t, Admitted(s.proc.value, At(s, t).stamp))
    case BeforeWrite(t) => ApplyBeforeWrite(s, t)
    case WriteFrame(t, ok) =>
      ReleaseWrite(s, t, if ok then Returned(WriteCall, true) else WriteFailed(At(s, t).child))
    case TakeLifecycle(t) => Put(s.(lifecycle := Some(t)), t, Restarting(WriteCall, At(s, t).child))
    case StartDecide(t, l) =>
      if s.stopping then Release(s, t, StartCall, false)
      else if s.proc.None? then LaunchBy(s, t, StartCall, l)
      else if !s.children[s.proc.value].reaped then Release(s, t, StartCall, true)
      else Put(s, t, Restarting(StartCall, s.proc.value))
    case RestartDecide(t) =>
      var pc := At(s, t);
      if s.proc != Some(pc.child) || s.stopping then Release(s, t, pc.call, true)
      else Put(s.(stopping := true), t, Reaping(ForRestart(pc.call, s.generation), pc.child))
    case StopTake(t, ok) =>
      if ok then Put(s.(lifecycle := Some(t)), t, StopEntered(At(s, t).generation))
      else Put(s, t, Returned(StopCall, false))
    case StopRead(t) =>
      var goal := ForStop(At(s, t).generation);
      Put(s, t, if s.proc.None? then Settling(goal) else Reaping(goal, s.proc.value))
    case Reap(t, ok) =>
      var pc := At(s, t);
      if ok then Put(MarkReaped(s, pc.child), t, Draining(pc.goal, pc.child))
      else Release(s, t, GoalCall(pc.goal), false)
    case DrainWriter(t, ok) =>
      var pc := At(s, t);
      if ok then Put(s, t, Joining(pc.goal, pc.child)) else Release(s, t, GoalCall(pc.goal), false)
    case JoinReaders(t, ok) =>
      var pc := At(s, t);
      if ok then Put(s, t, Settling(pc.goal)) else Release(s, t, GoalCall(pc.goal), false)
    case SettleStop(t) =>
      var g := At(s, t).goal.generation;
      Release(s.(proc := None, readers := {}, stopping := if s.generation == g then false else s.stopping),
              t, StopCall, true)
    case SettleRestart(t, l) =>
      // A stop requested meanwhile owns the next transition: launch nothing.
      var goal, down := At(s, t).goal, s.(proc := None, readers := {});
      if s.generation != goal.generation then Release(down, t, goal.call, true)
      else LaunchBy(down.(stopping := false), t, goal.call, l)
    case ChildExits(c) => MarkReaped(s, c)
    case ReaderExits(r) => s.(alive := s.alive - {r})
    case EmitCheck(c) =>
      var child := s.children[c];
      s.(children := s.children[c := child.(parsed := child.parsed + 1,
                                            checked := s.proc == Some(c) && !s.stopping)])
    case EmitPop(c) =>
      var child := s.children[c].(checked := false);
      if s.queue == [] then
        s.(children := s.children[c := child], alive := s.alive - {Reader(c, true)})
      else
        s.(children := s.children[c := child.(delivered := child.delivered + [Delivery(child.parsed - 1, s.queue[0])])],
           queue := s.queue[1..])
  }

  function MarkReaped(s: State, c: nat): State
    requires c < |s.children|
  {
    s.(children := s.children[c := s.children[c].(reaped := true)])
  }

  /** The preview hook refuses a frame when the output has stalled, else records its stamp. */
  function ApplyBeforeWrite(s: State, t: Tid): State
    requires At(s, t).Admitted? && At(s, t).child < |s.children|
  {
    var pc := At(s, t);
    var child := s.children[pc.child];
    if s.preview && |s.queue| >= MAX_STAMPS then ReleaseWrite(s, t, Returned(WriteCall, false))
    else if s.preview then
      Put(s.(queue := s.queue + [pc.stamp],
             children := s.children[pc.child := child.(stamps := child.stamps + [pc.stamp])]),
          t, Writing(pc.child))
    else Put(s, t, Writing(pc.child))
  }

  // ---------- Runs ----------

  ghost predicate Legal(s: State, events: seq<Event>)
    decreases |events|
  {
    events == [] || (Enabled(s, events[0]) && Legal(Apply(s, events[0]), events[1..]))
  }

  function Run(s: State, events: seq<Event>): State
    requires Legal(s, events)
    decreases |events|
  {
    if events == [] then s else Run(Apply(s, events[0]), events[1..])
  }

  /** Whether all owned native work has quiesced. */
  predicate Stopped(s: State) {
    s.proc.None? && s.readers == {} && !s.stopping
  }
}
