/** A retried deactivation that returns normally and still leaves its channel stopping.

  The run: the runtime starts, a client activates the channel, and a frame arrives, which wakes
  the pump.  Before the pump gets to the channel lock, the client deactivates the channel, and
  that succeeds.  It activates the channel again; this time the start fails after creating the
  child, and the stop that should recover cannot kill it.  Now the pump takes the channel lock.
  A deactivation takes the child down, finds the encoder stopped, and waits for the channel lock
  until its five seconds have run out.  The channel is left inactive, with a stopped encoder,
  and stopping.  The next deactivation sees an inactive channel with a stopped encoder, takes
  the early return, and reports success.
 */
module RuntimeRetry {
  import opened Threads
  import E = EncoderProtocol
  import C = Configuration
  import RawFrames
  import opened RuntimeProtocol
  import R = RuntimeRelease

  const OPERATOR := Client(0)
  const PUMP := Pump(0)
  const SETTINGS := C.Settings(C.Host("localhost", true), 5004, 1000000, true, "[]", "{}")
  const FORMAT := RawFrames.Format(true, 16, 16, "rgb8")

  function Begin(): State {
    Initial(SETTINGS, FORMAT, false, true)
  }

  // ---------- Runs ----------

  ghost predicate Reaches(run: seq<Event>, x: State) {
    Legal(Begin(), run) && Run(Begin(), run) == x
  }

  lemma Owns(run: seq<Event>, x: State, e: OwnerEvent) returns (run': seq<Event>, y: State)
    requires Reaches(run, x) && OwnerEnabled(x, OPERATOR, e)
    ensures Reaches(run', y) && y == OwnerDo(x, OPERATOR, e)
  {
    run', y := run + [OwnerStep(OPERATOR, e)], OwnerDo(x, OPERATOR, e);
    R.OneMore(Begin(), run, OwnerStep(OPERATOR, e));
  }

  lemma Calls(run: seq<Event>, x: State, t: Tid, e: CallEvent) returns (run': seq<Event>, y: State)
    requires Reaches(run, x) && CallCan(x, t, e)
    ensures Reaches(run', y) && y == CallDo(x, t, e)
  {
    run', y := run + [CallStep(t, e)], CallDo(x, t, e);
    R.OneMore(Begin(), run, CallStep(t, e));
  }

  lemma Steps(run: seq<Event>, x: State, t: Tid, e: LocalEvent) returns (run': seq<Event>, y: State)
    requires Reaches(run, x) && LocalCan(x, t, e)
    ensures Reaches(run', y) && y == LocalDo(x, t, e)
  {
    run', y := run + [ChannelStep(t, e)], LocalDo(x, t, e);
    R.OneMore(Begin(), run, ChannelStep(t, e));
  }

  lemma Runs(run: seq<Event>, x: State, e: E.Event) returns (run': seq<Event>, y: State)
    requires Reaches(run, x) && EncoderCan(x, 0, e)
    ensures Reaches(run', y) && y == EncoderDo(x, 0, e)
  {
    run', y := run + [EncoderStep(0, e)], EncoderDo(x, 0, e);
    R.OneMore(Begin(), run, EncoderStep(0, e));
  }

  // ---------- What a state of the run looks like ----------

  /** The encoder, with the operator at `pc` in it; `live`: its child is not reaped. */
  datatype Encoder = Encoder(
    pc: E.Pc, proc: Option<nat>, count: nat, live: bool, stopping: bool, generation: nat,
    lifecycle: Option<Tid>, readers: set<E.Reader>, alive: set<E.Reader>)

  datatype View = View(
    operator: Pc, pump: Pc, active: bool, stopping: bool, transition: Option<Tid>, lock: Option<Tid>, encoder: Encoder,
    started: bool := true)

  /** All but the write lock. */
  predicate Matches(enc: E.State, w: Encoder) {
    && E.At(enc, OPERATOR) == w.pc && enc.proc == w.proc && |enc.children| == w.count
    && (w.proc.Some? ==> w.proc.value < w.count && enc.children[w.proc.value].reaped == !w.live)
    && enc.stopping == w.stopping && enc.generation == w.generation && enc.lifecycle == w.lifecycle
    && enc.readers == w.readers && enc.alive == w.alive && !enc.preview
  }

  predicate Shows(enc: E.State, w: Encoder) {
    Matches(enc, w) && enc.writeLock.None?
  }

  /** All but the encoder. */
  predicate Around(s: State, v: View) {
    && |s.channels| == 1 && s.format == FORMAT
    && s.g.started == v.started && !s.g.closing && !s.g.pumpStop && s.g.owner.None?
    && At(s, OPERATOR) == v.operator && At(s, PUMP) == v.pump
    && var ch := s.channels[0];
       && ch.active == v.active && ch.stopping == v.stopping
       && ch.transition == v.transition && ch.lock == v.lock
  }

  predicate Seen(s: State, v: View) {
    Around(s, v) && Shows(s.channels[0].encoder, v.encoder)
  }

  function Switch(active: bool, at: SwitchPoint): Pc {
    Switching(0, active, Demand, at)
  }

  const RESTING := Encoder(E.Idle, None, 0, false, false, 0, None, {}, {})

  // ---------- Starting and stopping ----------

  lemma RuntimeStarts() returns (run: seq<Event>, y: State)
    ensures Reaches(run, y) && Seen(y, View(Idle, Pumping(0, PumpWaiting), false, false, None, None, RESTING))
  {
    run, y := Owns([], Begin(), StartRuntime);
    run, y := Owns(run, y, CreateControl(true));
    run, y := Owns(run, y, StartPump(true));
    run, y := Owns(run, y, StartPump(true));
    run, y := Owns(run, y, Listen(true));
  }

  lemma Asks(run: seq<Event>, x: State, v: View, active: bool) returns (run': seq<Event>, y: State)
    requires Reaches(run, x) && Seen(x, v) && v.operator == Idle && v.transition == None
    ensures Reaches(run', y) && Seen(y, v.(operator := Switch(active, Checking), transition := Some(OPERATOR)))
  {
    run', y := Calls(run, x, OPERATOR, Want(0, active));
    run', y := Steps(run', y, OPERATOR, Activation(TakeTransition));
  }

  lemma Enters(run: seq<Event>, x: State, v: View) returns (run': seq<Event>, y: State)
    requires Reaches(run, x) && Seen(x, v) && v.operator == Switch(true, Checking)
    requires !v.active && !v.stopping && v.lock == None && v.encoder.pc == E.Idle && v.encoder.lifecycle == None
    ensures Reaches(run', y)
    ensures Seen(y, v.(operator := Switch(true, Starting), lock := Some(OPERATOR),
                       encoder := v.encoder.(pc := E.Starting, lifecycle := Some(OPERATOR))))
  {
    run', y := Steps(run, x, OPERATOR, Activation(Check));
    run', y := Claims(run', y, v.(operator := Switch(true, Claiming)));
  }

  lemma Claims(run: seq<Event>, x: State, v: View) returns (run': seq<Event>, y: State)
    requires Reaches(run, x) && Seen(x, v) && v.operator == Switch(true, Claiming)
    requires v.lock == None && v.encoder.pc == E.Idle && v.encoder.lifecycle == None
    ensures Reaches(run', y)
    ensures Seen(y, v.(operator := Switch(true, Starting), lock := Some(OPERATOR),
                       encoder := v.encoder.(pc := E.Starting, lifecycle := Some(OPERATOR))))
  {
    run', y := Steps(run, x, OPERATOR, Activation(ClaimChannel));
    run', y := Steps(run', y, OPERATOR, Activation(CallStart));
  }

  function Launched(w: Encoder, ok: bool): Encoder {
    var r := if ok then {E.Reader(w.count, false)} else {};
    Encoder(E.Returned(E.StartCall, ok), Some(w.count), w.count + 1, true, !ok, w.generation, None, r, r)
  }

  /** The child is created; unless `ok`, recording its reader fails. */
  lemma Launches(run: seq<Event>, x: State, v: View, ok: bool) returns (run': seq<Event>, y: State)
    requires Reaches(run, x) && Seen(x, v) && v.encoder.pc == E.Starting && v.encoder.proc == None
    requires !v.encoder.stopping && v.encoder.readers == {} && v.encoder.alive == {}
    ensures Reaches(run', y) && Seen(y, v.(encoder := Launched(v.encoder, ok)))
  {
    var r := if ok then {E.Reader(v.encoder.count, false)} else {};
    run', y := Runs(run, x, E.StartDecide(OPERATOR, E.NewChild(r, r, ok)));
  }

  lemma StartSucceeds(run: seq<Event>, x: State, v: View) returns (run': seq<Event>, y: State)
    requires Reaches(run, x) && Seen(x, v) && v.operator == Switch(true, Starting)
    requires v.encoder.pc == E.Returned(E.StartCall, true)
    ensures Reaches(run', y)
    ensures Seen(y, v.(operator := Switch(true, Confirming), encoder := v.encoder.(pc := E.Idle)))
  {
    run', y := Steps(run, x, OPERATOR, Activation(StartReturns));
  }

  /** The child is found running. */
  lemma Confirms(run: seq<Event>, x: State, v: View) returns (run': seq<Event>, y: State)
    requires Reaches(run, x) && Seen(x, v) && v.operator == Switch(true, Confirming)
    requires v.encoder.proc.Some? && v.encoder.live
    ensures Reaches(run', y) && Seen(y, v.(operator := Switch(true, Committing)))
  {
    run', y := Steps(run, x, OPERATOR, Activation(Confirm));
  }

  lemma Activates(run: seq<Event>, x: State, v: View) returns (run': seq<Event>, y: State)
    requires Reaches(run, x) && Seen(x, v) && v.operator == Switch(true, Committing)
    ensures Reaches(run', y) && Seen(y, v.(operator := Idle, active := true, transition := None, lock := None))
  {
    run', y := Steps(run, x, OPERATOR, Activation(Commit));
    run', y := Calls(run', y, OPERATOR, Resume);
  }

  /** A frame arrives. */
  lemma Arrives(run: seq<Event>, x: State, v: View) returns (run': seq<Event>, y: State)
    requires Reaches(run, x) && Seen(x, v) && v.active && !v.stopping
    ensures Reaches(run', y) && Seen(y, v) && y.channels[0].pending != []
  {
    var jpeg := RawFrames.CompressedMessage([0xFF, 0xD8, 0xFF, 0xD9], RawFrames.Jpeg(16, 16), true);
    var submission := RawFrames.Submitted(FORMAT, jpeg);
    assert Genuine(x.format, submission) && submission.Queued?;
    R.OneMore(Begin(), run, Submit(submission, 1));
    run', y := run + [Submit(submission, 1)], Accept(x, submission, 1);
  }

  /** It wakes the pump, which goes on to wait for the channel lock. */
  lemma Wakes(run: seq<Event>, x: State, v: View) returns (run': seq<Event>, y: State)
    requires Reaches(run, x) && Seen(x, v) && v.active && !v.stopping && v.pump == Pumping(0, PumpWaiting)
    requires x.channels[0].pending != []
    ensures Reaches(run', y) && Seen(y, v.(pump := Pumping(0, PumpClaiming)))
    ensures y.channels[0].pending == x.channels[0].pending
  {
    run', y := Steps(run, x, PUMP, Delivery(PumpWake));
  }

  /** A deactivation begins. */
  lemma Mutes(run: seq<Event>, x: State, v: View) returns (run': seq<Event>, y: State)
    requires Reaches(run, x) && Seen(x, v) && v.operator == Switch(false, Checking) && v.encoder.proc.Some?
    ensures Reaches(run', y) && Seen(y, v.(operator := Switch(false, Muted), stopping := true))
  {
    run', y := Steps(run, x, OPERATOR, Activation(Check));
    run', y := Steps(run', y, OPERATOR, Deactivation(Mute));
  }

  function Asked(w: Encoder): Encoder {
    w.(pc := E.StopWaiting(w.generation + 1), generation := w.generation + 1, stopping := true)
  }

  lemma AskedShows(enc: E.State, w: Encoder)
    requires Shows(enc, w)
    ensures Shows(E.BeginStop(enc, OPERATOR), Asked(w))
  {
  }

  /** It asks the encoder to stop. */
  lemma Silences(run: seq<Event>, x: State, v: View) returns (run': seq<Event>, y: State)
    requires Reaches(run, x) && Seen(x, v) && v.operator == Switch(false, Muted) && v.encoder.pc == E.Idle
    ensures Reaches(run', y) && Seen(y, v.(operator := Switch(false, Silencing), encoder := Asked(v.encoder)))
  {
    AskedShows(x.channels[0].encoder, v.encoder);
    run', y := Steps(run, x, OPERATOR, Deactivation(CallSilence));
  }

  /** A stop takes the lifecycle lock. */
  lemma Takes(run: seq<Event>, x: State, v: View) returns (run': seq<Event>, y: State)
    requires Reaches(run, x) && Seen(x, v) && v.encoder.pc == E.StopWaiting(v.encoder.generation)
    requires v.encoder.lifecycle == None
    ensures Reaches(run', y)
    ensures Seen(y, v.(encoder := v.encoder.(pc := E.StopEntered(v.encoder.generation), lifecycle := Some(OPERATOR))))
  {
    run', y := Runs(run, x, E.StopTake(OPERATOR, true));
  }

  /** It finds the child. */
  lemma Finds(run: seq<Event>, x: State, v: View) returns (run': seq<Event>, y: State)
    requires Reaches(run, x) && Seen(x, v) && v.encoder.pc == E.StopEntered(v.encoder.generation)
    requires v.encoder.proc.Some?
    ensures Reaches(run', y)
    ensures Seen(y, v.(encoder := v.encoder.(pc := E.Reaping(E.ForStop(v.encoder.generation), v.encoder.proc.value))))
  {
    run', y := Runs(run, x, E.StopRead(OPERATOR));
  }

  lemma Reaps(run: seq<Event>, x: State, v: View) returns (run': seq<Event>, y: State)
    requires Reaches(run, x) && Seen(x, v) && v.encoder.proc.Some?
    requires v.encoder.pc == E.Reaping(E.ForStop(v.encoder.generation), v.encoder.proc.value)
    ensures Reaches(run', y)
    ensures Seen(y, v.(encoder := v.encoder.(pc := E.Draining(E.ForStop(v.encoder.generation), v.encoder.proc.value),
                                             live := false)))
  {
    run', y := Runs(run, x, E.Reap(OPERATOR, true));
  }

  /** No writer is left. */
  lemma Drains(run: seq<Event>, x: State, v: View) returns (run': seq<Event>, y: State)
    requires Reaches(run, x) && Seen(x, v) && v.encoder.proc.Some?
    requires v.encoder.pc == E.Draining(E.ForStop(v.encoder.generation), v.encoder.proc.value)
    ensures Reaches(run', y)
    ensures Seen(y, v.(encoder := v.encoder.(pc := E.Joining(E.ForStop(v.encoder.generation), v.encoder.proc.value))))
  {
    run', y := Runs(run, x, E.DrainWriter(OPERATOR, true));
  }

  /** The reader of its errors ends, if there is one. */
  lemma ReaderEnds(run: seq<Event>, x: State, v: View, r: E.Reader) returns (run': seq<Event>, y: State)
    requires Reaches(run, x) && Seen(x, v) && (v.encoder.alive == {} || v.encoder.alive == {r}) && !r.output
    ensures Reaches(run', y) && Seen(y, v.(encoder := v.encoder.(alive := {})))
  {
    if v.encoder.alive == {} {
      run', y := run, x;
    } else {
      run', y := Runs(run, x, E.ReaderExits(r));
    }
  }

  lemma Joins(run: seq<Event>, x: State, v: View) returns (run': seq<Event>, y: State)
    requires Reaches(run, x) && Seen(x, v) && v.encoder.proc.Some? && v.encoder.alive == {}
    requires v.encoder.pc == E.Joining(E.ForStop(v.encoder.generation), v.encoder.proc.value)
    ensures Reaches(run', y)
    ensures Seen(y, v.(encoder := v.encoder.(pc := E.Settling(E.ForStop(v.encoder.generation)))))
  {
    run', y := Runs(run, x, E.JoinReaders(OPERATOR, true));
  }

  function Down(w: Encoder): Encoder {
    w.(pc := E.Returned(E.StopCall, true), proc := None, stopping := false, lifecycle := None, readers := {})
  }

  /** The stop returns normally. */
  lemma Settles(run: seq<Event>, x: State, v: View) returns (run': seq<Event>, y: State)
    requires Reaches(run, x) && Seen(x, v) && v.encoder.pc == E.Settling(E.ForStop(v.encoder.generation))
    ensures Reaches(run', y) && Seen(y, v.(encoder := Down(v.encoder)))
  {
    run', y := Runs(run, x, E.SettleStop(OPERATOR));
  }

  lemma Returns(run: seq<Event>, x: State, v: View) returns (run': seq<Event>, y: State)
    requires Reaches(run, x) && Seen(x, v) && v.operator == Switch(false, Silencing)
    requires v.encoder.pc == E.Returned(E.StopCall, true)
    ensures Reaches(run', y)
    ensures Seen(y, v.(operator := Switch(false, Verifying), encoder := v.encoder.(pc := E.Idle)))
  {
    run', y := Steps(run, x, OPERATOR, Deactivation(SilenceReturns));
  }

  /** The encoder is found stopped. */
  lemma Verifies(run: seq<Event>, x: State, v: View) returns (run': seq<Event>, y: State)
    requires Reaches(run, x) && Seen(x, v) && v.operator == Switch(false, Verifying)
    requires v.encoder.proc == None && !v.encoder.stopping && v.encoder.readers == {}
    ensures Reaches(run', y) && Seen(y, v.(operator := Switch(false, Draining)))
  {
    run', y := Steps(run, x, OPERATOR, Deactivation(Verify));
  }

  /** The lifecycle lock is taken and the child is down. */
  lemma TakesDown(run: seq<Event>, x: State, v: View) returns (run': seq<Event>, y: State)
    requires Reaches(run, x) && Seen(x, v) && v.encoder.pc == E.StopWaiting(v.encoder.generation)
    requires v.encoder.lifecycle == None && v.encoder.proc.Some?
    ensures Reaches(run', y)
    ensures Seen(y, v.(encoder := Closing(v.encoder)))
  {
    var g, k := v.encoder.generation, v.encoder.proc.value;
    run', y := Takes(run, x, v);
    var w := v.(encoder := v.encoder.(pc := E.StopEntered(g), lifecycle := Some(OPERATOR)));
    run', y := Finds(run', y, w);
    w := w.(encoder := w.encoder.(pc := E.Reaping(E.ForStop(g), k)));
    run', y := Reaps(run', y, w);
    w := w.(encoder := w.encoder.(pc := E.Draining(E.ForStop(g), k), live := false));
    run', y := Drains(run', y, w);
  }

  function Closing(w: Encoder): Encoder
    requires w.proc.Some?
  {
    w.(pc := E.Joining(E.ForStop(w.generation), w.proc.value), live := false, lifecycle := Some(OPERATOR))
  }

  /** The readers are joined, and the stop returns. */
  lemma Completes(run: seq<Event>, x: State, v: View) returns (run': seq<Event>, y: State)
    requires Reaches(run, x) && Seen(x, v) && v.operator == Switch(false, Silencing)
    requires v.encoder.proc.Some? && v.encoder.alive == {}
    requires v.encoder.pc == E.Joining(E.ForStop(v.encoder.generation), v.encoder.proc.value)
    ensures Reaches(run', y)
    ensures Seen(y, v.(operator := Switch(false, Draining), encoder := Down(v.encoder).(pc := E.Idle)))
  {
    run', y := Joins(run, x, v);
    var w := v.(encoder := v.encoder.(pc := E.Settling(E.ForStop(v.encoder.generation))));
    run', y := Settles(run', y, w);
    w := w.(encoder := Down(w.encoder));
    run', y := Returns(run', y, w);
    w := w.(operator := Switch(false, Verifying), encoder := w.encoder.(pc := E.Idle));
    run', y := Verifies(run', y, w);
  }

  /** The whole stop of a child, up to the wait for the channel lock. */
  lemma StopsChild(run: seq<Event>, x: State, v: View) returns (run': seq<Event>, y: State)
    requires Reaches(run, x) && Seen(x, v) && v.operator == Switch(false, Checking)
    requires v.encoder.proc.Some? && v.encoder.pc == E.Idle && v.encoder.lifecycle == None
    requires v.encoder.alive == {} || v.encoder.alive == {E.Reader(v.encoder.proc.value, false)}
    ensures Reaches(run', y)
    ensures Seen(y, v.(operator := Switch(false, Draining), stopping := true, encoder := Stopped(v.encoder)))
  {
    run', y := Mutes(run, x, v);
    var w := v.(operator := Switch(false, Muted), stopping := true);
    run', y := Silences(run', y, w);
    w := w.(operator := Switch(false, Silencing), encoder := Asked(v.encoder));
    run', y := TakesDown(run', y, w);
    w := w.(encoder := Closing(w.encoder));
    run', y := ReaderEnds(run', y, w, E.Reader(v.encoder.proc.value, false));
    w := w.(encoder := w.encoder.(alive := {}));
    run', y := Completes(run', y, w);
  }

  function Stopped(w: Encoder): Encoder {
    w.(pc := E.Idle, proc := None, live := false, stopping := false, generation := w.generation + 1,
       lifecycle := None, readers := {}, alive := {})
  }

  lemma Deactivates(run: seq<Event>, x: State, v: View) returns (run': seq<Event>, y: State)
    requires Reaches(run, x) && Seen(x, v) && v.operator == Switch(false, Draining) && v.lock == None
    ensures Reaches(run', y)
    ensures Seen(y, v.(operator := Switched(0, Demand, true), active := false, stopping := false, transition := None))
  {
    run', y := Steps(run, x, OPERATOR, Deactivation(DrainChannel(true)));
    run', y := Steps(run', y, OPERATOR, Deactivation(Deactivate));
  }

  /** The consumer's request returns. */
  lemma Resumes(run: seq<Event>, x: State, v: View) returns (run': seq<Event>, y: State)
    requires Reaches(run, x) && Seen(x, v) && v.operator.Switched? && v.operator.task == Demand
    ensures Reaches(run', y) && Seen(y, v.(operator := Idle))
  {
    run', y := Calls(run, x, OPERATOR, Resume);
  }

  lemma StartFails(run: seq<Event>, x: State, v: View) returns (run': seq<Event>, y: State)
    requires Reaches(run, x) && Seen(x, v) && v.operator == Switch(true, Starting)
    requires v.encoder.pc == E.Returned(E.StartCall, false)
    ensures Reaches(run', y) && Seen(y, v.(operator := Switch(true, Failing), encoder := v.encoder.(pc := E.Idle)))
  {
    run', y := Steps(run, x, OPERATOR, Activation(StartReturns));
  }

  /** A failed start asks its child to stop. */
  lemma Recovers(run: seq<Event>, x: State, v: View) returns (run': seq<Event>, y: State)
    requires Reaches(run, x) && Seen(x, v) && v.operator == Switch(true, Failing) && v.encoder.pc == E.Idle
    ensures Reaches(run', y) && Seen(y, v.(operator := Switch(true, Recovering), encoder := Asked(v.encoder)))
  {
    AskedShows(x.channels[0].encoder, v.encoder);
    run', y := Steps(run, x, OPERATOR, Activation(CallRecovery));
  }

  /** The child cannot be killed in time. */
  lemma KillFails(run: seq<Event>, x: State, v: View) returns (run': seq<Event>, y: State)
    requires Reaches(run, x) && Seen(x, v) && v.encoder.proc.Some?
    requires v.encoder.pc == E.Reaping(E.ForStop(v.encoder.generation), v.encoder.proc.value)
    ensures Reaches(run', y)
    ensures Seen(y, v.(encoder := v.encoder.(pc := E.Returned(E.StopCall, false), lifecycle := None)))
  {
    run', y := Runs(run, x, E.Reap(OPERATOR, false));
  }

  /** The activation fails. */
  lemma GivesUp(run: seq<Event>, x: State, v: View) returns (run': seq<Event>, y: State)
    requires Reaches(run, x) && Seen(x, v) && v.operator == Switch(true, Recovering)
    requires v.encoder.pc == E.Returned(E.StopCall, false)
    ensures Reaches(run', y)
    ensures Seen(y, v.(operator := Switched(0, Demand, false), transition := None, lock := None,
                       encoder := v.encoder.(pc := E.Idle)))
  {
    run', y := Steps(run, x, OPERATOR, Activation(RecoveryReturns));
  }

  lemma PumpHolds(run: seq<Event>, x: State, v: View) returns (run': seq<Event>, y: State)
    requires Reaches(run, x) && Seen(x, v) && v.pump == Pumping(0, PumpClaiming) && v.lock == None
    ensures Reaches(run', y) && Seen(y, v.(pump := Pumping(0, PumpHolding), lock := Some(PUMP)))
    ensures y.channels[0].pending == x.channels[0].pending
  {
    run', y := Steps(run, x, PUMP, Delivery(PumpClaim));
  }

  /** The wait for the channel lock runs out while the pump holds it. */
  lemma DrainFails(run: seq<Event>, x: State, v: View) returns (run': seq<Event>, y: State)
    requires Reaches(run, x) && Seen(x, v) && v.operator == Switch(false, Draining) && v.lock == Some(PUMP)
    ensures Reaches(run', y) && Seen(y, v.(operator := Idle, transition := None))
  {
    run', y := Steps(run, x, OPERATOR, Deactivation(DrainChannel(false)));
    run', y := Calls(run', y, OPERATOR, Resume);
  }

  // ---------- The run ----------

  function Quiet(pump: PumpPoint, stopping: bool, lock: Option<Tid>, w: Encoder): View {
    View(Idle, Pumping(0, pump), false, stopping, None, lock, w)
  }

  /** The encoder with its first child, while nobody is inside it. */
  const BUSY := Launched(RESTING.(pc := E.Starting), true).(pc := E.Idle)

  /** A channel is activated from rest. */
  lemma TurnsOn(run: seq<Event>, x: State, v: View) returns (run': seq<Event>, y: State)
    requires Reaches(run, x) && Seen(x, v) && v.operator == Idle && v.transition == None && v.lock == None
    requires !v.active && !v.stopping && v.encoder.pc == E.Idle && v.encoder.lifecycle == None
    requires v.encoder.proc == None && !v.encoder.stopping && v.encoder.readers == {} && v.encoder.alive == {}
    ensures Reaches(run', y)
    ensures Seen(y, v.(active := true, encoder := Launched(v.encoder, true).(pc := E.Idle)))
  {
    run', y := Asks(run, x, v, true);
    var w := v.(operator := Switch(true, Checking), transition := Some(OPERATOR));
    run', y := Enters(run', y, w);
    w := w.(operator := Switch(true, Starting), lock := Some(OPERATOR),
            encoder := v.encoder.(pc := E.Starting, lifecycle := Some(OPERATOR)));
    run', y := Launches(run', y, w, true);
    w := w.(encoder := Launched(w.encoder, true));
    run', y := StartSucceeds(run', y, w);
    w := w.(operator := Switch(true, Confirming), encoder := w.encoder.(pc := E.Idle));
    run', y := Confirms(run', y, w);
    w := w.(operator := Switch(true, Committing));
    run', y := Activates(run', y, w);
  }

  /** A channel with a child is deactivated. */
  lemma TurnsOff(run: seq<Event>, x: State, v: View) returns (run': seq<Event>, y: State)
    requires Reaches(run, x) && Seen(x, v) && v.operator == Idle && v.transition == None && v.lock == None
    requires v.encoder.pc == E.Idle && v.encoder.lifecycle == None && v.encoder.proc.Some?
    requires v.encoder.alive == {} || v.encoder.alive == {E.Reader(v.encoder.proc.value, false)}
    ensures Reaches(run', y)
    ensures Seen(y, v.(active := false, stopping := false, encoder := Stopped(v.encoder)))
  {
    run', y := Asks(run, x, v, false);
    var w := v.(operator := Switch(false, Checking), transition := Some(OPERATOR));
    run', y := StopsChild(run', y, w);
    w := w.(operator := Switch(false, Draining), stopping := true, encoder := Stopped(v.encoder));
    run', y := Deactivates(run', y, w);
    w := w.(operator := Switched(0, Demand, true), active := false, stopping := false, transition := None);
    run', y := Resumes(run', y, w);
  }

  /** A frame for a freshly activated channel wakes the pump. */
  lemma FrameWakesPump() returns (run: seq<Event>, y: State)
    ensures Reaches(run, y) && Seen(y, View(Idle, Pumping(0, PumpClaiming), true, false, None, None, BUSY))
    ensures y.channels[0].pending != []
  {
    run, y := RuntimeStarts();
    run, y := TurnsOn(run, y, Quiet(PumpWaiting, false, None, RESTING));
    var v := View(Idle, Pumping(0, PumpWaiting), true, false, None, None, BUSY);
    run, y := Arrives(run, y, v);
    run, y := Wakes(run, y, v);
  }

  /** The channel is deactivated before the pump goes on. */
  lemma PumpIsWoken() returns (run: seq<Event>, y: State)
    ensures Reaches(run, y)
    ensures Seen(y, Quiet(PumpClaiming, false, None, Encoder(E.Idle, None, 1, false, false, 1, None, {}, {})))
  {
    run, y := FrameWakesPump();
    run, y := TurnsOff(run, y, View(Idle, Pumping(0, PumpClaiming), true, false, None, None, BUSY));
  }

  /** An activation fails and leaves a child that could not be killed. */
  lemma ActivationFails() returns (run: seq<Event>, y: State)
    ensures Reaches(run, y)
    ensures Seen(y, Quiet(PumpClaiming, false, None, Encoder(E.Idle, Some(1), 2, true, true, 2, None, {}, {})))
  {
    run, y := PumpIsWoken();
    var v := Quiet(PumpClaiming, false, None, Encoder(E.Idle, None, 1, false, false, 1, None, {}, {}));
    run, y := Asks(run, y, v, true);
    v := v.(operator := Switch(true, Checking), transition := Some(OPERATOR));
    run, y := Enters(run, y, v);
    v := v.(operator := Switch(true, Starting), lock := Some(OPERATOR),
            encoder := v.encoder.(pc := E.Starting, lifecycle := Some(OPERATOR)));
    run, y := Launches(run, y, v, false);
    v := v.(encoder := Launched(v.encoder, false));
    run, y := StartFails(run, y, v);
    v := v.(operator := Switch(true, Failing), encoder := v.encoder.(pc := E.Idle));
    run, y := Recovers(run, y, v);
    v := v.(operator := Switch(true, Recovering), encoder := Asked(v.encoder));
    run, y := Takes(run, y, v);
    v := v.(encoder := v.encoder.(pc := E.StopEntered(2), lifecycle := Some(OPERATOR)));
    run, y := Finds(run, y, v);
    v := v.(encoder := v.encoder.(pc := E.Reaping(E.ForStop(2), 1)));
    run, y := KillFails(run, y, v);
    v := v.(encoder := v.encoder.(pc := E.Returned(E.StopCall, false), lifecycle := None));
    run, y := GivesUp(run, y, v);
    v := v.(operator := Switched(0, Demand, false), transition := None, lock := None,
            encoder := v.encoder.(pc := E.Idle));
    run, y := Resumes(run, y, v);
  }

  /** A deactivation stops it, but cannot get the channel lock from the pump. */
  lemma DeactivationFails() returns (run: seq<Event>, y: State)
    ensures Reaches(run, y)
    ensures Seen(y, Quiet(PumpHolding, true, Some(PUMP), Encoder(E.Idle, None, 2, false, false, 3, None, {}, {})))
  {
    run, y := ActivationFails();
    var v := Quiet(PumpClaiming, false, None, Encoder(E.Idle, Some(1), 2, true, true, 2, None, {}, {}));
    run, y := PumpHolds(run, y, v);
    v := v.(pump := Pumping(0, PumpHolding), lock := Some(PUMP));
    run, y := Asks(run, y, v, false);
    v := v.(operator := Switch(false, Checking), transition := Some(OPERATOR));
    run, y := StopsChild(run, y, v);
    v := v.(operator := Switch(false, Draining), stopping := true,
            encoder := Encoder(E.Idle, None, 2, false, false, 3, None, {}, {}));
    run, y := DrainFails(run, y, v);
  }

  /** A retry after a failed deactivation can return normally and leave the channel stopping:
      it finds the channel inactive and its encoder stopped. */
  lemma RetryLeavesStopping() returns (run: seq<Event>, s: State)
    ensures Legal(Begin(), run) && Run(Begin(), run) == s
    ensures At(s, OPERATOR) == Switch(false, Checking) && LocalCan(s, OPERATOR, Activation(Check))
    ensures var s' := LocalDo(s, OPERATOR, Activation(Check));
            At(s', OPERATOR) == Switched(0, Demand, true) && |s'.channels| == 1 && s'.channels[0].stopping
  {
    run, s := DeactivationFails();
    var v := Quiet(PumpHolding, true, Some(PUMP), Encoder(E.Idle, None, 2, false, false, 3, None, {}, {}));
    run, s := Asks(run, s, v, false);
  }
}
