/** An active channel of a started runtime that has no pump.

  The run: a frame wakes the pump of an active channel, and the pump takes the channel lock and
  hands the frame to the encoder.  The write fails.  The pump thread, still inside the encoder,
  takes the lifecycle lock and begins a restart, but the child cannot be killed in time, so the
  write comes back with a failure.  The pump tries to set its channel inactive; the encoder's
  stop cannot kill the child either.  The pump thread ends, and the channel stays active and
  stopping.  Later a client deactivates the channel.  That stop succeeds, the channel is at rest,
  and the client activates it again: the channel is active with a running encoder, in a runtime
  that is started and not closing, and nothing starts a pump for it.
 */
module RuntimeLostPump {
  import opened Threads
  import E = EncoderProtocol
  import opened RuntimeProtocol
  import opened RuntimeInvariant
  import opened RuntimeRetry
  import P = RuntimePumps
  import R = RuntimeRelease

  // ---------- What a state of the run looks like ----------

  /** The pump is at `at` in the encoder; `writer` holds its write lock. */
  predicate Shown(s: State, v: View, at: E.Pc, writer: Option<Tid>) {
    && Around(s, v) && Matches(s.channels[0].encoder, v.encoder)
    && E.At(s.channels[0].encoder, PUMP) == at && s.channels[0].encoder.writeLock == writer
  }

  lemma PumpIsOutside(run: seq<Event>, x: State, v: View)
    requires Reaches(run, x) && Seen(x, v) && InsideAt(v.pump, 0) == None
    ensures Shown(x, v, E.Idle, None)
  {
    R.InitialInv(SETTINGS, FORMAT, false, true);
    R.RunKeepsInv(Begin(), run);
    ConsistentIsFine(x, PUMP, 0);
  }

  /** The runtime is up, so a pump that is not there is missing. */
  lemma IsStaffing(run: seq<Event>, x: State, v: View)
    requires Reaches(run, x) && Seen(x, v) && v.started
    ensures P.Staffing(x, 0)
  {
    R.InitialInv(SETTINGS, FORMAT, false, true);
    R.RunKeepsInv(Begin(), run);
    OwnerlessIsStaffing(x);
  }

  lemma OwnerlessIsStaffing(x: State)
    requires Consistent(x) && x.g.started && !x.g.closing && x.g.owner.None?
    ensures P.Staffing(x, 0)
  {
    forall t ensures !P.Unstaffed(At(x, t), 0) { assert Owned(x.g, t, At(x, t)); }
  }

  // ---------- The write fails ----------

  lemma TakesFrame(run: seq<Event>, x: State, v: View) returns (run': seq<Event>, y: State, stamp: int)
    requires Reaches(run, x) && Shown(x, v, E.Idle, None) && v.pump == Pumping(0, PumpHolding)
    requires v.active && !v.stopping && x.channels[0].pending != []
    ensures Reaches(run', y) && Shown(y, v.(pump := Pumping(0, PumpWriting)), E.AtWriteLock(stamp), None)
  {
    stamp := x.channels[0].pending[0].stamp;
    run', y := Steps(run, x, PUMP, Delivery(PumpTake));
  }

  lemma TakesWriteLock(run: seq<Event>, x: State, v: View, stamp: int) returns (run': seq<Event>, y: State)
    requires Reaches(run, x) && Shown(x, v, E.AtWriteLock(stamp), None)
    ensures Reaches(run', y) && Shown(y, v, E.WriteEntered(stamp), Some(PUMP))
  {
    run', y := Runs(run, x, E.TakeWriteLock(PUMP));
  }

  lemma IsAdmitted(run: seq<Event>, x: State, v: View, stamp: int) returns (run': seq<Event>, y: State)
    requires Reaches(run, x) && Shown(x, v, E.WriteEntered(stamp), Some(PUMP))
    requires v.encoder.proc.Some? && !v.encoder.stopping
    ensures Reaches(run', y) && Shown(y, v, E.Admitted(v.encoder.proc.value, stamp), Some(PUMP))
  {
    run', y := Runs(run, x, E.Admit(PUMP));
  }

  lemma GoesAhead(run: seq<Event>, x: State, v: View, child: nat, stamp: int) returns (run': seq<Event>, y: State)
    requires Reaches(run, x) && Shown(x, v, E.Admitted(child, stamp), Some(PUMP)) && child < v.encoder.count
    ensures Reaches(run', y) && Shown(y, v, E.Writing(child), Some(PUMP))
  {
    run', y := Runs(run, x, E.BeforeWrite(PUMP));
  }

  lemma WriteBreaks(run: seq<Event>, x: State, v: View, child: nat) returns (run': seq<Event>, y: State)
    requires Reaches(run, x) && Shown(x, v, E.Writing(child), Some(PUMP)) && child < v.encoder.count
    ensures Reaches(run', y) && Shown(y, v, E.WriteFailed(child), None)
  {
    run', y := Runs(run, x, E.WriteFrame(PUMP, false));
  }

  // ---------- The restart fails ----------

  lemma TakesLifecycle(run: seq<Event>, x: State, v: View, child: nat) returns (run': seq<Event>, y: State)
    requires Reaches(run, x) && Shown(x, v, E.WriteFailed(child), None) && v.encoder.lifecycle == None
    ensures Reaches(run', y)
    ensures Shown(y, v.(encoder := v.encoder.(lifecycle := Some(PUMP))), E.Restarting(E.WriteCall, child), None)
  {
    run', y := Runs(run, x, E.TakeLifecycle(PUMP));
  }

  lemma Restarts(run: seq<Event>, x: State, v: View, child: nat) returns (run': seq<Event>, y: State)
    requires Reaches(run, x) && Shown(x, v, E.Restarting(E.WriteCall, child), None)
    requires v.encoder.proc == Some(child) && !v.encoder.stopping
    ensures Reaches(run', y)
    ensures Shown(y, v.(encoder := v.encoder.(stopping := true)),
                  E.Reaping(E.ForRestart(E.WriteCall, v.encoder.generation), child), None)
  {
    run', y := Runs(run, x, E.RestartDecide(PUMP));
  }

  /** The child cannot be killed in time. */
  lemma ReapFails(run: seq<Event>, x: State, v: View, goal: E.Goal, child: nat) returns (run': seq<Event>, y: State)
    requires Reaches(run, x) && Shown(x, v, E.Reaping(goal, child), None) && child < v.encoder.count
    ensures Reaches(run', y)
    ensures Shown(y, v.(encoder := v.encoder.(lifecycle := None)), E.Returned(E.GoalCall(goal), false), None)
  {
    run', y := Runs(run, x, E.Reap(PUMP, false));
  }

  // ---------- The pump cannot set its channel inactive ----------

  lemma WriteReturns(run: seq<Event>, x: State, v: View) returns (run': seq<Event>, y: State)
    requires Reaches(run, x) && Shown(x, v, E.Returned(E.WriteCall, false), None) && v.pump == Pumping(0, PumpWriting)
    ensures Reaches(run', y)
    ensures Shown(y, v.(pump := Switching(0, false, PumpFault, Wanting), lock := None), E.Idle, None)
  {
    run', y := Steps(run, x, PUMP, Delivery(PumpReturns));
  }

  lemma Turns(run: seq<Event>, x: State, v: View) returns (run': seq<Event>, y: State)
    requires Reaches(run, x) && Shown(x, v, E.Idle, None) && v.pump == Switching(0, false, PumpFault, Wanting)
    requires v.transition == None && v.active
    ensures Reaches(run', y)
    ensures Shown(y, v.(pump := Switching(0, false, PumpFault, Muting), transition := Some(PUMP)), E.Idle, None)
  {
    run', y := Steps(run, x, PUMP, Activation(TakeTransition));
    run', y := Steps(run', y, PUMP, Activation(Check));
  }

  lemma PumpMutes(run: seq<Event>, x: State, v: View) returns (run': seq<Event>, y: State)
    requires Reaches(run, x) && Shown(x, v, E.Idle, None) && v.pump == Switching(0, false, PumpFault, Muting)
    ensures Reaches(run', y)
    ensures Shown(y, v.(pump := Switching(0, false, PumpFault, Muted), stopping := true), E.Idle, None)
  {
    run', y := Steps(run, x, PUMP, Deactivation(Mute));
  }

  function Halted(w: Encoder): Encoder {
    w.(stopping := true, generation := w.generation + 1)
  }

  lemma HaltedMatches(enc: E.State, w: Encoder)
    requires Matches(enc, w)
    ensures var enc' := E.BeginStop(enc, PUMP);
            Matches(enc', Halted(w)) && E.At(enc', PUMP) == E.StopWaiting(w.generation + 1)
  {
  }

  lemma PumpSilences(run: seq<Event>, x: State, v: View) returns (run': seq<Event>, y: State)
    requires Reaches(run, x) && Shown(x, v, E.Idle, None) && v.pump == Switching(0, false, PumpFault, Muted)
    ensures Reaches(run', y)
    ensures Shown(y, v.(pump := Switching(0, false, PumpFault, Silencing), encoder := Halted(v.encoder)),
                  E.StopWaiting(v.encoder.generation + 1), None)
  {
    HaltedMatches(x.channels[0].encoder, v.encoder);
    run', y := Steps(run, x, PUMP, Deactivation(CallSilence));
    assert y.channels[0].encoder == E.BeginStop(x.channels[0].encoder, PUMP);
  }

  lemma StopEnters(run: seq<Event>, x: State, v: View, g: nat) returns (run': seq<Event>, y: State)
    requires Reaches(run, x) && Shown(x, v, E.StopWaiting(g), None) && v.encoder.lifecycle == None
    ensures Reaches(run', y)
    ensures Shown(y, v.(encoder := v.encoder.(lifecycle := Some(PUMP))), E.StopEntered(g), None)
  {
    run', y := Runs(run, x, E.StopTake(PUMP, true));
  }

  lemma StopFinds(run: seq<Event>, x: State, v: View, g: nat) returns (run': seq<Event>, y: State)
    requires Reaches(run, x) && Shown(x, v, E.StopEntered(g), None) && v.encoder.proc.Some?
    ensures Reaches(run', y) && Shown(y, v, E.Reaping(E.ForStop(g), v.encoder.proc.value), None)
  {
    run', y := Runs(run, x, E.StopRead(PUMP));
  }

  lemma StopFails(run: seq<Event>, x: State, v: View) returns (run': seq<Event>, y: State)
    requires Reaches(run, x) && Shown(x, v, E.Returned(E.StopCall, false), None)
    requires v.pump == Switching(0, false, PumpFault, Silencing)
    ensures Reaches(run', y)
    ensures Shown(y, v.(pump := Switched(0, PumpFault, false), transition := None), E.Idle, None)
  {
    run', y := Steps(run, x, PUMP, Deactivation(SilenceReturns));
  }

  lemma Ends(run: seq<Event>, x: State, v: View) returns (run': seq<Event>, y: State)
    requires Reaches(run, x) && Shown(x, v, E.Idle, None) && v.pump == Switched(0, PumpFault, false)
    ensures Reaches(run', y) && Seen(y, v.(pump := Idle))
  {
    run', y := Calls(run, x, PUMP, Resume);
  }

  // ---------- The run ----------

  const WRITING := View(Idle, Pumping(0, PumpWriting), true, false, None, Some(PUMP), BUSY)

  /** What a failed restart leaves of the encoder. */
  const STUCK := BUSY.(stopping := true)

  const STOPPING := View(Idle, Switching(0, false, PumpFault, Silencing), true, true, Some(PUMP), None, Halted(STUCK))

  lemma WriteFails() returns (run: seq<Event>, y: State)
    ensures Reaches(run, y) && Shown(y, WRITING, E.WriteFailed(0), None)
  {
    run, y := FrameWakesPump();
    var v := View(Idle, Pumping(0, PumpClaiming), true, false, None, None, BUSY);
    run, y := PumpHolds(run, y, v);
    v := v.(pump := Pumping(0, PumpHolding), lock := Some(PUMP));
    PumpIsOutside(run, y, v);
    var stamp;
    run, y, stamp := TakesFrame(run, y, v);
    run, y := TakesWriteLock(run, y, WRITING, stamp);
    run, y := IsAdmitted(run, y, WRITING, stamp);
    run, y := GoesAhead(run, y, WRITING, 0, stamp);
    run, y := WriteBreaks(run, y, WRITING, 0);
  }

  lemma RestartFails() returns (run: seq<Event>, y: State)
    ensures Reaches(run, y)
    ensures Shown(y, View(Idle, Switching(0, false, PumpFault, Wanting), true, false, None, None, STUCK), E.Idle, None)
  {
    run, y := WriteFails();
    run, y := TakesLifecycle(run, y, WRITING, 0);
    var v := WRITING.(encoder := BUSY.(lifecycle := Some(PUMP)));
    run, y := Restarts(run, y, v, 0);
    v := v.(encoder := v.encoder.(stopping := true));
    run, y := ReapFails(run, y, v, E.ForRestart(E.WriteCall, 0), 0);
    run, y := WriteReturns(run, y, WRITING.(encoder := STUCK));
  }

  const MUTING := View(Idle, Switching(0, false, PumpFault, Muting), true, false, Some(PUMP), None, STUCK)

  /** The pump turns to setting its channel inactive. */
  lemma PumpTurns() returns (run: seq<Event>, y: State)
    ensures Reaches(run, y) && Shown(y, MUTING, E.Idle, None)
  {
    run, y := RestartFails();
    run, y := Turns(run, y, View(Idle, Switching(0, false, PumpFault, Wanting), true, false, None, None, STUCK));
  }

  /** It asks the encoder to stop. */
  lemma PumpStops() returns (run: seq<Event>, y: State)
    ensures Reaches(run, y) && Shown(y, STOPPING, E.StopWaiting(1), None)
  {
    run, y := PumpTurns();
    run, y := PumpMutes(run, y, MUTING);
    run, y := PumpSilences(run, y, MUTING.(pump := Switching(0, false, PumpFault, Muted), stopping := true));
  }

  /** The stop fails, and the pump thread ends; the channel stays active and stopping. */
  lemma PumpGivesUp() returns (run: seq<Event>, y: State)
    ensures Reaches(run, y) && Seen(y, View(Idle, Idle, true, true, None, None, Halted(STUCK)))
  {
    run, y := PumpStops();
    run, y := StopEnters(run, y, STOPPING, 1);
    var v := STOPPING.(encoder := STOPPING.encoder.(lifecycle := Some(PUMP)));
    run, y := StopFinds(run, y, v, 1);
    run, y := ReapFails(run, y, v, E.ForStop(1), 0);
    run, y := StopFails(run, y, STOPPING);
    run, y := Ends(run, y, STOPPING.(pump := Switched(0, PumpFault, false), transition := None));
  }

  /** A run from the initial state to an active channel that is not stopping, whose encoder runs,
      in a runtime that is started and not closing, and that has no pump to deliver its frames. */
  lemma ActiveWithoutPump() returns (run: seq<Event>, s: State)
    ensures Legal(Begin(), run) && Run(Begin(), run) == s
    ensures P.Staffing(s, 0) && |s.channels| == 1 && At(s, Pump(0)).Idle?
    ensures s.channels[0].active && !s.channels[0].stopping && Running(s.channels[0].encoder)
  {
    run, s := PumpGivesUp();
    var v := View(Idle, Idle, true, true, None, None, Halted(STUCK));
    run, s := TurnsOff(run, s, v);
    v := v.(active := false, stopping := false, encoder := Stopped(v.encoder));
    run, s := TurnsOn(run, s, v);
    v := v.(active := true, encoder := Launched(v.encoder, true).(pc := E.Idle));
    IsStaffing(run, s, v);
  }
}
