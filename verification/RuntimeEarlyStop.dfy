/** A stop of a runtime that was never started. */
module RuntimeEarlyStop {
  import opened Threads
  import opened RuntimeProtocol
  import opened RuntimeShutdown
  import opened RuntimeStops
  import opened RuntimeRetry
  import R = RuntimeRelease

  /** Before the first start a client activates the channel and deactivates it again.  When the
      encoder has stopped, but the channel is not yet inactive, there is nothing to stop. */
  lemma StopOverlooksChannel() returns (run: seq<Event>, s: State)
    ensures Legal(Begin(), run) && Run(Begin(), run) == s
    ensures NothingToStop(s) && |s.channels| == 1 && s.channels[0].active && s.channels[0].stopping
  {
    var v := View(Idle, Idle, false, false, None, None, RESTING, false);
    run, s := TurnsOn([], Begin(), v);
    v := v.(active := true, encoder := BUSY);
    run, s := Asks(run, s, v, false);
    v := v.(operator := Switch(false, Checking), transition := Some(OPERATOR));
    run, s := StopsChild(run, s, v);
    v := v.(operator := Switch(false, Draining), stopping := true, encoder := Stopped(BUSY));
    R.InitialInv(SETTINGS, FORMAT, false, true);
    R.RunKeepsInv(Begin(), run);
    NothingIsUp(s, v);
  }

  lemma NothingIsUp(x: State, v: View)
    requires Inv(x) && Seen(x, v) && !v.started
    requires v.encoder.proc == None && v.encoder.readers == {} && !v.encoder.stopping
    ensures NothingToStop(x)
  {
  }

  /** A run that ends with nothing to stop, after a start if `started`, ends with every channel
      inactive and not stopping. */
  ghost predicate EndsSilent(run: seq<Event>, started: bool) {
    Legal(Begin(), run) && (started ==> WasStarted(run)) && NothingToStop(Run(Begin(), run)) ==>
      forall c :: 0 <= c < |Run(Begin(), run).channels| ==> Silent(Run(Begin(), run).channels[c])
  }

  /** A stop that finds nothing to stop can rely on its channels exactly when the runtime was
      started before. */
  lemma SilentIffStartedBefore(started: bool)
    ensures (forall run :: EndsSilent(run, started)) <==> started
  {
    if started {
      forall run ensures EndsSilent(run, true) {
        if Legal(Begin(), run) && WasStarted(run) && NothingToStop(Run(Begin(), run)) {
          StoppedSourceIsSilent(SETTINGS, FORMAT, false, true, run);
        }
      }
    } else {
      var run, s := StopOverlooksChannel();
      assert !EndsSilent(run, false);
    }
  }
}
