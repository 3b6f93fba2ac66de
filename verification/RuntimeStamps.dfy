/** Stamps stay with their frames, from the message to the unit. */
module RuntimeStamps {
  import opened Threads
  import E = EncoderProtocol
  import EP = EncoderProofs
  import P = EncoderPairing
  import C = Configuration
  import RawFrames
  import opened FrameQueue
  import opened RuntimeProtocol
  import opened RuntimeChannels
  import opened RuntimeInvariant
  import opened RuntimeShutdown
  import Q = RuntimeQueues
  import H = RuntimeChildren
  import R = RuntimeRelease

  // Below, `accepted` lists the stamps of the accepted frames: frame `n` came with
  // `accepted[n - 1]`.

  // ---------- Stamps and the frames they came with ----------

  /** The stamps are those of the frames `numbers`, which are increasing and among `handed`. */
  predicate Carries(stamps: seq<int>, numbers: seq<nat>, accepted: seq<int>, handed: seq<nat>) {
    && |numbers| == |stamps| && Q.Increasing(numbers)
    && forall j :: 0 <= j < |numbers| ==>
         numbers[j] in handed && 1 <= numbers[j] <= |accepted| && stamps[j] == accepted[numbers[j] - 1]
  }

  ghost predicate Sourced(stamps: seq<int>, accepted: seq<int>, handed: seq<nat>) {
    exists numbers :: Carries(stamps, numbers, accepted, handed)
  }

  lemma NoStamps(accepted: seq<int>, handed: seq<nat>)
    ensures Sourced([], accepted, handed)
  {
    assert Carries([], [], accepted, handed);
  }

  lemma StaysSourced(stamps: seq<int>, accepted: seq<int>, handed: seq<nat>, more: seq<int>, handed': seq<nat>)
    requires Sourced(stamps, accepted, handed) && forall n :: n in handed ==> n in handed'
    ensures Sourced(stamps, accepted + more, handed')
  {
    var numbers :| Carries(stamps, numbers, accepted, handed);
    assert Carries(stamps, numbers, accepted + more, handed');
  }

  /** The stamp of the newest frame that was handed over joins those of earlier ones. */
  lemma NewestSourced(stamps: seq<int>, accepted: seq<int>, handed: seq<nat>)
    requires handed != [] && Q.Increasing(handed) && 1 <= handed[|handed| - 1] <= |accepted|
    requires Sourced(stamps, accepted, handed[..|handed| - 1])
    ensures Sourced(stamps + [accepted[handed[|handed| - 1] - 1]], accepted, handed)
  {
    var last := |handed| - 1;
    var numbers :| Carries(stamps, numbers, accepted, handed[..last]);
    assert Carries(stamps + [accepted[handed[last] - 1]], numbers + [handed[last]], accepted, handed);
  }

  // ---------- The invariant of a channel ----------

  /** The frame is a known one with its own stamp. */
  predicate Known(f: Frame, accepted: seq<int>) {
    1 <= f.sequence <= |accepted| && f.stamp == accepted[f.sequence - 1]
  }

  /** The stamp a writer brings along until it is recorded. */
  function Brings(pc: E.Pc): Option<int> {
    match pc
    case AtWriteLock(stamp) => Some(stamp)
    case WriteEntered(stamp) => Some(stamp)
    case Admitted(_, stamp) => Some(stamp)
    case _ => None
  }

  predicate FramesKnown(ch: Channel, accepted: seq<int>) {
    && (forall i :: 0 <= i < |ch.pending| ==> Known(ch.pending[i], accepted))
    && (forall i :: 0 <= i < |ch.handed| ==> 1 <= ch.handed[i] <= |accepted|)
  }

  ghost predicate ChildrenSourced(enc: E.State, accepted: seq<int>, handed: seq<nat>) {
    forall k :: 0 <= k < |enc.children| ==> Sourced(enc.children[k].stamps, accepted, handed)
  }

  /** A pump inside the encoder brings the stamp of the frame handed over last, and no child has
      a stamp of that frame yet. */
  ghost predicate PumpBrings(enc: E.State, pump: Tid, accepted: seq<int>, handed: seq<nat>) {
    Brings(E.At(enc, pump)).Some? ==>
      && handed != [] && 1 <= handed[|handed| - 1] <= |accepted|
      && Brings(E.At(enc, pump)) == Some(accepted[handed[|handed| - 1] - 1])
      && ChildrenSourced(enc, accepted, handed[..|handed| - 1])
  }

  ghost predicate RetiredSourced(retired: seq<E.State>, accepted: seq<int>, handed: seq<nat>) {
    forall enc :: enc in retired ==> ChildrenSourced(enc, accepted, handed)
  }

  ghost predicate Traced(ch: Channel, c: nat, accepted: seq<int>) {
    && FramesKnown(ch, accepted)
    && ChildrenSourced(ch.encoder, accepted, ch.handed)
    && PumpBrings(ch.encoder, Pump(c), accepted, ch.handed)
    && RetiredSourced(ch.retired, accepted, ch.handed)
  }

  // ---------- Steps inside an encoder ----------

  /** A step that records the stamp of a frame. */
  predicate Records(enc: E.State, e: E.Event) {
    e.BeforeWrite? && E.At(enc, e.t).Admitted? && enc.preview && |enc.queue| < E.MAX_STAMPS
  }

  /** Only recording adds a stamp, to the child the frame is for; a new child has none. */
  lemma StampsOf(enc: E.State, e: E.Event, k: nat)
    requires E.Enabled(enc, e) && k < |E.Apply(enc, e).children|
    ensures E.Apply(enc, e).children[k].stamps
         == if k >= |enc.children| then []
            else if Records(enc, e) && k == E.At(enc, e.t).child
            then enc.children[k].stamps + [E.At(enc, e.t).stamp]
            else enc.children[k].stamps
  {
    if e.StartDecide? || e.SettleRestart? { LaunchedStamps(enc, e, k); }
  }

  lemma LaunchedStamps(enc: E.State, e: E.Event, k: nat)
    requires E.Enabled(enc, e) && (e.StartDecide? || e.SettleRestart?) && k < |E.Apply(enc, e).children|
    ensures E.Apply(enc, e).children[k].stamps == if k >= |enc.children| then [] else enc.children[k].stamps
  {
  }

  /** A writer brings the same stamp along until it is recorded or the frame is dropped. */
  lemma BringsTheSame(enc: E.State, e: E.Event, t: Tid)
    requires E.Enabled(enc, e) && !E.External(e)
    ensures var pc' := E.At(E.Apply(enc, e), t);
            Brings(pc').Some? ==> Brings(pc') == Brings(E.At(enc, t)) && !(Records(enc, e) && e.t == t)
  {
    if EP.ActorIs(e, t) { ActorBrings(enc, e); } else { EP.OthersUnmoved(enc, e, t); }
  }

  lemma ActorBrings(enc: E.State, e: E.Event)
    requires E.Enabled(enc, e) && !E.External(e) && !EP.NativeStep(e)
    ensures var pc' := E.At(E.Apply(enc, e), e.t);
            Brings(pc').Some? ==> Brings(pc') == Brings(E.At(enc, e.t)) && !Records(enc, e)
  {
    if EP.EntryStep(e) || EP.WriteStep(e) { } else { OtherBringsNothing(enc, e); }
  }

  lemma OtherBringsNothing(enc: E.State, e: E.Event)
    requires E.Enabled(enc, e) && !E.External(e) && !EP.NativeStep(e) && !EP.EntryStep(e) && !EP.WriteStep(e)
    ensures Brings(E.At(E.Apply(enc, e), e.t)).None?
  {
  }

  lemma ChildrenStaySourced(enc: E.State, e: E.Event, accepted: seq<int>, handed: seq<nat>)
    requires E.Enabled(enc, e) && ChildrenSourced(enc, accepted, handed) && !Records(enc, e)
    ensures ChildrenSourced(E.Apply(enc, e), accepted, handed)
  {
    forall k | 0 <= k < |E.Apply(enc, e).children|
      ensures Sourced(E.Apply(enc, e).children[k].stamps, accepted, handed) {
      StampsOf(enc, e, k);
      NoStamps(accepted, handed);
    }
  }

  lemma RecordedIsSourced(enc: E.State, e: E.Event, accepted: seq<int>, handed: seq<nat>)
    requires E.Enabled(enc, e) && Records(enc, e) && PumpBrings(enc, e.t, accepted, handed) && Q.Increasing(handed)
    requires ChildrenSourced(enc, accepted, handed)
    ensures ChildrenSourced(E.Apply(enc, e), accepted, handed)
  {
    forall k | 0 <= k < |E.Apply(enc, e).children|
      ensures Sourced(E.Apply(enc, e).children[k].stamps, accepted, handed) {
      StampsOf(enc, e, k);
      NoStamps(accepted, handed);
      if k == E.At(enc, e.t).child { NewestSourced(enc.children[k].stamps, accepted, handed); }
    }
  }

  /** Nobody but its own pump writes to an encoder. */
  lemma OnlyThePumpWrites(s: State, c: nat, t: Tid)
    requires Inv(s) && c < |s.channels| && E.CallOf(E.At(s.channels[c].encoder, t)) == Some(E.WriteCall)
    ensures t == Pump(c)
  {
    ConsistentIsFine(s, t, c);
  }

  lemma EncoderKeepsTraced(s: State, c: nat, e: E.Event, accepted: seq<int>)
    requires Inv(s) && EncoderCan(s, c, e) && Traced(s.channels[c], c, accepted) && Q.Increasing(s.channels[c].handed)
    ensures Traced(EncoderDo(s, c, e).channels[c], c, accepted)
  {
    var enc, handed := s.channels[c].encoder, s.channels[c].handed;
    if Records(enc, e) {
      OnlyThePumpWrites(s, c, e.t);
      RecordedIsSourced(enc, e, accepted, handed);
    } else {
      ChildrenStaySourced(enc, e, accepted, handed);
    }
    BringsTheSame(enc, e, Pump(c));
    if Brings(E.At(E.Apply(enc, e), Pump(c))).Some? {
      ChildrenStaySourced(enc, e, accepted, handed[..|handed| - 1]);
    }
  }

  // ---------- Steps on a channel ----------

  /** Everything about stamps is as before, but for the program point of one thread. */
  predicate SameStamps(ch: Channel, ch': Channel) {
    && ch'.pending == ch.pending && ch'.handed == ch.handed && ch'.retired == ch.retired
    && ch'.encoder.children == ch.encoder.children
  }

  /** The pump is at the same point in the encoder, or brings nothing. */
  predicate BringsNoMore(ch: Channel, ch': Channel, pump: Tid) {
    E.At(ch'.encoder, pump) == E.At(ch.encoder, pump) || Brings(E.At(ch'.encoder, pump)).None?
  }

  lemma SameStaysTraced(ch: Channel, ch': Channel, c: nat, accepted: seq<int>)
    requires Traced(ch, c, accepted) && SameStamps(ch, ch') && BringsNoMore(ch, ch', Pump(c))
    ensures Traced(ch', c, accepted)
  {
  }

  lemma ClearedStaysTraced(ch: Channel, c: nat, accepted: seq<int>)
    requires Traced(ch, c, accepted)
    ensures Traced(Cleared(ch), c, accepted)
  {
  }

  lemma ActivationKeepsStamps(g: Global, v: Here, t: Tid, e: ActivateEvent, pump: Tid)
    requires ActivateEnabled(v, t, e)
    ensures var ch' := ActivateApply(g, v, t, e).ch; SameStamps(v.ch, ch') && BringsNoMore(v.ch, ch', pump)
  {
    if e.CallStart? || e.CallRecovery? { CallKeepsStamps(g, v, t, e, pump); }
    else if e.StartReturns? || e.RecoveryReturns? { ReturnKeepsStamps(g, v, t, e, pump); }
  }

  /** Calling a start or a stop, and leaving, bring no stamp. */
  lemma EntriesBringNothing(enc: E.State, t: Tid, pump: Tid)
    ensures E.BeginStart(enc, t).children == E.BeginStop(enc, t).children == E.Leave(enc, t).children == enc.children
    ensures E.At(E.BeginStart(enc, t), pump) == E.At(enc, pump) || Brings(E.At(E.BeginStart(enc, t), pump)).None?
    ensures E.At(E.BeginStop(enc, t), pump) == E.At(enc, pump) || Brings(E.At(E.BeginStop(enc, t), pump)).None?
    ensures E.At(E.Leave(enc, t), pump) == E.At(enc, pump) || Brings(E.At(E.Leave(enc, t), pump)).None?
  {
  }

  lemma CallKeepsStamps(g: Global, v: Here, t: Tid, e: ActivateEvent, pump: Tid)
    requires ActivateEnabled(v, t, e) && (e.CallStart? || e.CallRecovery?)
    ensures var ch' := ActivateApply(g, v, t, e).ch; SameStamps(v.ch, ch') && BringsNoMore(v.ch, ch', pump)
  {
    var ch' := ActivateApply(g, v, t, e).ch;
    EntriesBringNothing(v.ch.encoder, t, pump);
    assert ch'.encoder == E.BeginStart(v.ch.encoder, t) || ch'.encoder == E.BeginStop(v.ch.encoder, t);
  }

  lemma ReturnKeepsStamps(g: Global, v: Here, t: Tid, e: ActivateEvent, pump: Tid)
    requires ActivateEnabled(v, t, e) && (e.StartReturns? || e.RecoveryReturns?)
    ensures var ch' := ActivateApply(g, v, t, e).ch; SameStamps(v.ch, ch') && BringsNoMore(v.ch, ch', pump)
  {
    EntriesBringNothing(v.ch.encoder, t, pump);
    assert ActivateApply(g, v, t, e).ch.encoder == E.Leave(v.ch.encoder, t);
  }

  lemma DeactivationKeepsStamps(v: Here, t: Tid, e: DeactivateEvent, pump: Tid)
    requires DeactivateEnabled(v, t, e)
    ensures var ch, ch' := if e.Mute? then Cleared(v.ch) else v.ch, DeactivateApply(v, t, e).ch;
            SameStamps(ch, ch') && BringsNoMore(ch, ch', pump)
  {
  }

  lemma SwapStaysTraced(ch: Channel, enc: E.State, c: nat, accepted: seq<int>)
    requires Traced(ch, c, accepted) && enc.children == [] && E.At(enc, Pump(c)).Idle?
    ensures Traced(ch.(encoder := enc, retired := ch.retired + [ch.encoder]), c, accepted)
  {
  }

  lemma ReplacementKeepsTraced(g: Global, v: Here, t: Tid, e: ConfEvent, c: nat, accepted: seq<int>)
    requires ConfEnabled(v, t, e) && Traced(v.ch, c, accepted)
    ensures Traced(ConfApply(g, v, t, e).ch, c, accepted)
  {
    var ch' := ConfApply(g, v, t, e).ch;
    if e.ConfSwap? {
      ClearedStaysTraced(v.ch, c, accepted);
      SwapStaysTraced(Cleared(v.ch), ch'.encoder, c, accepted);
      var ch := Cleared(v.ch).(encoder := ch'.encoder, retired := v.ch.retired + [v.ch.encoder]);
      SameStaysTraced(ch, ch', c, accepted);
    } else {
      SameStaysTraced(v.ch, ch', c, accepted);
    }
  }

  lemma DeliveryKeepsTraced(g: Global, v: Here, t: Tid, e: PumpEvent, c: nat, accepted: seq<int>)
    requires PumpEnabled(g, v, t, e) && t == Pump(c) && Traced(v.ch, c, accepted)
    ensures Traced(PumpApply(g, v, t, e).ch, c, accepted)
  {
    if e.PumpTake? && v.ch.active && !v.ch.stopping && v.ch.pending != [] {
      HandedIsTraced(v.ch, c, accepted);
    } else {
      SameStaysTraced(v.ch, PumpApply(g, v, t, e).ch, c, accepted);
    }
  }

  /** A frame that is handed over takes its own stamp along. */
  lemma HandedIsTraced(ch: Channel, c: nat, accepted: seq<int>)
    requires Traced(ch, c, accepted) && ch.pending != []
    ensures Traced(Handing(Calling(ch, E.BeginWrite(ch.encoder, Pump(c), ch.pending[0].stamp))), c, accepted)
  {
    var f, handed := ch.pending[0], ch.handed + [ch.pending[0].sequence];
    assert Known(f, accepted);
    assert handed[..|handed| - 1] == ch.handed && accepted + [] == accepted;
    forall enc: E.State, k: nat | 0 <= k < |enc.children| && (enc in ch.retired || enc == ch.encoder)
      ensures Sourced(enc.children[k].stamps, accepted, handed) {
      StaysSourced(enc.children[k].stamps, accepted, ch.handed, [], handed);
    }
  }

  lemma LocalKeepsTraced(g: Global, v: Here, t: Tid, e: LocalEvent, c: nat, accepted: seq<int>)
    requires LocalEnabled(g, v, t, e) && Traced(v.ch, c, accepted) && (e.Delivery? ==> t == Pump(c))
    ensures Traced(LocalApply(g, v, t, e).ch, c, accepted)
  {
    match e
    case Activation(ev) =>
      ActivationKeepsStamps(g, v, t, ev, Pump(c));
      SameStaysTraced(v.ch, ActivateApply(g, v, t, ev).ch, c, accepted);
    case Deactivation(ev) =>
      ClearedStaysTraced(v.ch, c, accepted);
      DeactivationKeepsStamps(v, t, ev, Pump(c));
      SameStaysTraced(if ev.Mute? then Cleared(v.ch) else v.ch, DeactivateApply(v, t, ev).ch, c, accepted);
    case Replacement(ev) => ReplacementKeepsTraced(g, v, t, ev, c, accepted);
    case Delivery(ev) => DeliveryKeepsTraced(g, v, t, ev, c, accepted);
  }

  // ---------- Accepting a frame ----------

  lemma LaterStaysTraced(ch: Channel, c: nat, accepted: seq<int>, more: seq<int>)
    requires Traced(ch, c, accepted)
    ensures Traced(ch, c, accepted + more)
  {
    forall enc: E.State, k: nat, handed: seq<nat>
      | 0 <= k < |enc.children| && Sourced(enc.children[k].stamps, accepted, handed)
      ensures Sourced(enc.children[k].stamps, accepted + more, handed) {
      StaysSourced(enc.children[k].stamps, accepted, handed, more, handed);
    }
  }

  lemma EnqueuedIsTraced(ch: Channel, c: nat, accepted: seq<int>, f: Frame)
    requires Traced(ch, c, accepted) && Known(f, accepted)
    ensures Traced(Enqueued(ch, f), c, accepted)
  {
    if ch.active && !ch.stopping { EvictLeavesSuffix(ch.pending, f.bytes, ch.depth); }
  }

  // ---------- All steps ----------

  /** The stamp of the frame that a step accepts, if it accepts one. */
  function NewStamp(s: State, e: Event): seq<int>
    requires Enabled(s, e)
  {
    if e.Submit? && Apply(s, e).g.framesIn > s.g.framesIn then [e.stamp] else []
  }

  ghost predicate AllTraced(s: State, accepted: seq<int>) {
    |accepted| == s.g.framesIn && forall c: nat :: c < |s.channels| ==> Traced(s.channels[c], c, accepted)
  }

  lemma SubmitKeepsTraced(s: State, submission: RawFrames.Submission, stamp: int, accepted: seq<int>, c: nat)
    requires Enabled(s, Submit(submission, stamp)) && c < |s.channels| && |accepted| == s.g.framesIn
    requires Traced(s.channels[c], c, accepted)
    ensures var s', accepted' := Apply(s, Submit(submission, stamp)), accepted + NewStamp(s, Submit(submission, stamp));
            c < |s'.channels| && |accepted'| == s'.g.framesIn && Traced(s'.channels[c], c, accepted')
  {
    if Refuses(s, submission, stamp) {
      assert accepted + [] == accepted;
    } else {
      var f := Frame(s.g.framesIn + 1, |submission.data|, stamp);
      Q.AcceptEnqueues(s, submission, stamp, c);
      LaterStaysTraced(s.channels[c], c, accepted, [stamp]);
      EnqueuedIsTraced(s.channels[c], c, accepted + [stamp], f);
    }
  }

  lemma LocalStepKeepsTraced(s: State, t: Tid, e: LocalEvent, accepted: seq<int>, c: nat)
    requires Inv(s) && LocalCan(s, t, e) && c < |s.channels| && Traced(s.channels[c], c, accepted)
    ensures Traced(LocalDo(s, t, e).channels[c], c, accepted)
  {
    LocalTouches(s, t, e, c);
    if ChannelOf(At(s, t)) == Some(c) {
      ConsistentIsFine(s, t, c);
      LocalKeepsTraced(s.g, HereOf(s, t), t, e, c, accepted);
    }
  }

  lemma QuietStepKeepsChannels(s: State, e: Event)
    requires Enabled(s, e) && (e.CallStep? || e.OwnerStep?)
    ensures Apply(s, e).channels == s.channels
  {
  }

  lemma CountsFrames(s: State, e: Event)
    requires Enabled(s, e) && !e.Submit?
    ensures Apply(s, e).g.framesIn == s.g.framesIn
  {
    match e
    case CallStep(t, ev) => Q.CallKeepsHands(|s.channels|, ThereOf(s, t), t, ev);
    case OwnerStep(t, ev) => Q.OwnerKeepsFrames(s, t, ev);
    case _ =>
  }

  lemma StepKeepsTraced(s: State, e: Event, accepted: seq<int>, c: nat)
    requires Inv(s) && Q.Data(s) && Enabled(s, e) && AllTraced(s, accepted) && c < |s.channels|
    ensures c < |Apply(s, e).channels| && Traced(Apply(s, e).channels[c], c, accepted + NewStamp(s, e))
    ensures |accepted + NewStamp(s, e)| == Apply(s, e).g.framesIn
  {
    if e.Submit? {
      SubmitKeepsTraced(s, e.submission, e.stamp, accepted, c);
    } else {
      CountsFrames(s, e);
      StepKeepsShape(s, e);
      assert accepted + [] == accepted;
      assert Traced(s.channels[c], c, accepted);
      match e
      case EncoderStep(d, ev) =>
        if c == d {
          Q.DataInOrder(s, c);
          EncoderKeepsTraced(s, c, ev, accepted);
        }
      case ChannelStep(t, ev) => LocalStepKeepsTraced(s, t, ev, accepted, c);
      case _ => QuietStepKeepsChannels(s, e);
    }
  }

  /** The stamps of the frames accepted over a run, in order. */
  function AcceptedStamps(s: State, events: seq<Event>): seq<int>
    requires Legal(s, events)
    decreases |events|
  {
    if events == [] then [] else NewStamp(s, events[0]) + AcceptedStamps(Apply(s, events[0]), events[1..])
  }

  lemma {:induction false} RunKeepsTraced(s: State, events: seq<Event>, accepted: seq<int>)
    requires Inv(s) && Q.Data(s) && AllTraced(s, accepted) && Legal(s, events)
    ensures AllTraced(Run(s, events), accepted + AcceptedStamps(s, events))
    decreases |events|
  {
    if events == [] {
      assert accepted + [] == accepted;
    } else {
      var s', now := Apply(s, events[0]), NewStamp(s, events[0]);
      StepKeepsInv(s, events[0]);
      Q.StepKeepsData(s, events[0]);
      StepKeepsAllTraced(s, events[0], accepted);
      RunKeepsTraced(s', events[1..], accepted + now);
      Associates(accepted, now, AcceptedStamps(s', events[1..]));
    }
  }

  lemma Associates(a: seq<int>, b: seq<int>, c: seq<int>)
    ensures (a + b) + c == a + (b + c)
  {
  }

  lemma StepKeepsAllTraced(s: State, e: Event, accepted: seq<int>)
    requires Inv(s) && Q.Data(s) && AllTraced(s, accepted) && Enabled(s, e)
    ensures AllTraced(Apply(s, e), accepted + NewStamp(s, e))
  {
    StepKeepsShape(s, e);
    ConsistentHasChannel(s);
    StepKeepsTraced(s, e, accepted, 0);
    forall c: nat | c < |Apply(s, e).channels|
      ensures Traced(Apply(s, e).channels[c], c, accepted + NewStamp(s, e)) {
      StepKeepsTraced(s, e, accepted, c);
    }
  }

  lemma ConsistentHasChannel(s: State)
    requires Consistent(s)
    ensures |s.channels| >= 1
  {
  }

  // ---------- Results over all runs ----------

  /** Unit `j` delivered for the child carries the stamp that frame `numbers[j]` was submitted
      with. */
  predicate UnitsCarry(k: E.Child, numbers: seq<nat>, accepted: seq<int>, handed: seq<nat>) {
    && Carries(k.stamps, numbers, accepted, handed)
    && |k.delivered| <= |numbers|
    && forall j :: 0 <= j < |k.delivered| ==> k.delivered[j] == E.Delivery(j, accepted[numbers[j] - 1])
  }

  lemma UnitsAreSourced(k: E.Child, accepted: seq<int>, handed: seq<nat>)
    requires P.StampsMatch(k) && Sourced(k.stamps, accepted, handed)
    ensures exists numbers :: UnitsCarry(k, numbers, accepted, handed)
  {
    var numbers :| Carries(k.stamps, numbers, accepted, handed);
    assert UnitsCarry(k, numbers, accepted, handed);
  }

  lemma InitialTraced(settings: C.Settings, format: RawFrames.Format, preview: bool, dropToLatest: bool)
    ensures AllTraced(Initial(settings, format, preview, dropToLatest), [])
  {
  }

  lemma RunIsTraced(settings: C.Settings, format: RawFrames.Format, preview: bool, dropToLatest: bool,
                    events: seq<Event>)
    requires RawFrames.ValidFormat(format) && Legal(Initial(settings, format, preview, dropToLatest), events)
    ensures var s0 := Initial(settings, format, preview, dropToLatest);
            AllTraced(Run(s0, events), AcceptedStamps(s0, events))
  {
    var s0 := Initial(settings, format, preview, dropToLatest);
    R.InitialInv(settings, format, preview, dropToLatest);
    Q.InitialData(settings, format, preview, dropToLatest);
    InitialTraced(settings, format, preview, dropToLatest);
    RunKeepsTraced(s0, events, []);
    assert [] + AcceptedStamps(s0, events) == AcceptedStamps(s0, events);
  }

  /** In every reachable state, a pump that is inside the encoder and whose frame has not got past
      the hook yet brings the stamp that the frame handed over last was submitted with. */
  lemma PumpBringsItsStamp(settings: C.Settings, format: RawFrames.Format, preview: bool, dropToLatest: bool,
                           events: seq<Event>, c: nat)
    requires RawFrames.ValidFormat(format) && Legal(Initial(settings, format, preview, dropToLatest), events)
    requires c < |Run(Initial(settings, format, preview, dropToLatest), events).channels|
    requires var ch := Run(Initial(settings, format, preview, dropToLatest), events).channels[c];
             Brings(E.At(ch.encoder, Pump(c))).Some?
    ensures var s0 := Initial(settings, format, preview, dropToLatest);
            var ch, accepted := Run(s0, events).channels[c], AcceptedStamps(s0, events);
            && ch.handed != [] && 1 <= ch.handed[|ch.handed| - 1] <= |accepted|
            && Brings(E.At(ch.encoder, Pump(c))) == Some(accepted[ch.handed[|ch.handed| - 1] - 1])
  {
    var s0 := Initial(settings, format, preview, dropToLatest);
    RunIsTraced(settings, format, preview, dropToLatest, events);
    TracedBrings(Run(s0, events).channels[c], c, AcceptedStamps(s0, events));
  }

  lemma TracedBrings(ch: Channel, c: nat, accepted: seq<int>)
    requires Traced(ch, c, accepted) && Brings(E.At(ch.encoder, Pump(c))).Some?
    ensures ch.handed != [] && 1 <= ch.handed[|ch.handed| - 1] <= |accepted|
    ensures Brings(E.At(ch.encoder, Pump(c))) == Some(accepted[ch.handed[|ch.handed| - 1] - 1])
  {
  }

  /** In every run, every unit delivered for any child of any encoder of a channel carries the
      stamp of the message that a frame was submitted in; the frames are ones that were handed
      to the encoder, each child's in the order in which they were accepted. */
  lemma UnitsCarryMessageStamps(settings: C.Settings, format: RawFrames.Format, preview: bool, dropToLatest: bool,
                                events: seq<Event>, c: nat, enc: E.State, k: E.Child)
    requires RawFrames.ValidFormat(format) && Legal(Initial(settings, format, preview, dropToLatest), events)
    requires c < |Run(Initial(settings, format, preview, dropToLatest), events).channels|
    requires var ch := Run(Initial(settings, format, preview, dropToLatest), events).channels[c];
             (enc == ch.encoder || enc in ch.retired) && k in enc.children
    ensures var s0 := Initial(settings, format, preview, dropToLatest);
            exists numbers :: UnitsCarry(k, numbers, AcceptedStamps(s0, events), Run(s0, events).channels[c].handed)
  {
    var s0 := Initial(settings, format, preview, dropToLatest);
    RunIsTraced(settings, format, preview, dropToLatest, events);
    H.EveryUnitHasItsStamp(settings, format, preview, dropToLatest, events, c);
    TracedChild(Run(s0, events).channels[c], c, AcceptedStamps(s0, events), enc, k);
    UnitsAreSourced(k, AcceptedStamps(s0, events), Run(s0, events).channels[c].handed);
  }

  lemma TracedChild(ch: Channel, c: nat, accepted: seq<int>, enc: E.State, k: E.Child)
    requires Traced(ch, c, accepted) && (enc == ch.encoder || enc in ch.retired) && k in enc.children
    ensures Sourced(k.stamps, accepted, ch.handed)
  {
    var i :| 0 <= i < |enc.children| && enc.children[i] == k;
  }
}
