/** What the queues and counters of the channels keep: order, bounds and conservation. */
module RuntimeQueues {
  import opened Threads
  import E = EncoderProtocol
  import RawFrames
  import opened FrameQueue
  import C = Configuration
  import opened RuntimeProtocol
  import opened RuntimeChannels
  import opened RuntimeInvariant
  import opened RuntimeShutdown
  import R = RuntimeRelease

  // ---------- The invariant ----------

  predicate Increasing(xs: seq<nat>) {
    forall i, j :: 0 <= i < j < |xs| ==> xs[i] < xs[j]
  }

  function Numbers(q: seq<Frame>): seq<nat> {
    seq(|q|, i requires 0 <= i < |q| => q[i].sequence)
  }

  /** Everything handed to the encoder and everything queued, in order. */
  function Line(ch: Channel): seq<nat> {
    ch.handed + Numbers(ch.pending)
  }

  /** The queue is bounded, empty unless the channel is active, and newer than everything
      handed over and than the current activation. */
  predicate Queued(ch: Channel, framesIn: nat) {
    && ch.depth > 0 && Fits(ch.pending, ch.depth) && ch.pendingBytes == Bytes(ch.pending)
    && (ch.pending != [] ==> ch.active && !ch.stopping)
    && Increasing(Line(ch))
    && (forall i :: 0 <= i < |Line(ch)| ==> Line(ch)[i] <= framesIn)
    && (forall i :: 0 <= i < |ch.pending| ==> ch.pending[i].sequence > ch.activatedAt)
    && ch.activatedAt <= framesIn
  }

  /** Frames in the hands of the pump. */
  function InFlight(pc: Pc): nat {
    if PumpAt(pc, PumpWriting) || PumpAt(pc, PumpCounting) then 1 else 0
  }

  /** Every frame offered to an active channel is accounted for. */
  predicate Balanced(ch: Channel, pump: Pc) {
    ch.offered == ch.out + ch.dropped + |ch.pending| + ch.cleared + ch.failed + InFlight(pump)
  }

  ghost predicate InOrder(s: State, c: nat) {
    c < |s.channels| && Queued(s.channels[c], s.g.framesIn) && Balanced(s.channels[c], At(s, Pump(c)))
  }

  ghost predicate Data(s: State) {
    RawFrames.ValidFormat(s.format) && forall c: nat :: c < |s.channels| ==> InOrder(s, c)
  }

  // ---------- Frames ----------

  /** Dropping a middle part and appending something larger keeps the order. */
  lemma Extended(a: seq<nat>, b: seq<nat>, k: nat, x: nat)
    requires Increasing(a + b) && k <= |b|
    requires forall i :: 0 <= i < |a + b| ==> (a + b)[i] < x
    ensures var line := a + (b[k..] + [x]); Increasing(line) && forall i :: 0 <= i < |line| ==> line[i] <= x
  {
    var line := a + (b[k..] + [x]);
    forall i | 0 <= i < |line| - 1 ensures line[i] == (a + b)[if i < |a| then i else i + k] {}
  }

  /** A queue that lost some of its oldest frames and gained a new one stays in order. */
  lemma NewestKeepsOrder(ch: Channel, kept: seq<Frame>, f: Frame, framesIn: nat)
    requires Queued(ch, framesIn) && f.sequence == framesIn + 1
    requires |kept| <= |ch.pending| && kept == ch.pending[|ch.pending| - |kept|..]
    ensures var q := kept + [f];
            var line := ch.handed + Numbers(q);
            && Increasing(line) && (forall i :: 0 <= i < |line| ==> line[i] <= framesIn + 1)
            && (forall i :: 0 <= i < |q| ==> q[i].sequence > ch.activatedAt)
  {
    var cut := |ch.pending| - |kept|;
    Extended(ch.handed, Numbers(ch.pending), cut, f.sequence);
    assert Numbers(kept + [f]) == Numbers(ch.pending)[cut..] + [f.sequence];
  }

  lemma EnqueuedKeepsQueued(ch: Channel, f: Frame, framesIn: nat)
    requires Queued(ch, framesIn) && f.sequence == framesIn + 1 && f.bytes <= MAX_QUEUED_BYTES
    ensures Queued(Enqueued(ch, f), framesIn + 1)
  {
    if ch.active && !ch.stopping {
      OfferFits(ch.pending, f, ch.depth);
      EvictLeavesSuffix(ch.pending, f.bytes, ch.depth);
      NewestKeepsOrder(ch, Evict(ch.pending, f.bytes, ch.depth), f, framesIn);
    }
  }

  lemma ClearedKeepsQueued(ch: Channel, framesIn: nat)
    requires Queued(ch, framesIn)
    ensures Queued(Cleared(ch), framesIn)
  {
    var line := Line(Cleared(ch));
    assert forall i :: 0 <= i < |line| ==> line[i] == Line(ch)[i];
  }

  lemma HandingKeepsQueued(ch: Channel, framesIn: nat)
    requires Queued(ch, framesIn) && ch.pending != []
    ensures Queued(Handing(ch), framesIn)
  {
    SuffixFits(ch.pending, 1, ch.depth);
    assert Line(Handing(ch)) == Line(ch);
  }

  lemma EnqueuedKeepsBalance(ch: Channel, f: Frame, pump: Pc)
    requires Balanced(ch, pump)
    ensures Balanced(Enqueued(ch, f), pump)
  {
    assert |Offer(ch.pending, f, ch.depth)| == |Evict(ch.pending, f.bytes, ch.depth)| + 1;
  }

  // ---------- Steps on a channel ----------

  lemma ActivationKeepsData(g: Global, v: Here, t: Tid, c: nat, e: ActivateEvent)
    requires ActivateEnabled(v, t, e) && ChannelOf(v.pc) == Some(c)
    requires Queued(v.ch, g.framesIn) && Agrees(t, v.pc, c, v.ch)
    ensures var v' := ActivateApply(g, v, t, e);
            && Queued(v'.ch, g.framesIn) && !v'.pc.Pumping?
            && forall pump :: Balanced(v.ch, pump) ==> Balanced(v'.ch, pump)
  {
    if e.Commit? { CommitKeepsData(g, v, t, c); } else { assert SameQueue(v.ch, ActivateApply(g, v, t, e).ch); }
  }

  lemma CommitKeepsData(g: Global, v: Here, t: Tid, c: nat)
    requires ActivateEnabled(v, t, Commit) && ChannelOf(v.pc) == Some(c)
    requires Queued(v.ch, g.framesIn) && Agrees(t, v.pc, c, v.ch)
    ensures var v' := ActivateApply(g, v, t, Commit);
            && Queued(v'.ch, g.framesIn) && !v'.pc.Pumping?
            && forall pump :: Balanced(v.ch, pump) ==> Balanced(v'.ch, pump)
  {
  }

  lemma DeactivationKeepsData(g: Global, v: Here, t: Tid, c: nat, e: DeactivateEvent)
    requires DeactivateEnabled(v, t, e) && ChannelOf(v.pc) == Some(c)
    requires Queued(v.ch, g.framesIn) && Agrees(t, v.pc, c, v.ch)
    ensures var v' := DeactivateApply(v, t, e);
            && Queued(v'.ch, g.framesIn) && !v'.pc.Pumping?
            && forall pump :: Balanced(v.ch, pump) ==> Balanced(v'.ch, pump)
  {
    if e.Mute? { ClearedKeepsQueued(v.ch, g.framesIn); }
    else if !e.Deactivate? { assert SameQueue(v.ch, DeactivateApply(v, t, e).ch); }
  }

  lemma ReplacementKeepsData(g: Global, v: Here, t: Tid, e: ConfEvent)
    requires ConfEnabled(v, t, e) && Queued(v.ch, g.framesIn)
    ensures var v' := ConfApply(g, v, t, e);
            && Queued(v'.ch, g.framesIn) && !v'.pc.Pumping?
            && forall pump :: Balanced(v.ch, pump) ==> Balanced(v'.ch, pump)
  {
    if e.ConfSwap? { ClearedKeepsQueued(v.ch, g.framesIn); }
    else { assert SameQueue(v.ch, ConfApply(g, v, t, e).ch); }
  }

  /** The same queue and counters, up to the encoder and the locks. */
  predicate SameQueue(ch: Channel, ch': Channel) {
    ch' == ch.(encoder := ch'.encoder, transition := ch'.transition, lock := ch'.lock)
  }

  lemma DeliveryKeepsData(g: Global, v: Here, t: Tid, e: PumpEvent)
    requires PumpEnabled(g, v, t, e) && Queued(v.ch, g.framesIn)
    ensures var v' := PumpApply(g, v, t, e);
            && Queued(v'.ch, g.framesIn) && (Balanced(v.ch, v.pc) ==> Balanced(v'.ch, v'.pc))
  {
    if e.PumpTake? && v.ch.pending != [] { HandingKeepsQueued(v.ch, g.framesIn); }
  }

  // ---------- All steps ----------

  lemma LocalKeepsHere(n: nat, g: Global, v: Here, t: Tid, c: nat, e: LocalEvent)
    requires LocalEnabled(g, v, t, e) && ChannelOf(v.pc) == Some(c) && Queued(v.ch, g.framesIn)
    requires Agrees(t, v.pc, c, v.ch) && Placed(n, t, v.pc)
    ensures var v' := LocalApply(g, v, t, e);
            && Queued(v'.ch, g.framesIn)
            && (t == Pump(c) && Balanced(v.ch, v.pc) ==> Balanced(v'.ch, v'.pc))
            && (t != Pump(c) ==> forall pump :: Balanced(v.ch, pump) ==> Balanced(v'.ch, pump))
  {
    match e
    case Activation(ev) => ActivationKeepsData(g, v, t, c, ev);
    case Deactivation(ev) => DeactivationKeepsData(g, v, t, c, ev);
    case Replacement(ev) => ReplacementKeepsData(g, v, t, ev);
    case Delivery(ev) => DeliveryKeepsData(g, v, t, ev);
  }

  /** Nobody moves a pump that has a frame in its hands but the pump itself. */
  lemma OthersKeepHands(s: State, t: Tid, e: LocalEvent, c: nat)
    requires Inv(s) && LocalCan(s, t, e) && c < |s.channels| && ChannelOf(At(s, t)) != Some(c)
    ensures At(LocalDo(s, t, e), Pump(c)) == At(s, Pump(c))
  {
    assert Placed(|s.channels|, t, At(s, t));
    LocalMovesOne(s, t, e, Pump(c));
  }

  lemma LocalKeepsData(s: State, t: Tid, e: LocalEvent, c: nat)
    requires Inv(s) && InOrder(s, c) && LocalCan(s, t, e)
    ensures InOrder(LocalDo(s, t, e), c)
  {
    LocalTouches(s, t, e, c);
    if ChannelOf(At(s, t)) == Some(c) {
      ConsistentIsFine(s, t, c);
      LocalMovesOne(s, t, e, Pump(c));
      LocalKeepsHere(|s.channels|, s.g, HereOf(s, t), t, c, e);
    } else {
      OthersKeepHands(s, t, e, c);
    }
  }

  lemma EncoderKeepsData(s: State, d: nat, e: E.Event, c: nat)
    requires InOrder(s, c) && EncoderCan(s, d, e)
    ensures InOrder(EncoderDo(s, d, e), c)
  {
  }

  lemma CallKeepsData(s: State, t: Tid, e: CallEvent, c: nat)
    requires Inv(s) && InOrder(s, c) && CallCan(s, t, e)
    ensures InOrder(CallDo(s, t, e), c)
  {
    CallMovesOne(s, t, e, Pump(c));
    CallKeepsHands(|s.channels|, ThereOf(s, t), t, e);
  }

  lemma CallKeepsHands(n: nat, w: There, t: Tid, e: CallEvent)
    requires CallEnabled(n, w, t, e)
    ensures var w' := CallApply(n, w, t, e); w'.g.framesIn == w.g.framesIn && InFlight(w'.pc) == InFlight(w.pc) == 0
  {
  }

  lemma OwnerKeepsData(s: State, t: Tid, e: OwnerEvent, c: nat)
    requires Inv(s) && InOrder(s, c) && OwnerEnabled(s, t, e)
    ensures InOrder(OwnerDo(s, t, e), c)
  {
    OwnerStartsIdle(s, t, e);
    assert Placed(|s.channels|, t, At(s, t));
    if !Starts(s, t, e, Pump(c)) { OwnerMovesOne(s, t, e, Pump(c)); }
    OwnerKeepsFrames(s, t, e);
  }

  lemma OwnerKeepsFrames(s: State, t: Tid, e: OwnerEvent)
    requires OwnerEnabled(s, t, e)
    ensures OwnerDo(s, t, e).g.framesIn == s.g.framesIn
    ensures !OwnerApply(|s.channels|, NothingToStop(s), ThereOf(s, t), t, e).pc.Pumping?
  {
    if StartsUp(e) { StarterKeepsFrames(s, t, e); }
  }

  lemma StarterKeepsFrames(s: State, t: Tid, e: OwnerEvent)
    requires OwnerEnabled(s, t, e) && StartsUp(e)
    ensures OwnerDo(s, t, e).g.framesIn == s.g.framesIn
    ensures !OwnerApply(|s.channels|, NothingToStop(s), ThereOf(s, t), t, e).pc.Pumping?
  {
    StarterCountsNone(|s.channels|, NothingToStop(s), ThereOf(s, t), t, e);
  }

  lemma StarterCountsNone(n: nat, quiet: bool, w: There, t: Tid, e: OwnerEvent)
    requires StartsUp(e) && (e.StartPump? ==> w.pc.Owning? && w.pc.owner.PumpStarting?)
    requires e.StopRuntime? ==> w.pc.Idle?
    ensures var w' := OwnerApply(n, quiet, w, t, e); w'.g.framesIn == w.g.framesIn && !w'.pc.Pumping?
  {
  }

  /** Validation bounds every submission that can be queued. */
  lemma GenuineFits(format: RawFrames.Format, submission: RawFrames.Submission)
    requires RawFrames.ValidFormat(format) && Genuine(format, submission) && submission.Queued?
    ensures |submission.data| <= MAX_QUEUED_BYTES
  {
    var message :| RawFrames.Submitted(format, message) == submission;
    RawFrames.SubmittedFits(format, message);
  }

  lemma SubmitKeepsData(s: State, submission: RawFrames.Submission, stamp: int, c: nat)
    requires InOrder(s, c) && RawFrames.ValidFormat(s.format) && Genuine(s.format, submission)
    ensures InOrder(Accept(s, submission, stamp), c)
  {
    if !Refuses(s, submission, stamp) {
      var f := Frame(s.g.framesIn + 1, |submission.data|, stamp);
      GenuineFits(s.format, submission);
      EnqueuedKeepsQueued(s.channels[c], f, s.g.framesIn);
      EnqueuedKeepsBalance(s.channels[c], f, At(s, Pump(c)));
      AcceptEnqueues(s, submission, stamp, c);
    }
  }

  lemma AcceptEnqueues(s: State, submission: RawFrames.Submission, stamp: int, c: nat)
    requires c < |s.channels| && !Refuses(s, submission, stamp)
    ensures var s' := Accept(s, submission, stamp);
            && c < |s'.channels|
            && s'.channels[c] == Enqueued(s.channels[c], Frame(s.g.framesIn + 1, |submission.data|, stamp))
            && s'.g.framesIn == s.g.framesIn + 1 && At(s', Pump(c)) == At(s, Pump(c))
  {
  }

  lemma StepKeepsData(s: State, e: Event)
    requires Inv(s) && Data(s) && Enabled(s, e)
    ensures Data(Apply(s, e))
  {
    StepKeepsShape(s, e);
    forall c: nat | c < |Apply(s, e).channels| ensures InOrder(Apply(s, e), c) { StepKeepsOrder(s, e, c); }
  }

  lemma StepKeepsOrder(s: State, e: Event, c: nat)
    requires Inv(s) && RawFrames.ValidFormat(s.format) && InOrder(s, c) && Enabled(s, e)
    ensures InOrder(Apply(s, e), c)
  {
    match e
    case EncoderStep(d, ev) => EncoderKeepsData(s, d, ev, c);
    case Submit(submission, stamp) => SubmitKeepsData(s, submission, stamp, c);
    case ChannelStep(t, ev) => LocalKeepsData(s, t, ev, c);
    case CallStep(t, ev) => CallKeepsData(s, t, ev, c);
    case OwnerStep(t, ev) => OwnerKeepsData(s, t, ev, c);
  }

  // ---------- The depth of a queue ----------

  lemma ActivationKeepsDepth(g: Global, v: Here, t: Tid, e: ActivateEvent)
    requires ActivateEnabled(v, t, e)
    ensures ActivateApply(g, v, t, e).ch.depth == v.ch.depth
  {
  }

  lemma DeactivationKeepsDepth(v: Here, t: Tid, e: DeactivateEvent)
    requires DeactivateEnabled(v, t, e)
    ensures DeactivateApply(v, t, e).ch.depth == v.ch.depth
  {
  }

  lemma LocalKeepsDepth(g: Global, v: Here, t: Tid, e: LocalEvent)
    requires LocalEnabled(g, v, t, e)
    ensures LocalApply(g, v, t, e).ch.depth == v.ch.depth
  {
    match e
    case Activation(ev) => ActivationKeepsDepth(g, v, t, ev);
    case Deactivation(ev) => DeactivationKeepsDepth(v, t, ev);
    case _ =>
  }

  lemma StepKeepsDepth(s: State, e: Event, c: nat)
    requires Enabled(s, e) && c < |s.channels|
    ensures c < |Apply(s, e).channels| && Apply(s, e).channels[c].depth == s.channels[c].depth
  {
    if e.ChannelStep? {
      LocalTouches(s, e.t, e.local, c);
      LocalKeepsDepth(s.g, HereOf(s, e.t), e.t, e.local);
    } else {
      OtherKeepsDepth(s, e, c);
    }
  }

  lemma OtherKeepsDepth(s: State, e: Event, c: nat)
    requires Enabled(s, e) && !e.ChannelStep? && c < |s.channels|
    ensures c < |Apply(s, e).channels| && Apply(s, e).channels[c].depth == s.channels[c].depth
  {
  }

  lemma {:induction false} RunKeepsDepth(s: State, events: seq<Event>, c: nat)
    requires Legal(s, events) && c < |s.channels|
    ensures c < |Run(s, events).channels| && Run(s, events).channels[c].depth == s.channels[c].depth
    decreases |events|
  {
    if events != [] {
      StepKeepsDepth(s, events[0], c);
      RunKeepsDepth(Apply(s, events[0]), events[1..], c);
    }
  }

  lemma {:induction false} RunKeepsShape(s: State, events: seq<Event>)
    requires Legal(s, events)
    ensures |Run(s, events).channels| == |s.channels|
    decreases |events|
  {
    if events != [] {
      StepKeepsShape(s, events[0]);
      RunKeepsShape(Apply(s, events[0]), events[1..]);
    }
  }

  // ---------- Results over all runs ----------

  lemma InitialData(settings: C.Settings, format: RawFrames.Format, preview: bool, dropToLatest: bool)
    requires RawFrames.ValidFormat(format)
    ensures Data(Initial(settings, format, preview, dropToLatest))
  {
  }

  lemma {:induction false} RunKeepsData(s: State, events: seq<Event>)
    requires Inv(s) && Data(s) && Legal(s, events)
    ensures Inv(Run(s, events)) && Data(Run(s, events))
    decreases |events|
  {
    if events != [] {
      StepKeepsInv(s, events[0]);
      StepKeepsData(s, events[0]);
      RunKeepsData(Apply(s, events[0]), events[1..]);
    }
  }

  /** In every reachable state the frames handed to an encoder have increasing numbers over
      the whole run, the queue respects both bounds, and every offered frame is accounted for. */
  lemma QueuesInOrder(settings: C.Settings, format: RawFrames.Format, preview: bool, dropToLatest: bool,
                      events: seq<Event>, c: nat)
    requires RawFrames.ValidFormat(format) && Legal(Initial(settings, format, preview, dropToLatest), events)
    requires c < |Run(Initial(settings, format, preview, dropToLatest), events).channels|
    ensures var s := Run(Initial(settings, format, preview, dropToLatest), events);
            var ch := s.channels[c];
            && Increasing(ch.handed)
            && ch.pendingBytes == Bytes(ch.pending) <= MAX_QUEUED_BYTES
            && |ch.pending| <= (if dropToLatest then 1 else 32)
            && ch.offered == ch.out + ch.dropped + |ch.pending| + ch.cleared + ch.failed + InFlight(At(s, Pump(c)))
  {
    var s0 := Initial(settings, format, preview, dropToLatest);
    RunKeepsShape(s0, events);
    RunKeepsDepth(s0, events, c);
    R.InitialInv(settings, format, preview, dropToLatest);
    InitialData(settings, format, preview, dropToLatest);
    RunKeepsData(s0, events);
    DataInOrder(Run(s0, events), c);
  }

  lemma DataInOrder(s: State, c: nat)
    requires Data(s) && c < |s.channels|
    ensures var ch := s.channels[c];
            && Increasing(ch.handed)
            && ch.pendingBytes == Bytes(ch.pending) <= MAX_QUEUED_BYTES && |ch.pending| <= ch.depth
            && ch.offered == ch.out + ch.dropped + |ch.pending| + ch.cleared + ch.failed + InFlight(At(s, Pump(c)))
  {
    var ch := s.channels[c];
    assert InOrder(s, c);
    assert forall i :: 0 <= i < |ch.handed| ==> ch.handed[i] == Line(ch)[i];
  }

  /** A frame on its way into an encoder was accepted during the current activation of the
      channel, and is newer than every frame handed over before it. */
  lemma HandedFramesAreFresh(s: State, t: Tid, c: nat)
    requires Data(s) && c < |s.channels| && At(s, t) == Pumping(c, PumpHolding)
    requires LocalCan(s, t, Delivery(PumpTake))
    requires LocalDo(s, t, Delivery(PumpTake)).channels[c].handed != s.channels[c].handed
    ensures var handed, handed' := s.channels[c].handed, LocalDo(s, t, Delivery(PumpTake)).channels[c].handed;
            && |handed'| == |handed| + 1 && handed <= handed'
            && handed'[|handed|] > s.channels[c].activatedAt
            && forall x :: x in handed ==> x < handed'[|handed|]
    ensures s.channels[c].active && !s.channels[c].stopping
  {
    var ch := s.channels[c];
    assert InOrder(s, c);
    assert Line(ch)[|ch.handed|] == ch.pending[0].sequence;
    forall x | x in ch.handed ensures x < ch.pending[0].sequence {
      var i :| 0 <= i < |ch.handed| && ch.handed[i] == x;
      assert Line(ch)[i] == x;
    }
  }
}
