/** No circular wait: every untimed lock acquisition follows one ranking. */
module LockOrder {
  // Transition, channel, lifecycle and write locks are held across events.  The frame condition,
  // the encoders' state locks and the previews' metadata locks are held inside a critical
  // section, which RuntimeProtocol takes as one event.  Here a section is opened up: an agent
  // takes the inner locks of its event one at a time, other agents go on in between, then the
  // event happens, and the locks are given back one at a time.

  import opened Threads
  import E = EncoderProtocol
  import I = EncoderInterface
  import C = Configuration
  import RawFrames
  import opened RuntimeProtocol
  import opened RuntimeInvariant
  import opened RuntimeShutdown
  import R = RuntimeRelease

  /** The locks that a thread may wait for without a timeout, most of them by channel. */
  datatype Lock =
    | Transition(c: nat) | ChannelLock(c: nat) | Lifecycle(c: nat) | Write(c: nat)
    | FrameCondition | StateLock(c: nat) | Metadata(c: nat)

  function Rank(l: Lock): nat {
    match l
    case Transition(_) => 0
    case ChannelLock(_) => 1
    case Lifecycle(_) => 2
    case Write(_) => 3
    case FrameCondition => 4
    case StateLock(_) => 5
    case Metadata(_) => 6
  }

  predicate Inner(l: Lock) {
    Rank(l) >= 4
  }

  /** Who may wait: a thread of the runtime, a thread that submits messages, the output reader
      of a child, or a thread that looks at state, for a status or a capture. */
  datatype Agent = Thread(t: Tid) | Submitter(id: nat) | OutputReader(c: nat, child: nat) | Observer(id: nat) | Native

  // ---------- Which inner locks an event takes, in which order ----------

  function SwitchLocks(g: Global, v: Here, c: nat, e: ActivateEvent): seq<Lock> {
    match e
    case Check =>
      if !v.pc.Switching? || (v.pc.active && (g.closing || v.ch.stopping)) || v.pc.active != v.ch.active
      then [FrameCondition]
      else [FrameCondition, StateLock(c)]
    case Confirm => [StateLock(c)]
    case Commit => [FrameCondition]
    case CallRecovery => [StateLock(c)]
    case _ => []
  }

  function DeactivationLocks(c: nat, e: DeactivateEvent): seq<Lock> {
    match e
    case Mute => [FrameCondition]
    case CallSilence => [StateLock(c)]
    case Verify => [StateLock(c)]
    case Deactivate => [FrameCondition]
    case _ => []
  }

  function ReplacementLocks(g: Global, v: Here, e: ConfEvent): seq<Lock> {
    match e
    case ConfCheck =>
      if g.closing || v.ch.active || v.ch.stopping then [FrameCondition] else [FrameCondition, StateLock(0)]
    case ConfBuild(ok) => if ok then [StateLock(0)] else []
    case ConfSwap => [FrameCondition]
    case _ => []
  }

  function DeliveryLocks(e: PumpEvent): seq<Lock> {
    if e.PumpWake? || e.PumpExit? || e.PumpTake? || e.PumpCount? then [FrameCondition] else []
  }

  /** A launch clears the stamps of a preview under its metadata lock, if it gets that far. */
  function LaunchLocks(enc: E.State, c: nat, l: E.Launch): seq<Lock> {
    if enc.preview && (l.NewChild? || l.cleared) then [StateLock(c), Metadata(c)] else [StateLock(c)]
  }

  function EncoderLocks(enc: E.State, c: nat, e: E.Event): seq<Lock> {
    match e
    case Admit(_) => [StateLock(c)]
    case BeforeWrite(_) => if enc.preview then [Metadata(c)] else []
    case StartDecide(_, l) => if enc.stopping || enc.proc.Some? then [StateLock(c)] else LaunchLocks(enc, c, l)
    case RestartDecide(_) => [StateLock(c)]
    case StopRead(_) => [StateLock(c)]
    case SettleStop(_) => [StateLock(c)]
    case SettleRestart(t, l) =>
      var pc := E.At(enc, t);
      if pc.Settling? && pc.goal.generation != enc.generation then [StateLock(c)] else LaunchLocks(enc, c, l)
    case EmitCheck(_) => [Metadata(c)]
    case EmitPop(_) => [Metadata(c)]
    case _ => []
  }

  /** Starting to close the runtime, and waking the pumps, happen under the frame condition.  The
      state locks that a start takes to check each encoder first, one after the other, are looks
      of its thread. */
  function OwnerLocks(e: OwnerEvent): seq<Lock> {
    match e
    case CreateControl(ok) => if ok then [] else [FrameCondition]
    case StartPump(ok) => if ok then [] else [FrameCondition]
    case Listen(ok) => if ok then [] else [FrameCondition]
    case StopRuntime => [FrameCondition]
    case Quiesce(ok) => if ok then [FrameCondition] else []
    case _ => []
  }

  function LocalLocks(g: Global, v: Here, e: LocalEvent): seq<Lock>
    requires ChannelOf(v.pc).Some?
  {
    var c := ChannelOf(v.pc).value;
    match e
    case Activation(ev) => SwitchLocks(g, v, c, ev)
    case Deactivation(ev) => DeactivationLocks(c, ev)
    case Replacement(ev) => ReplacementLocks(g, v, ev)
    case Delivery(ev) => DeliveryLocks(ev)
  }

  function EventLocks(s: State, e: Event): seq<Lock> {
    match e
    case EncoderStep(c, ev) => if c < |s.channels| then EncoderLocks(s.channels[c].encoder, c, ev) else []
    case Submit(submission, _) => if submission.Refused? then [] else [FrameCondition]
    case ChannelStep(t, ev) =>
      var c := ChannelOf(At(s, t));
      if c.Some? && c.value < |s.channels| then LocalLocks(s.g, HereOf(s, t), ev) else []
    case CallStep(_, _) => []
    case OwnerStep(_, ev) => OwnerLocks(ev)
  }

  /** What an agent is in a section for: an event, a look at what one inner lock guards, or
      nothing any more. */
  datatype Job = Perform(e: Event) | Look(l: Lock) | Finished

  function Locks(s: State, job: Job): seq<Lock> {
    match job
    case Perform(e) => EventLocks(s, e)
    case Look(l) => if Inner(l) then [l] else []
    case Finished => []
  }

  predicate Ascending(locks: seq<Lock>) {
    && (forall i :: 0 <= i < |locks| ==> Inner(locks[i]))
    && (forall i, j :: 0 <= i < j < |locks| ==> Rank(locks[i]) < Rank(locks[j]))
  }

  lemma LocksAscend(s: State, job: Job)
    ensures Ascending(Locks(s, job)) && |Locks(s, job)| <= 2
  {
    if job.Perform? {
      match job.e
      case EncoderStep(c, ev) => if c < |s.channels| { EncoderLocksAscend(s.channels[c].encoder, c, ev); }
      case ChannelStep(t, ev) =>
        var c := ChannelOf(At(s, t));
        if c.Some? && c.value < |s.channels| { LocalLocksAscend(s.g, HereOf(s, t), ev); }
      case _ =>
    }
  }

  lemma EncoderLocksAscend(enc: E.State, c: nat, e: E.Event)
    ensures Ascending(EncoderLocks(enc, c, e)) && |EncoderLocks(enc, c, e)| <= 2
  {
  }

  lemma LocalLocksAscend(g: Global, v: Here, e: LocalEvent)
    requires ChannelOf(v.pc).Some?
    ensures Ascending(LocalLocks(g, v, e)) && |LocalLocks(g, v, e)| <= 2
  {
  }

  // ---------- The protocol with open sections ----------

  datatype Section = Section(job: Job, taken: seq<Lock>)

  /** `owner`: who holds each inner lock that is held. */
  datatype Fine = Fine(base: State, owner: map<Lock, Agent>, sections: map<Agent, Section>)

  /** Who takes an event. */
  predicate Belongs(a: Agent, e: Event) {
    match e
    case EncoderStep(c, ev) =>
      if ev.EmitCheck? || ev.EmitPop? then a == OutputReader(c, ev.c)
      else if ev.ChildExits? || ev.ReaderExits? then a == Native
      else a == Thread(ev.t)
    case Submit(_, _) => a.Submitter?
    case ChannelStep(t, _) => a == Thread(t)
    case CallStep(t, _) => a == Thread(t)
    case OwnerStep(t, _) => a == Thread(t)
  }

  datatype FineEvent =
    | Step(a: Agent, e: Event)
    | Begin(a: Agent, job: Job)
    | Take(a: Agent)
    | Happen(a: Agent)
    | Drop(a: Agent)

  function SectionOf(f: Fine, a: Agent): Section {
    if a in f.sections then f.sections[a] else Section(Finished, [])
  }

  /** The inner lock an agent in a section takes next. */
  function NextLock(f: Fine, a: Agent): Option<Lock> {
    var section := SectionOf(f, a);
    var locks := Locks(f.base, section.job);
    if section.taken < locks then Some(locks[|section.taken|]) else None
  }

  ghost predicate FineEnabled(f: Fine, e: FineEvent) {
    match e
    case Step(a, ev) => a !in f.sections && Belongs(a, ev) && EventLocks(f.base, ev) == [] && Enabled(f.base, ev)
    case Begin(a, job) =>
      // With the locks still held, an agent may go on to its next event.
      && (job.Perform? ==> Belongs(a, job.e))
      && SectionOf(f, a).taken <= Locks(f.base, job) && Locks(f.base, job) != []
    case Take(a) => NextLock(f, a).Some? && NextLock(f, a).value !in f.owner
    case Happen(a) =>
      var section := SectionOf(f, a);
      section.job.Perform? && Enabled(f.base, section.job.e) && section.taken == EventLocks(f.base, section.job.e)
    case Drop(a) => a in f.sections
  }

  function FineApply(f: Fine, e: FineEvent): Fine
    requires FineEnabled(f, e)
  {
    match e
    case Step(_, ev) => f.(base := Apply(f.base, ev))
    case Begin(a, job) => f.(sections := f.sections[a := SectionOf(f, a).(job := job)])
    case Take(a) =>
      var l := NextLock(f, a).value;
      f.(owner := f.owner[l := a],
         sections := f.sections[a := Section(SectionOf(f, a).job, SectionOf(f, a).taken + [l])])
    case Happen(a) =>
      f.(base := Apply(f.base, SectionOf(f, a).job.e), sections := f.sections[a := SectionOf(f, a).(job := Finished)])
    case Drop(a) =>
      // The innermost lock first; the section ends with the last one.
      var taken := SectionOf(f, a).taken;
      if taken == [] then f.(sections := f.sections - {a})
      else
        var last := |taken| - 1;
        f.(owner := f.owner - {taken[last]}, sections := f.sections[a := SectionOf(f, a).(taken := taken[..last])])
  }

  // ---------- Who holds and who waits ----------

  /** The outer lock that a thread is about to acquire, at a point where it waits without a
      timeout. */
  function WantsOuter(s: State, t: Tid): Option<Lock> {
    match At(s, t)
    case Switching(c, _, _, Wanting) => Some(Transition(c))
    case Configuring(_, ConfWanting) => Some(Transition(0))
    case Switching(c, _, _, Claiming) => Some(ChannelLock(c))
    case Configuring(_, ConfClaiming) => Some(ChannelLock(0))
    case Pumping(c, PumpClaiming) => Some(ChannelLock(c))
    case Pumping(c, PumpWriting) =>
      if c >= |s.channels| then None
      else if E.At(s.channels[c].encoder, t).WriteFailed? then Some(Lifecycle(c))
      else if E.At(s.channels[c].encoder, t).AtWriteLock? then Some(Write(c))
      else None
    case _ => None
  }

  /** Inside a section an agent waits for the next inner lock, outside one for an outer lock. */
  function Wants(f: Fine, a: Agent): Option<Lock> {
    if a in f.sections then NextLock(f, a)
    else if a.Thread? then WantsOuter(f.base, a.t)
    else None
  }

  function OuterHolder(ch: Channel, l: Lock): Option<Tid> {
    match l
    case Transition(_) => ch.transition
    case ChannelLock(_) => ch.lock
    case Lifecycle(_) => ch.encoder.lifecycle
    case Write(_) => ch.encoder.writeLock
    case _ => None
  }

  predicate Holds(f: Fine, l: Lock, a: Agent) {
    if Inner(l) then l in f.owner && f.owner[l] == a
    else l.c < |f.base.channels| && a.Thread? && OuterHolder(f.base.channels[l.c], l) == Some(a.t)
  }

  // ---------- The invariant ----------

  /** The inner locks that an agent holds are those its section has taken. */
  ghost predicate Kept(f: Fine) {
    && (forall l, a :: l in f.owner && f.owner[l] == a ==> l in SectionOf(f, a).taken)
    && (forall a, i :: 0 <= i < |SectionOf(f, a).taken| ==>
          SectionOf(f, a).taken[i] in f.owner && f.owner[SectionOf(f, a).taken[i]] == a)
    && (forall a :: Ascending(SectionOf(f, a).taken))
  }

  ghost predicate FineInv(f: Fine) {
    Inv(f.base) && Kept(f)
  }

  lemma SameSectionsKept(f: Fine, f': Fine)
    requires Kept(f) && f'.owner == f.owner
    requires forall a :: SectionOf(f', a).taken == SectionOf(f, a).taken
    ensures Kept(f')
  {
  }

  lemma BeginKeepsKept(f: Fine, a: Agent, job: Job)
    requires Kept(f) && FineEnabled(f, Begin(a, job))
    ensures Kept(FineApply(f, Begin(a, job)))
  {
    var f' := FineApply(f, Begin(a, job));
    forall b ensures SectionOf(f', b).taken == SectionOf(f, b).taken {}
  }

  lemma TakeKeepsKept(f: Fine, a: Agent)
    requires Kept(f) && FineEnabled(f, Take(a))
    ensures Kept(FineApply(f, Take(a)))
  {
    LocksAscend(f.base, SectionOf(f, a).job);
    TakenStaysKept(f, FineApply(f, Take(a)), a, NextLock(f, a).value, Locks(f.base, SectionOf(f, a).job));
  }

  lemma TakenStaysKept(f: Fine, f': Fine, a: Agent, l: Lock, locks: seq<Lock>)
    requires Kept(f) && Ascending(locks) && l !in f.owner
    requires SectionOf(f, a).taken < locks && l == locks[|SectionOf(f, a).taken|]
    requires f'.owner == f.owner[l := a] && SectionOf(f', a).taken == SectionOf(f, a).taken + [l]
    requires forall b :: b != a ==> SectionOf(f', b) == SectionOf(f, b)
    ensures Kept(f')
  {
    var taken := SectionOf(f, a).taken;
    assert taken + [l] == locks[..|taken| + 1];
    forall b, i | 0 <= i < |SectionOf(f', b).taken|
      ensures SectionOf(f', b).taken[i] in f'.owner && f'.owner[SectionOf(f', b).taken[i]] == b {
      if b != a || i < |taken| { assert SectionOf(f', b).taken[i] == SectionOf(f, b).taken[i]; }
    }
    forall m, b | m in f'.owner && f'.owner[m] == b ensures m in SectionOf(f', b).taken {
      if m != l { assert m in SectionOf(f, b).taken; }
    }
  }

  lemma DropKeepsKept(f: Fine, a: Agent)
    requires Kept(f) && FineEnabled(f, Drop(a))
    ensures Kept(FineApply(f, Drop(a)))
  {
    var f' := FineApply(f, Drop(a));
    var taken := SectionOf(f, a).taken;
    if taken == [] { SameSectionsKept(f, f'); } else { DroppedStaysKept(f, f', a, taken); }
  }

  /** `f'` is `f` after agent `a` has let go of the last lock of `taken`. */
  ghost predicate Dropped(f: Fine, f': Fine, a: Agent, taken: seq<Lock>) {
    && taken == SectionOf(f, a).taken != []
    && f'.owner == f.owner - {taken[|taken| - 1]} && SectionOf(f', a).taken == taken[..|taken| - 1]
    && forall b :: b != a ==> SectionOf(f', b) == SectionOf(f, b)
  }

  lemma DroppedStaysKept(f: Fine, f': Fine, a: Agent, taken: seq<Lock>)
    requires Kept(f) && Dropped(f, f', a, taken)
    ensures Kept(f')
  {
    forall b, i | 0 <= i < |SectionOf(f', b).taken|
      ensures SectionOf(f', b).taken[i] in f'.owner && f'.owner[SectionOf(f', b).taken[i]] == b {
      assert SectionOf(f', b).taken[i] == SectionOf(f, b).taken[i];
      assert b == a ==> Rank(taken[i]) < Rank(taken[|taken| - 1]);
    }
    forall m, b | m in f'.owner && f'.owner[m] == b ensures m in SectionOf(f', b).taken {
      OwnedStaysTaken(f, f', a, taken, m);
    }
  }

  lemma OwnedStaysTaken(f: Fine, f': Fine, a: Agent, taken: seq<Lock>, m: Lock)
    requires Kept(f) && Dropped(f, f', a, taken) && m in f'.owner
    ensures m in SectionOf(f', f'.owner[m]).taken
  {
    assert m in SectionOf(f, f'.owner[m]).taken;
    if f'.owner[m] == a {
      var i :| 0 <= i < |taken| && taken[i] == m;
      assert taken[..|taken| - 1][i] == m;
    }
  }

  lemma FineStepKeepsInv(f: Fine, e: FineEvent)
    requires FineInv(f) && FineEnabled(f, e)
    ensures FineInv(FineApply(f, e))
  {
    match e
    case Step(_, ev) =>
      StepKeepsInv(f.base, ev);
      SameSectionsKept(f, FineApply(f, e));
    case Begin(a, job) => BeginKeepsKept(f, a, job);
    case Take(a) => TakeKeepsKept(f, a);
    case Happen(a) =>
      StepKeepsInv(f.base, SectionOf(f, a).job.e);
      SameSectionsKept(f, FineApply(f, e));
    case Drop(a) => DropKeepsKept(f, a);
  }

  // ---------- Waiting goes upwards ----------

  /** A thread that waits for an outer lock holds only outer locks below it. */
  lemma OuterWaitsUpwards(s: State, t: Tid, held: Lock)
    requires Inv(s) && WantsOuter(s, t).Some? && !Inner(held)
    requires held.c < |s.channels| && OuterHolder(s.channels[held.c], held) == Some(t)
    ensures Rank(held) < Rank(WantsOuter(s, t).value) < 4
  {
    ConsistentIsFine(s, t, held.c);
    EncoderHolder(s.channels[held.c].encoder, t);
  }

  /** The holder of an encoder's lock is inside one of its entry points, past any wait. */
  lemma EncoderHolder(enc: E.State, t: Tid)
    requires I.Sound(enc)
    ensures enc.lifecycle == Some(t) || enc.writeLock == Some(t) ==>
              var pc := E.At(enc, t); E.CallOf(pc).Some? && !pc.WriteFailed? && !pc.AtWriteLock?
  {
    assert E.HoldsLifecycle(E.At(enc, t)) <==> enc.lifecycle == Some(t);
    assert E.HoldsWrite(E.At(enc, t)) <==> enc.writeLock == Some(t);
  }

  /** Inner locks are held inside sections. */
  lemma HolderIsInSection(f: Fine, held: Lock, a: Agent)
    requires Kept(f) && Inner(held) && Holds(f, held, a)
    ensures a in f.sections
  {
    assert held in SectionOf(f, a).taken;
  }

  /** An agent waits only for a lock above every lock that it holds. */
  lemma WaitsUpwards(f: Fine, a: Agent, held: Lock)
    requires FineInv(f) && Wants(f, a).Some? && Holds(f, held, a)
    ensures Rank(held) < Rank(Wants(f, a).value)
  {
    if Inner(held) { HolderIsInSection(f, held, a); }
    if a in f.sections {
      LocksAscend(f.base, SectionOf(f, a).job);
      var taken, locks := SectionOf(f, a).taken, Locks(f.base, SectionOf(f, a).job);
      if Inner(held) {
        var i :| 0 <= i < |taken| && taken[i] == held;
        assert locks[i] == held;
      }
    } else {
      OuterWaitsUpwards(f.base, a.t, held);
    }
  }

  // ---------- Results ----------

  /** Agent `a` waits for a lock that `b` holds. */
  predicate WaitsFor(f: Fine, a: Agent, b: Agent) {
    Wants(f, a).Some? && Holds(f, Wants(f, a).value, b)
  }

  /** Each agent of a chain waits for the next one. */
  ghost predicate WaitsInChain(f: Fine, chain: seq<Agent>) {
    forall i {:trigger chain[i]} :: 0 <= i < |chain| - 1 ==> WaitsFor(f, chain[i], chain[i + 1])
  }

  /** Every agent of `ring` waits for the next one, and the last for the first. */
  ghost predicate WaitsInRing(f: Fine, ring: seq<Agent>) {
    ring != [] && WaitsInChain(f, ring + [ring[0]])
  }

  function RankAt(f: Fine, a: Agent): (r: nat)
    ensures r <= 7
  {
    if Wants(f, a).Some? then Rank(Wants(f, a).value) else 7
  }

  lemma RankGrows(f: Fine, a: Agent, b: Agent)
    requires FineInv(f) && WaitsFor(f, a, b)
    ensures RankAt(f, a) < RankAt(f, b)
  {
    if Wants(f, b).Some? { WaitsUpwards(f, b, Wants(f, a).value); }
  }

  lemma {:induction false} Climbs(ranks: seq<nat>, n: nat)
    requires n < |ranks| && forall i :: 0 <= i < |ranks| - 1 ==> ranks[i] < ranks[i + 1]
    ensures ranks[n] >= ranks[0] + n
  {
    if n > 0 { Climbs(ranks, n - 1); }
  }

  /** Along a chain of waits the locks waited for rank higher and higher. */
  lemma RanksGrow(f: Fine, chain: seq<Agent>)
    requires FineInv(f) && WaitsInChain(f, chain) && chain != []
    ensures RankAt(f, chain[|chain| - 1]) >= RankAt(f, chain[0]) + |chain| - 1
  {
    var ranks := seq(|chain|, i requires 0 <= i < |chain| => RankAt(f, chain[i]));
    forall i | 0 <= i < |ranks| - 1 ensures ranks[i] < ranks[i + 1] { RankGrows(f, chain[i], chain[i + 1]); }
    Climbs(ranks, |chain| - 1);
  }

  /** A chain of waits has at most eight agents, and it never comes back to where it began: no
      ring of agents, of any length, waits on itself. */
  lemma NoCircularWait(f: Fine, chain: seq<Agent>)
    requires FineInv(f) && WaitsInChain(f, chain)
    ensures |chain| <= 8
    ensures |chain| >= 2 ==> chain[0] != chain[|chain| - 1]
  {
    if chain != [] { RanksGrow(f, chain); }
  }

  ghost predicate FineLegal(f: Fine, events: seq<FineEvent>)
    decreases |events|
  {
    events == [] || (FineEnabled(f, events[0]) && FineLegal(FineApply(f, events[0]), events[1..]))
  }

  function FineRun(f: Fine, events: seq<FineEvent>): Fine
    requires FineLegal(f, events)
    decreases |events|
  {
    if events == [] then f else FineRun(FineApply(f, events[0]), events[1..])
  }

  lemma {:induction false} FineRunKeepsInv(f: Fine, events: seq<FineEvent>)
    requires FineInv(f) && FineLegal(f, events)
    ensures FineInv(FineRun(f, events))
    decreases |events|
  {
    if events != [] {
      FineStepKeepsInv(f, events[0]);
      FineRunKeepsInv(FineApply(f, events[0]), events[1..]);
    }
  }

  /** Nobody is in a section. */
  function Outside(s: State): Fine {
    Fine(s, map[], map[])
  }

  // ---------- Opening the sections loses no run ----------

  lemma Chain(f: Fine, e: FineEvent, events: seq<FineEvent>)
    requires FineEnabled(f, e) && FineLegal(FineApply(f, e), events)
    ensures FineLegal(f, [e] + events) && FineRun(f, [e] + events) == FineRun(FineApply(f, e), events)
  {
    assert ([e] + events)[1..] == events;
  }

  function AgentOf(e: Event): Agent {
    match e
    case EncoderStep(c, ev) =>
      if ev.EmitCheck? || ev.EmitPop? then OutputReader(c, ev.c)
      else if ev.ChildExits? || ev.ReaderExits? then Native
      else Thread(ev.t)
    case Submit(_, _) => Submitter(0)
    case ChannelStep(t, _) => Thread(t)
    case CallStep(t, _) => Thread(t)
    case OwnerStep(t, _) => Thread(t)
  }

  /** An agent alone in a section, with `taken` of its locks. */
  function Alone(s: State, a: Agent, job: Job, taken: seq<Lock>): Fine {
    Fine(s, AllOwned(taken, a), map[a := Section(job, taken)])
  }

  function AllOwned(taken: seq<Lock>, a: Agent): map<Lock, Agent> {
    map l | l in taken :: a
  }

  lemma OneLess(taken: seq<Lock>, a: Agent)
    requires Ascending(taken) && taken != []
    ensures AllOwned(taken, a) - {taken[|taken| - 1]} == AllOwned(taken[..|taken| - 1], a)
  {
    var last := |taken| - 1;
    assert forall l :: l in taken <==> l in taken[..last] || l == taken[last];
    forall l | l in taken[..last] ensures l != taken[last] {
      var i :| 0 <= i < last && taken[i] == l;
      assert Rank(taken[i]) < Rank(taken[last]);
    }
  }

  lemma OneMore(locks: seq<Lock>, n: nat, a: Agent)
    requires n < |locks| && Ascending(locks)
    ensures AllOwned(locks[..n], a)[locks[n] := a] == AllOwned(locks[..n + 1], a)
    ensures locks[n] !in AllOwned(locks[..n], a)
  {
    assert forall l :: l in locks[..n + 1] <==> l in locks[..n] || l == locks[n];
    forall l | l in locks[..n] ensures l != locks[n] {
      var i :| 0 <= i < n && locks[i] == l;
      assert Rank(locks[i]) < Rank(locks[n]);
    }
  }

  /** Giving the locks back ends the section, and the run goes on with `rest`. */
  lemma {:induction false} Leaves(s: State, a: Agent, taken: seq<Lock>, rest: seq<FineEvent>)
    returns (events: seq<FineEvent>)
    requires Ascending(taken) && FineLegal(Outside(s), rest)
    ensures FineLegal(Alone(s, a, Finished, taken), events)
    ensures FineRun(Alone(s, a, Finished, taken), events) == FineRun(Outside(s), rest)
    decreases |taken|
  {
    var f, e := Alone(s, a, Finished, taken), Drop(a);
    if taken == [] {
      assert FineApply(f, e) == Outside(s);
      events := rest;
    } else {
      DropsLast(s, a, taken);
      events := Leaves(s, a, taken[..|taken| - 1], rest);
    }
    Chain(f, e, events);
    events := [e] + events;
  }

  lemma DropsLast(s: State, a: Agent, taken: seq<Lock>)
    requires Ascending(taken) && taken != []
    ensures FineApply(Alone(s, a, Finished, taken), Drop(a)) == Alone(s, a, Finished, taken[..|taken| - 1])
  {
    OneLess(taken, a);
    DropIs(Alone(s, a, Finished, taken), a, taken);
    Moved(a, Section(Finished, taken), Section(Finished, taken[..|taken| - 1]));
  }

  lemma DropIs(f: Fine, a: Agent, taken: seq<Lock>)
    requires a in f.sections && f.sections[a].taken == taken != []
    ensures FineEnabled(f, Drop(a))
    ensures var section := f.sections[a].(taken := taken[..|taken| - 1]);
            FineApply(f, Drop(a)) == f.(owner := f.owner - {taken[|taken| - 1]}, sections := f.sections[a := section])
  {
  }

  /** Taking the rest of the locks, the event, and giving them back. */
  lemma {:induction false} Performs(s: State, e: Event, n: nat, rest: seq<FineEvent>) returns (events: seq<FineEvent>)
    requires Enabled(s, e) && n <= |EventLocks(s, e)| && FineLegal(Outside(Apply(s, e)), rest)
    ensures var f := Alone(s, AgentOf(e), Perform(e), EventLocks(s, e)[..n]);
            FineLegal(f, events) && FineRun(f, events) == FineRun(Outside(Apply(s, e)), rest)
    decreases |EventLocks(s, e)| - n
  {
    var a, locks := AgentOf(e), EventLocks(s, e);
    var f := Alone(s, a, Perform(e), locks[..n]);
    LocksAscend(s, Perform(e));
    if n == |locks| {
      assert locks[..n] == locks;
      assert FineApply(f, Happen(a)) == Alone(Apply(s, e), a, Finished, locks);
      events := Leaves(Apply(s, e), a, locks, rest);
      Chain(f, Happen(a), events);
      events := [Happen(a)] + events;
    } else {
      TakesNext(s, e, n);
      events := Performs(s, e, n + 1, rest);
      Chain(f, Take(a), events);
      events := [Take(a)] + events;
    }
  }

  lemma TakesNext(s: State, e: Event, n: nat)
    requires n < |EventLocks(s, e)|
    ensures var a, locks := AgentOf(e), EventLocks(s, e);
            var f := Alone(s, a, Perform(e), locks[..n]);
            FineEnabled(f, Take(a)) && FineApply(f, Take(a)) == Alone(s, a, Perform(e), locks[..n + 1])
  {
    LocksAscend(s, Perform(e));
    TakesLock(s, AgentOf(e), Perform(e), EventLocks(s, e), n);
  }

  lemma TakesLock(s: State, a: Agent, job: Job, locks: seq<Lock>, n: nat)
    requires Ascending(locks) && n < |locks| && Locks(s, job) == locks
    ensures var f := Alone(s, a, job, locks[..n]);
            FineEnabled(f, Take(a)) && FineApply(f, Take(a)) == Alone(s, a, job, locks[..n + 1])
  {
    var f := Alone(s, a, job, locks[..n]);
    OneMore(locks, n, a);
    NextIs(s, a, job, locks, n);
    TakeIs(f, a, locks[n]);
    AloneWithOneMore(s, a, job, locks, n);
  }

  lemma AloneWithOneMore(s: State, a: Agent, job: Job, locks: seq<Lock>, n: nat)
    requires Ascending(locks) && n < |locks|
    ensures var f := Alone(s, a, job, locks[..n]);
            f.(owner := f.owner[locks[n] := a],
               sections := f.sections[a := Section(SectionOf(f, a).job, SectionOf(f, a).taken + [locks[n]])])
            == Alone(s, a, job, locks[..n + 1])
  {
    OneMore(locks, n, a);
    assert locks[..n + 1] == locks[..n] + [locks[n]];
    Moved(a, Section(job, locks[..n]), Section(job, locks[..n + 1]));
  }

  lemma Moved(a: Agent, before: Section, after: Section)
    ensures map[a := before][a := after] == map[a := after]
  {
  }

  lemma NextIs(s: State, a: Agent, job: Job, locks: seq<Lock>, n: nat)
    requires n < |locks| && Locks(s, job) == locks
    ensures NextLock(Alone(s, a, job, locks[..n]), a) == Some(locks[n])
  {
    assert locks[..n] < locks;
  }

  lemma TakeIs(f: Fine, a: Agent, l: Lock)
    requires NextLock(f, a) == Some(l) && l !in f.owner
    ensures FineEnabled(f, Take(a))
    ensures FineApply(f, Take(a))
         == f.(owner := f.owner[l := a],
               sections := f.sections[a := Section(SectionOf(f, a).job, SectionOf(f, a).taken + [l])])
  {
  }

  /** Every event can be taken with its section opened up. */
  lemma EventOpens(s: State, e: Event, rest: seq<FineEvent>) returns (events: seq<FineEvent>)
    requires Enabled(s, e) && FineLegal(Outside(Apply(s, e)), rest)
    ensures FineLegal(Outside(s), events) && FineRun(Outside(s), events) == FineRun(Outside(Apply(s, e)), rest)
  {
    var a, f := AgentOf(e), Outside(s);
    if EventLocks(s, e) == [] {
      Chain(f, Step(a, e), rest);
      events := [Step(a, e)] + rest;
    } else {
      events := Performs(s, e, 0, rest);
      assert FineApply(f, Begin(a, Perform(e))) == Alone(s, a, Perform(e), EventLocks(s, e)[..0]);
      Chain(f, Begin(a, Perform(e)), events);
      events := [Begin(a, Perform(e))] + events;
    }
  }

  /** Every run of the runtime is a run with open sections. */
  lemma {:induction false} RunOpens(s: State, run: seq<Event>) returns (events: seq<FineEvent>)
    requires Legal(s, run)
    ensures FineLegal(Outside(s), events) && FineRun(Outside(s), events) == Outside(Run(s, run))
    decreases |run|
  {
    events := [];
    if run != [] {
      var rest := RunOpens(Apply(s, run[0]), run[1..]);
      events := EventOpens(s, run[0], rest);
    }
  }

  /** In no reachable state, of the protocol with open sections, does a ring wait on itself. */
  lemma NoDeadlock(settings: C.Settings, format: RawFrames.Format, preview: bool, dropToLatest: bool,
                   events: seq<FineEvent>, ring: seq<Agent>)
    requires FineLegal(Outside(Initial(settings, format, preview, dropToLatest)), events)
    ensures !WaitsInRing(FineRun(Outside(Initial(settings, format, preview, dropToLatest)), events), ring)
  {
    var f := Outside(Initial(settings, format, preview, dropToLatest));
    R.InitialInv(settings, format, preview, dropToLatest);
    assert Kept(f);
    FineRunKeepsInv(f, events);
    if ring != [] && WaitsInRing(FineRun(f, events), ring) { NoCircularWait(FineRun(f, events), ring + [ring[0]]); }
  }
}
