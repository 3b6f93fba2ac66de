/** Online configuration is a linearizable compare-and-set on the settings. */
module RuntimeConfiguration {
  import opened Threads
  import E = EncoderProtocol
  import C = Configuration
  import RawFrames
  import opened RuntimeProtocol
  import opened RuntimeInvariant
  import opened RuntimeShutdown
  import R = RuntimeRelease

  // ---------- The invariant ----------

  function Patches(log: seq<Plan>): seq<C.Patch> {
    seq(|log|, i requires 0 <= i < |log| => log[i].patch)
  }

  /** The settings that the applied patches produce. */
  function Folded(g: Global): C.Settings {
    C.Fold(g.base, Patches(g.log))
  }

  /** What a thread on the way to changing the settings has established. */
  predicate Planned(g: Global, pc: Pc) {
    match pc
    case Configuring(plan, _) =>
      plan.expected == g.revision && C.Check(g.settings, plan.patch) == C.Candidate(plan.candidate)
    case Publishing(plan) =>
      && plan.expected == g.revision && g.settings == plan.candidate
      && C.Check(Folded(g), plan.patch) == C.Candidate(plan.candidate)
    case _ => true
  }

  /** Every applied patch consumed its own revision, and was checked against what the earlier
      ones had produced. */
  ghost predicate History(g: Global) {
    && g.revision == 1 + |g.log|
    && forall i :: 0 <= i < |g.log| ==>
         && g.log[i].expected == 1 + i
         && C.Check(C.Fold(g.base, Patches(g.log[..i])), g.log[i].patch) == C.Candidate(g.log[i].candidate)
  }

  ghost predicate NobodyPublishes(s: State) {
    forall t :: !At(s, t).Publishing?
  }

  ghost predicate Configured(s: State) {
    && History(s.g)
    && (forall t :: Planned(s.g, At(s, t)))
    && (NobodyPublishes(s) ==>
          && s.g.settings == Folded(s.g)
          && s.g.described == Destination(s.g.settings.rtpHost, s.g.settings.rtpPort))
    && 0 < |s.channels| && s.channels[0].built == s.g.settings
  }

  // ---------- Steps ----------

  /** Nothing about the configuration differs. */
  predicate SameSettings(g: Global, g': Global) {
    && g'.settings == g.settings && g'.described == g.described
    && g'.revision == g.revision && g'.base == g.base && g'.log == g.log
  }

  predicate PublishStep(e: Event) {
    e.CallStep? && e.call.Publish?
  }

  predicate SwapStep(e: Event) {
    e.ChannelStep? && IsSwap(e.local)
  }

  predicate ResetStep(e: Event) {
    e.OwnerStep? && e.owner == CreateControl(true)
  }

  lemma CallKeepsSettings(n: nat, w: There, t: Tid, e: CallEvent)
    requires CallEnabled(n, w, t, e) && !e.Publish?
    ensures SameSettings(w.g, CallApply(n, w, t, e).g)
  {
  }

  lemma OwnerKeepsSettings(n: nat, quiet: bool, w: There, t: Tid, e: OwnerEvent)
    requires e != CreateControl(true)
    requires (e.StartPump? ==> w.pc.Owning? && w.pc.owner.PumpStarting?)
    requires (e.JoinPump? ==> w.pc.Owning? && w.pc.owner.JoinAt?)
    ensures SameSettings(w.g, OwnerApply(n, quiet, w, t, e).g)
  {
  }

  lemma LocalKeepsBuilt(g: Global, v: Here, t: Tid, e: LocalEvent)
    requires LocalEnabled(g, v, t, e) && !IsSwap(e)
    ensures LocalApply(g, v, t, e).ch.built == v.ch.built && !LocalApply(g, v, t, e).pc.Publishing?
  {
    match e
    case Activation(ev) => ActivationKeepsBuilt(g, v, t, ev);
    case Deactivation(ev) => DeactivationKeepsBuilt(v, t, ev);
    case _ =>
  }

  lemma ActivationKeepsBuilt(g: Global, v: Here, t: Tid, e: ActivateEvent)
    requires ActivateEnabled(v, t, e)
    ensures var v' := ActivateApply(g, v, t, e); v'.ch.built == v.ch.built && !v'.pc.Publishing?
  {
  }

  lemma DeactivationKeepsBuilt(v: Here, t: Tid, e: DeactivateEvent)
    requires DeactivateEnabled(v, t, e)
    ensures var v' := DeactivateApply(v, t, e); v'.ch.built == v.ch.built && !v'.pc.Publishing?
  {
  }

  lemma LocalKeepsPlanned(g: Global, v: Here, t: Tid, e: LocalEvent)
    requires LocalEnabled(g, v, t, e) && !IsSwap(e) && Planned(g, v.pc)
    ensures Planned(g, LocalApply(g, v, t, e).pc)
  {
    LocalMovesOn(g, v, t, e);
    LocalKeepsBuilt(g, v, t, e);
  }

  lemma CallKeepsPlanned(n: nat, w: There, t: Tid, e: CallEvent)
    requires CallEnabled(n, w, t, e) && !e.Publish? && Planned(w.g, w.pc)
    ensures var w' := CallApply(n, w, t, e); Planned(w'.g, w'.pc) && !w'.pc.Publishing?
  {
  }

  /** A thread that configures or publishes holds the source transition, and nobody else does. */
  lemma OnlyOne(s: State, t: Tid, u: Tid)
    requires Consistent(s) && HoldsControl(At(s, t)) && HoldsControl(At(s, u))
    ensures t == u
  {
    assert Owned(s.g, t, At(s, t)) && Owned(s.g, u, At(s, u));
  }

  lemma SamePlanned(g: Global, g': Global, pc: Pc)
    requires SameSettings(g, g') && Planned(g, pc)
    ensures Planned(g', pc)
  {
  }

  // ---------- Steps that leave the configuration alone ----------

  /** The thread neither gains nor loses a plan that the settings do not support. */
  predicate Undisturbed(s: State, s': State, u: Tid) {
    Planned(s'.g, At(s', u)) && (At(s', u).Publishing? <==> At(s, u).Publishing?)
  }

  ghost predicate Settling(s: State, s': State) {
    && SameSettings(s.g, s'.g)
    && 0 < |s.channels| && 0 < |s'.channels| && s'.channels[0].built == s.channels[0].built
    && forall u {:trigger At(s', u)} :: Undisturbed(s, s', u)
  }

  lemma SettlingKeepsConfigured(s: State, s': State)
    requires Configured(s) && Settling(s, s')
    ensures Configured(s')
  {
    forall u ensures Planned(s'.g, At(s', u)) { assert Undisturbed(s, s', u); }
    if NobodyPublishes(s') {
      forall u ensures !At(s, u).Publishing? { assert Undisturbed(s, s', u); }
    }
  }

  lemma EncoderSettles(s: State, c: nat, e: E.Event)
    requires Configured(s) && EncoderCan(s, c, e)
    ensures Settling(s, EncoderDo(s, c, e))
  {
    forall u ensures Undisturbed(s, EncoderDo(s, c, e), u) { assert Planned(s.g, At(s, u)); }
  }

  lemma AcceptSettles(s: State, submission: RawFrames.Submission, stamp: int)
    requires Configured(s)
    ensures Settling(s, Accept(s, submission, stamp))
  {
    var s' := Accept(s, submission, stamp);
    forall u ensures Undisturbed(s, s', u) {
      assert Planned(s.g, At(s, u));
      SamePlanned(s.g, s'.g, At(s, u));
    }
  }

  lemma LocalSettles(s: State, t: Tid, e: LocalEvent)
    requires Configured(s) && LocalCan(s, t, e) && !IsSwap(e)
    ensures Settling(s, LocalDo(s, t, e))
  {
    var s' := LocalDo(s, t, e);
    LocalKeepsBuilt(s.g, HereOf(s, t), t, e);
    LocalTouches(s, t, e, 0);
    forall u ensures Undisturbed(s, s', u) {
      assert Planned(s.g, At(s, u));
      LocalMovesOne(s, t, e, u);
      if u == t { LocalKeepsPlanned(s.g, HereOf(s, t), t, e); }
    }
  }

  lemma CallSettles(s: State, t: Tid, e: CallEvent)
    requires Configured(s) && CallCan(s, t, e) && !e.Publish?
    ensures Settling(s, CallDo(s, t, e))
  {
    var s' := CallDo(s, t, e);
    CallKeepsSettings(|s.channels|, ThereOf(s, t), t, e);
    forall u ensures Undisturbed(s, s', u) {
      assert Planned(s.g, At(s, u));
      CallMovesOne(s, t, e, u);
      if u == t { CallKeepsPlanned(|s.channels|, ThereOf(s, t), t, e); }
      else { SamePlanned(s.g, s'.g, At(s, u)); }
    }
  }

  lemma OwnerSettles(s: State, t: Tid, e: OwnerEvent)
    requires Inv(s) && Configured(s) && OwnerEnabled(s, t, e) && e != CreateControl(true)
    ensures Settling(s, OwnerDo(s, t, e))
  {
    var s' := OwnerDo(s, t, e);
    OwnerKeepsSettings(|s.channels|, NothingToStop(s), ThereOf(s, t), t, e);
    OwnerStartsIdle(s, t, e);
    forall u ensures Undisturbed(s, s', u) {
      assert Planned(s.g, At(s, u));
      if !Starts(s, t, e, u) { OwnerMovesOne(s, t, e, u); }
      if u != t { SamePlanned(s.g, s'.g, At(s, u)); }
    }
  }

  // ---------- Steps that change it ----------

  /** Replacing the encoder and the settings. */
  lemma SwapKeepsConfigured(s: State, t: Tid)
    requires Inv(s) && Configured(s) && LocalCan(s, t, Replacement(ConfSwap))
    ensures Configured(LocalDo(s, t, Replacement(ConfSwap)))
  {
    var s' := LocalDo(s, t, Replacement(ConfSwap));
    assert Planned(s.g, At(s, t));
    LocalTouches(s, t, Replacement(ConfSwap), 0);
    forall u ensures !At(s, u).Publishing? && Planned(s'.g, At(s', u)) {
      assert Planned(s.g, At(s, u));
      LocalMovesOne(s, t, Replacement(ConfSwap), u);
      if At(s, u).Publishing? || At(s, u).Configuring? { OnlyOne(s, t, u); }
    }
    assert At(s', t).Publishing?;
  }

  lemma PatchesOf(log: seq<Plan>, plan: Plan)
    ensures Patches(log + [plan]) == Patches(log) + [plan.patch]
  {
  }

  lemma HistoryGrows(g: Global, g': Global, plan: Plan)
    requires History(g) && plan.expected == g.revision
    requires C.Check(Folded(g), plan.patch) == C.Candidate(plan.candidate)
    requires g'.base == g.base && g'.log == g.log + [plan] && g'.revision == g.revision + 1
    ensures History(g') && Folded(g') == plan.candidate
  {
    PatchesOf(g.log, plan);
    C.AcceptedPatches(Folded(g), plan.patch);
    var patches := Patches(g'.log);
    assert patches[..|patches| - 1] == Patches(g.log);
    assert g'.log[..|g.log|] == g.log;
    forall i | 0 <= i < |g.log| ensures g'.log[..i] == g.log[..i] && g'.log[i] == g.log[i] {}
  }

  lemma PublishKeepsConfigured(s: State, t: Tid)
    requires Inv(s) && Configured(s) && CallCan(s, t, Publish)
    ensures Configured(CallDo(s, t, Publish))
  {
    var s' := CallDo(s, t, Publish);
    assert Planned(s.g, At(s, t));
    HistoryGrows(s.g, s'.g, At(s, t).plan);
    forall u ensures Planned(s'.g, At(s', u)) {
      CallMovesOne(s, t, Publish, u);
      if u != t && HoldsControl(At(s, u)) { OnlyOne(s, t, u); }
    }
  }

  /** A new control server starts a new history. */
  lemma ResetKeepsConfigured(s: State, t: Tid)
    requires Inv(s) && Configured(s) && OwnerEnabled(s, t, CreateControl(true))
    ensures Configured(OwnerDo(s, t, CreateControl(true)))
  {
    var s' := OwnerDo(s, t, CreateControl(true));
    assert Phase(s, At(s, t));
    forall u ensures !HoldsControl(At(s, u)) && !HoldsControl(At(s', u)) {
      assert Owned(s.g, u, At(s, u));
      OwnerMovesOne(s, t, CreateControl(true), u);
    }
    assert NobodyPublishes(s) && Patches(s'.g.log) == [];
  }

  lemma StepKeepsConfigured(s: State, e: Event)
    requires Inv(s) && Configured(s) && Enabled(s, e)
    ensures Configured(Apply(s, e))
  {
    if PublishStep(e) { PublishKeepsConfigured(s, e.t); }
    else if SwapStep(e) { SwapKeepsConfigured(s, e.t); }
    else if ResetStep(e) { ResetKeepsConfigured(s, e.t); }
    else {
      OtherSettles(s, e);
      SettlingKeepsConfigured(s, Apply(s, e));
    }
  }

  lemma OtherSettles(s: State, e: Event)
    requires Inv(s) && Configured(s) && Enabled(s, e) && !PublishStep(e) && !SwapStep(e) && !ResetStep(e)
    ensures Settling(s, Apply(s, e))
  {
    match e
    case EncoderStep(c, ev) => EncoderSettles(s, c, ev);
    case Submit(submission, stamp) => AcceptSettles(s, submission, stamp);
    case ChannelStep(t, ev) => LocalSettles(s, t, ev);
    case CallStep(t, ev) => CallSettles(s, t, ev);
    case OwnerStep(t, ev) => OwnerSettles(s, t, ev);
  }

  // ---------- Results over all runs ----------

  lemma InitialConfigured(settings: C.Settings, format: RawFrames.Format, preview: bool, dropToLatest: bool)
    ensures Configured(Initial(settings, format, preview, dropToLatest))
  {
    assert Patches([]) == [];
  }

  lemma {:induction false} RunKeepsConfigured(s: State, events: seq<Event>)
    requires Inv(s) && Configured(s) && Legal(s, events)
    ensures Inv(Run(s, events)) && Configured(Run(s, events))
    decreases |events|
  {
    if events != [] {
      StepKeepsInv(s, events[0]);
      StepKeepsConfigured(s, events[0]);
      RunKeepsConfigured(Apply(s, events[0]), events[1..]);
    }
  }

  /** In every reachable state the successful patches have consumed the revisions 1, 2, 3, ...
      once each, in order; unless one is just being recorded, the settings, the encoder built
      from them and the described destination are what those patches produce. */
  lemma ConfigurationIsCompareAndSet(settings: C.Settings, format: RawFrames.Format, preview: bool, dropToLatest: bool,
                                     events: seq<Event>)
    requires Legal(Initial(settings, format, preview, dropToLatest), events)
    ensures var s := Run(Initial(settings, format, preview, dropToLatest), events);
            && History(s.g)
            && |s.channels| > 0 && s.channels[0].built == s.g.settings
            && (s.g.control.None? ==>
                  && s.g.settings == Folded(s.g)
                  && s.g.described == Destination(s.g.settings.rtpHost, s.g.settings.rtpPort))
  {
    var s0 := Initial(settings, format, preview, dropToLatest);
    R.InitialInv(settings, format, preview, dropToLatest);
    InitialConfigured(settings, format, preview, dropToLatest);
    RunKeepsConfigured(s0, events);
    if Run(s0, events).g.control.None? { FreeMeansUnpublished(Run(s0, events)); }
  }

  lemma FreeMeansUnpublished(s: State)
    requires Consistent(s) && s.g.control.None?
    ensures NobodyPublishes(s)
  {
    forall t ensures !At(s, t).Publishing? { assert Owned(s.g, t, At(s, t)); }
  }

  /** The settings change only by an accepted patch that was meant for the current revision,
      while the RTP channel is inactive and has no child; a refused or failed patch changes
      nothing. */
  lemma SettingsChangeOnlyBySwap(s: State, e: Event)
    requires Inv(s) && Configured(s) && Enabled(s, e) && !SameSettings(s.g, Apply(s, e).g)
    ensures PublishStep(e) || SwapStep(e) || ResetStep(e)
    ensures Apply(s, e).g.settings != s.g.settings ==>
              e.ChannelStep? && GuardedSwap(s, e.t) && At(s, e.t).plan.candidate == Apply(s, e).g.settings
  {
    if SwapStep(e) { SwapIsGuarded(s, e.t); }
    else if !PublishStep(e) && !ResetStep(e) { OtherSettles(s, e); }
  }

  /** The thread is about to apply an accepted patch meant for the current revision, and the
      RTP channel is inactive and has no child. */
  predicate GuardedSwap(s: State, t: Tid) {
    && At(s, t).Configuring?
    && var plan := At(s, t).plan;
       && plan.expected == s.g.revision
       && C.Check(s.g.settings, plan.patch) == C.Candidate(plan.candidate)
       && |s.channels| > 0 && !s.channels[0].active && s.channels[0].encoder.proc.None?
  }

  lemma SwapIsGuarded(s: State, t: Tid)
    requires Inv(s) && Configured(s) && LocalCan(s, t, Replacement(ConfSwap))
    ensures GuardedSwap(s, t)
  {
    assert Planned(s.g, At(s, t));
    ConsistentIsFine(s, t, 0);
  }

  lemma StepKeepsMutable(s: State, e: Event, field: string)
    requires Inv(s) && Configured(s) && Enabled(s, e)
    ensures C.IsMutable(Apply(s, e).g.settings, field) <==> C.IsMutable(s.g.settings, field)
  {
    if !SameSettings(s.g, Apply(s, e).g) {
      SettingsChangeOnlyBySwap(s, e);
      if Apply(s, e).g.settings != s.g.settings { C.AcceptedPatches(s.g.settings, At(s, e.t).plan.patch); }
    }
  }

  /** Whatever patches are applied, the set of mutable fields never changes. */
  lemma {:induction false} MutableFieldsAreFixed(s: State, events: seq<Event>, field: string)
    requires Inv(s) && Configured(s) && Legal(s, events)
    ensures C.IsMutable(Run(s, events).g.settings, field) <==> C.IsMutable(s.g.settings, field)
    decreases |events|
  {
    if events != [] {
      StepKeepsMutable(s, events[0], field);
      StepKeepsInv(s, events[0]);
      StepKeepsConfigured(s, events[0]);
      MutableFieldsAreFixed(Apply(s, events[0]), events[1..], field);
    }
  }
}
