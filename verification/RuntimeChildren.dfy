/** Children belong to the encoder in use; units carry their own stamps. */
module RuntimeChildren {
  import opened Threads
  import E = EncoderProtocol
  import P = EncoderPairing
  import I = EncoderInterface
  import C = Configuration
  import RawFrames
  import opened RuntimeProtocol
  import opened RuntimeInvariant
  import opened RuntimeShutdown
  import R = RuntimeRelease

  // ---------- Replaced encoders ----------

  /** An encoder that nobody is inside of and that has no child. */
  ghost predicate Inert(enc: E.State) {
    I.Sound(enc) && enc.proc.None? && forall t :: I.Inside(enc, t, None)
  }

  lemma InertIsIdle(enc: E.State)
    requires Inert(enc)
    ensures forall t :: E.At(enc, t).Idle?
    ensures forall c :: 0 <= c < |enc.children| ==> enc.children[c].reaped && !enc.children[c].checked
  {
    I.StoppedIsQuiet(enc);
    forall t ensures E.At(enc, t).Idle? { assert I.Inside(enc, t, None); }
    forall c | 0 <= c < |enc.children| ensures !enc.children[c].checked { assert E.Reader(c, true) !in enc.alive; }
  }

  /** Nothing can happen in an inert encoder any more. */
  lemma InertStaysSame(enc: E.State, e: E.Event)
    requires Inert(enc) && E.Enabled(enc, e) && !E.External(e)
    ensures E.Apply(enc, e) == enc
  {
    I.StoppedIsQuiet(enc);
    InertIsIdle(enc);
    if e.ChildExits? {
      assert enc.children[e.c := enc.children[e.c].(reaped := true)] == enc.children;
    }
  }

  ghost predicate RetiredInert(s: State) {
    forall c :: 0 <= c < |s.channels| ==> AllInert(s.channels[c].retired)
  }

  ghost predicate AllInert(encs: seq<E.State>) {
    forall enc :: enc in encs ==> Inert(enc)
  }

  /** An encoder is replaced only when it is inert. */
  lemma SwapRetiresInert(s: State, t: Tid)
    requires Inv(s) && LocalCan(s, t, Replacement(ConfSwap))
    ensures Inert(s.channels[0].encoder)
  {
    var enc := s.channels[0].encoder;
    ConsistentIsFine(s, t, 0);
    forall u ensures I.Inside(enc, u, None) { ConsistentIsFine(s, u, 0); }
  }

  lemma SwitchKeepsRetired(g: Global, v: Here, t: Tid, e: LocalEvent)
    requires LocalEnabled(g, v, t, e) && (e.Activation? || e.Deactivation?)
    ensures LocalApply(g, v, t, e).ch.retired == v.ch.retired
  {
  }

  lemma LocalKeepsRetired(g: Global, v: Here, t: Tid, e: LocalEvent)
    requires LocalEnabled(g, v, t, e)
    ensures LocalApply(g, v, t, e).ch.retired == v.ch.retired + if IsSwap(e) then [v.ch.encoder] else []
  {
    if e.Activation? || e.Deactivation? { SwitchKeepsRetired(g, v, t, e); }
  }

  lemma LocalKeepsInert(s: State, t: Tid, e: LocalEvent, c: nat)
    requires Inv(s) && LocalCan(s, t, e) && c < |s.channels| && AllInert(s.channels[c].retired)
    ensures AllInert(LocalDo(s, t, e).channels[c].retired)
  {
    LocalKeepsRetired(s.g, HereOf(s, t), t, e);
    LocalTouches(s, t, e, c);
    if IsSwap(e) { SwapRetiresInert(s, t); }
  }

  lemma OtherKeepsRetired(s: State, e: Event, c: nat)
    requires Enabled(s, e) && !e.ChannelStep? && c < |s.channels|
    ensures c < |Apply(s, e).channels| && Apply(s, e).channels[c].retired == s.channels[c].retired
  {
  }

  lemma StepKeepsRetiredInert(s: State, e: Event)
    requires Inv(s) && RetiredInert(s) && Enabled(s, e)
    ensures RetiredInert(Apply(s, e))
  {
    StepKeepsShape(s, e);
    forall c: nat | c < |s.channels| ensures AllInert(Apply(s, e).channels[c].retired) {
      assert AllInert(s.channels[c].retired);
      if e.ChannelStep? { LocalKeepsInert(s, e.t, e.local, c); } else { OtherKeepsRetired(s, e, c); }
    }
  }

  lemma {:induction false} RunKeepsRetiredInert(s: State, events: seq<Event>)
    requires Inv(s) && RetiredInert(s) && Legal(s, events)
    ensures Inv(Run(s, events)) && RetiredInert(Run(s, events))
    decreases |events|
  {
    if events != [] {
      StepKeepsInv(s, events[0]);
      StepKeepsRetiredInert(s, events[0]);
      RunKeepsRetiredInert(Apply(s, events[0]), events[1..]);
    }
  }

  // ---------- Results over all runs ----------

  /** In every reachable state, an unreaped child is the one its channel's encoder owns, and
      the encoders replaced so far have no unreaped child and no reader. */
  lemma NoOrphans(settings: C.Settings, format: RawFrames.Format, preview: bool, dropToLatest: bool,
                  events: seq<Event>, c: nat)
    requires Legal(Initial(settings, format, preview, dropToLatest), events)
    requires c < |Run(Initial(settings, format, preview, dropToLatest), events).channels|
    ensures var ch := Run(Initial(settings, format, preview, dropToLatest), events).channels[c];
            && (forall k :: 0 <= k < |ch.encoder.children| && !ch.encoder.children[k].reaped ==>
                  ch.encoder.proc == Some(k))
            && (forall enc, k :: enc in ch.retired && k in enc.children ==> k.reaped)
            && (forall enc :: enc in ch.retired ==> enc.alive == {})
  {
    R.InitialInv(settings, format, preview, dropToLatest);
    RunKeepsRetiredInert(Initial(settings, format, preview, dropToLatest), events);
    var s := Run(Initial(settings, format, preview, dropToLatest), events);
    assert I.Sound(s.channels[c].encoder) && AllInert(s.channels[c].retired);
    forall enc | enc in s.channels[c].retired
      ensures enc.alive == {} && forall k :: k in enc.children ==> k.reaped {
      I.StoppedIsQuiet(enc);
    }
  }

  /** The runtime serialises the stops of each encoder, so in every reachable state unit `j`
      delivered for a child carries stamp `j` written to that same child. */
  lemma EveryUnitHasItsStamp(settings: C.Settings, format: RawFrames.Format, preview: bool, dropToLatest: bool,
                             events: seq<Event>, c: nat)
    requires Legal(Initial(settings, format, preview, dropToLatest), events)
    requires c < |Run(Initial(settings, format, preview, dropToLatest), events).channels|
    ensures var ch := Run(Initial(settings, format, preview, dropToLatest), events).channels[c];
            && |ch.encoder.queue| <= E.MAX_STAMPS
            && (forall k :: k in ch.encoder.children ==> P.StampsMatch(k))
            && (forall enc, k :: enc in ch.retired && k in enc.children ==> P.StampsMatch(k))
  {
    R.InitialInv(settings, format, preview, dropToLatest);
    RunKeepsRetiredInert(Initial(settings, format, preview, dropToLatest), events);
    var s := Run(Initial(settings, format, preview, dropToLatest), events);
    assert I.Sound(s.channels[c].encoder) && AllInert(s.channels[c].retired);
    SoundMatches(s.channels[c].encoder);
    forall enc | enc in s.channels[c].retired ensures forall k :: k in enc.children ==> P.StampsMatch(k) {
      SoundMatches(enc);
    }
  }

  lemma SoundMatches(enc: E.State)
    requires I.Sound(enc)
    ensures forall k :: k in enc.children ==> P.StampsMatch(k)
  {
    forall k | k in enc.children ensures P.StampsMatch(k) {
      var c :| 0 <= c < |enc.children| && enc.children[c] == k;
      assert P.ChildPaired(enc, c);
    }
  }
}
