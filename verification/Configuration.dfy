/** The check of a patch to the settings of the RTP encoder. */
module Configuration {

  /** A host name or address with the verdict of the address parser on it. */
  datatype Host = Host(text: string, loopback: bool)

  /** A JSON value of a patch. */
  datatype Value = Text(host: Host) | Number(i: int) | Other

  /** The settings that configuration can change or that decide what it may change. */
  datatype Settings = Settings(
    rtpHost: Host,
    rtpPort: int,
    bitrate: int,
    ffmpeg: bool,
    ffmpegArguments: string,
    gstreamerProperties: string)

  /** Field names with new values, in the order the request gives them. */
  type Patch = seq<(string, Value)>

  datatype Fault = RestartRequired | InvalidArgument | Conflict | Unavailable

  datatype Outcome = Candidate(settings: Settings) | Refused(fault: Fault)

  /** The names of all settings; every one that is not mutable needs a restart. */
  const FIELDS: set<string> := {
    "image_topic", "input_message_type", "raw_encoding", "source_id", "frame_id", "source_clock_domain",
    "rtp_host", "rtp_port", "control_socket", "width", "height", "fps", "bitrate", "video_topic", "video_width",
    "video_height", "video_bitrate", "encoder_backend", "encoder", "ffmpeg_path", "ffmpeg_encoder_args_json",
    "ffmpeg_video_filter", "gstreamer_path", "gstreamer_inspect_path", "gstreamer_jpeg_parser",
    "gstreamer_jpeg_caps", "gstreamer_jpeg_decoder", "gstreamer_video_converter", "gstreamer_video_scaler",
    "gstreamer_raw_caps", "gstreamer_h264_encoder", "gstreamer_decoder_properties_json",
    "gstreamer_converter_properties_json", "gstreamer_encoder_properties_json", "drop_to_latest", "require_jpeg"
  }

  predicate IsSpace(c: char) {
    c == ' ' || c == '\t' || c == '\n' || c == '\r'
  }

  function StripLeft(s: string): string {
    if s != "" && IsSpace(s[0]) then StripLeft(s[1..]) else s
  }

  function StripRight(s: string): string {
    if s != "" && IsSpace(s[|s|-1]) then StripRight(s[..|s|-1]) else s
  }

  function Strip(s: string): string {
    StripRight(StripLeft(s))
  }

  predicate Contains(s: string, part: string) {
    part <= s || (s != "" && Contains(s[1..], part))
  }

  /** The encoder profile takes its bitrate from the settings. */
  predicate BitrateIsMutable(s: Settings) {
    var profile := if s.ffmpeg then s.ffmpegArguments else s.gstreamerProperties;
    (s.ffmpeg && Strip(profile) == "[]")
    || Contains(profile, "\"@bitrate\"") || Contains(profile, "\"@bitrate_kbps\"")
  }

  predicate IsMutable(s: Settings, field: string) {
    field == "rtp_host" || field == "rtp_port" || (field == "bitrate" && BitrateIsMutable(s))
  }

  // ---------- Accepting a patch ----------

  predicate Valid(s: Settings) {
    s.rtpHost.loopback && 1 <= s.rtpPort <= 65535 && s.bitrate >= 1
  }

  /** The fault of the first field that may not be changed online, if any. */
  function FirstForbidden(s: Settings, patch: Patch): (fault: seq<Fault>)
    ensures |fault| <= 1
  {
    if patch == [] then []
    else if !IsMutable(s, patch[0].0) then [if patch[0].0 in FIELDS then RestartRequired else InvalidArgument]
    else FirstForbidden(s, patch[1..])
  }

  predicate WellTyped(entry: (string, Value)) {
    match entry.0
    case "rtp_host" => entry.1.Text?
    case "rtp_port" => entry.1.Number?
    case "bitrate" => entry.1.Number?
    case _ => true
  }

  predicate AllWellTyped(patch: Patch) {
    forall e :: e in patch ==> WellTyped(e)
  }

  function Assign(s: Settings, entry: (string, Value)): Settings {
    match entry
    case (_, Text(host)) => if entry.0 == "rtp_host" then s.(rtpHost := host) else s
    case (_, Number(i)) =>
      if entry.0 == "rtp_port" then s.(rtpPort := i) else if entry.0 == "bitrate" then s.(bitrate := i) else s
    case (_, Other) => s
  }

  function Replaced(s: Settings, patch: Patch): Settings
    decreases |patch|
  {
    if patch == [] then s else Replaced(Assign(s, patch[0]), patch[1..])
  }

  /** The runtime's check of a patch against the current settings. */
  function Check(s: Settings, patch: Patch): Outcome {
    var forbidden := FirstForbidden(s, patch);
    if forbidden != [] then Refused(forbidden[0])
    else if !AllWellTyped(patch) then Refused(InvalidArgument)
    else if !Valid(Replaced(s, patch)) then Refused(InvalidArgument)
    else Candidate(Replaced(s, patch))
  }

  // ---------- What an accepted patch means ----------

  lemma HeadOrTail(patch: Patch)
    requires patch != []
    ensures forall e :: e in patch <==> e == patch[0] || e in patch[1..]
  {
  }

  lemma {:induction false} NothingForbidden(s: Settings, patch: Patch)
    ensures FirstForbidden(s, patch) == [] <==> forall e :: e in patch ==> IsMutable(s, e.0)
  {
    if patch != [] {
      NothingForbidden(s, patch[1..]);
      HeadOrTail(patch);
      assert patch[0] in patch;
    }
  }

  /** The encoder profile is out of reach of any patch. */
  lemma {:induction false} ReplacedKeepsProfile(s: Settings, patch: Patch)
    ensures var r := Replaced(s, patch);
            && r.ffmpeg == s.ffmpeg && r.ffmpegArguments == s.ffmpegArguments
            && r.gstreamerProperties == s.gstreamerProperties
    decreases |patch|
  {
    if patch != [] { ReplacedKeepsProfile(Assign(s, patch[0]), patch[1..]); }
  }

  /** A patch leaves alone what it does not mention. */
  lemma {:induction false} Untouched(s: Settings, patch: Patch, field: string)
    requires forall e :: e in patch ==> e.0 != field
    ensures var r := Replaced(s, patch);
            && (field == "rtp_host" ==> r.rtpHost == s.rtpHost)
            && (field == "rtp_port" ==> r.rtpPort == s.rtpPort)
            && (field == "bitrate" ==> r.bitrate == s.bitrate)
    decreases |patch|
  {
    if patch != [] {
      assert patch[0] in patch;
      HeadOrTail(patch);
      Untouched(Assign(s, patch[0]), patch[1..], field);
    }
  }

  /** A field mentioned once gets its new value. */
  lemma {:induction false} Applied(s: Settings, before: Patch, entry: (string, Value), after: Patch)
    requires WellTyped(entry)
    requires forall e :: e in after ==> e.0 != entry.0
    ensures var r := Replaced(s, before + [entry] + after);
            && (entry.0 == "rtp_host" ==> r.rtpHost == entry.1.host)
            && (entry.0 == "rtp_port" ==> r.rtpPort == entry.1.i)
            && (entry.0 == "bitrate" ==> r.bitrate == entry.1.i)
    decreases |before|
  {
    var patch := before + [entry] + after;
    if before == [] {
      assert patch[0] == entry && patch[1..] == after;
      Untouched(Assign(s, entry), after, entry.0);
    } else {
      assert patch[0] == before[0] && patch[1..] == before[1..] + [entry] + after;
      Applied(Assign(s, before[0]), before[1..], entry, after);
    }
  }

  /** Exactly which patches are accepted, and what no accepted patch can change: which fields
      are mutable, and the bitrate of a profile with its own. */
  lemma AcceptedPatches(s: Settings, patch: Patch)
    ensures Check(s, patch).Candidate?
            <==> (forall e :: e in patch ==> IsMutable(s, e.0) && WellTyped(e)) && Valid(Replaced(s, patch))
    ensures Check(s, patch).Candidate? ==>
              var r := Check(s, patch).settings;
              && r == Replaced(s, patch)
              && (forall field :: IsMutable(r, field) <==> IsMutable(s, field))
              && (!BitrateIsMutable(s) ==> r.bitrate == s.bitrate)
  {
    NothingForbidden(s, patch);
    ReplacedKeepsProfile(s, patch);
    if Check(s, patch).Candidate? && !BitrateIsMutable(s) {
      assert forall e :: e in patch ==> IsMutable(s, e.0);
      Untouched(s, patch, "bitrate");
    }
  }

  lemma {:induction false} FirstForbiddenIs(s: Settings, patch: Patch, i: nat)
    requires i < |patch| && !IsMutable(s, patch[i].0) && forall j :: 0 <= j < i ==> IsMutable(s, patch[j].0)
    ensures FirstForbidden(s, patch) == [if patch[i].0 in FIELDS then RestartRequired else InvalidArgument]
  {
    if i > 0 {
      assert IsMutable(s, patch[0].0);
      FirstForbiddenIs(s, patch[1..], i - 1);
    }
  }

  /** Why a patch is refused: the first field that may not be changed online is one of the
      settings, which takes a restart, or is unknown; or, without such a field, a value is not
      valid. */
  lemma RefusedPatches(s: Settings, patch: Patch, i: nat)
    requires i <= |patch| && forall j :: 0 <= j < i ==> IsMutable(s, patch[j].0)
    ensures i < |patch| && !IsMutable(s, patch[i].0) ==>
              Check(s, patch) == Refused(if patch[i].0 in FIELDS then RestartRequired else InvalidArgument)
    ensures i == |patch| && Check(s, patch).Refused? ==> Check(s, patch).fault == InvalidArgument
  {
    if i == |patch| { NothingForbidden(s, patch); }
    else if !IsMutable(s, patch[i].0) { FirstForbiddenIs(s, patch, i); }
  }

  predicate OccursAt(s: string, part: string, i: nat) {
    i <= |s| && part <= s[i..]
  }

  /** A profile contains a placeholder exactly when it occurs somewhere in it. */
  lemma {:induction false} ContainsOccurrence(s: string, part: string)
    ensures Contains(s, part) <==> exists i :: OccursAt(s, part, i)
  {
    assert s[0..] == s && (OccursAt(s, part, 0) <==> part <= s);
    if s != "" {
      ContainsOccurrence(s[1..], part);
      forall i: nat ensures OccursAt(s[1..], part, i) <==> OccursAt(s, part, i + 1) {
        if i < |s| { assert s[1..][i..] == s[i + 1..]; }
      }
      forall i: nat | i > 0 && OccursAt(s, part, i) ensures OccursAt(s[1..], part, i - 1) {}
    }
  }

  /** The settings after a run of accepted patches. */
  function Fold(base: Settings, patches: seq<Patch>): Settings {
    if patches == [] then base else Replaced(Fold(base, patches[..|patches|-1]), patches[|patches|-1])
  }
}
