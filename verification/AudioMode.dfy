/** The player's audio-mode state and everything that changes it: user requests, requests
    from remote control points, and reports of stream-endpoint states. Each handler is a
    function on the whole state here; `Player` (module AudioPlayer) performs the same steps
    in place. */
module AudioMode {
  import opened Wrappers
  import opened QosNegotiation
  import opened AseControl

  datatype Mode = NoMode | Broadcast | MediaMode | MicMode | BidirMicMode | CallMode | InTransit

  function Level(m: Mode): nat {
    match m
    case NoMode => 0
    case Broadcast => 1
    case MediaMode => 2
    case MicMode => 3
    case BidirMicMode => 4
    case CallMode => 5
    case InTransit => 6
  }

  datatype MediaState = Inactive | Playing | Paused

  /** A remote endpoint as the player sees it: its last reported state, and the control-point
      operations written for it and not yet delivered. */
  datatype Ase = Ase(dir: Direction, view: AseState, outbox: seq<AseOpcode>)

  /** `slots` is the list of endpoints of the current stream. `changes` counts mode changes and
      `cigs` created isochronous groups; `ringing` is the in-band-ringtone state of the call
      server and `bigUp` tells that the broadcast is not idle. */
  datatype State = State(
    current: Mode,
    paused: Mode,
    final: Mode,
    releasing: bool,
    media: MediaState,
    ringing: bool,
    bigUp: bool,
    stream: StreamConfig,
    pausedStream: StreamConfig,
    slots: seq<Option<nat>>,
    ases: seq<Ase>,
    changes: nat,
    cigs: nat)

  /** What the peer decides at a start: which endpoints are configured, which context a
      conversation gets, and whether both sides support an in-band ringtone. */
  datatype Choice = Choice(picks: seq<nat>, bidirContext: Context, inband: bool)

  predicate Valid(s: State) {
    forall k :: 0 <= k < |s.slots| && s.slots[k].Some? ==> s.slots[k].value < |s.ases|
  }

  predicate ValidPicks(s: State, picks: seq<nat>) {
    forall k :: 0 <= k < |picks| ==> picks[k] < |s.ases|
  }

  function Effective(s: State): Mode {
    if s.current.InTransit? then s.final else s.current
  }

  function Cleared(slots: seq<Option<nat>>): (r: seq<Option<nat>>)
    ensures |r| == |slots|
  {
    seq(|slots|, _ => None)
  }

  // ---- The endpoint list ----

  function FirstFree(slots: seq<Option<nat>>): (k: nat)
    ensures k <= |slots|
    ensures k < |slots| ==> slots[k].None?
    ensures forall j :: 0 <= j < k ==> slots[j].Some?
  {
    if slots == [] || slots[0].None? then 0 else 1 + FirstFree(slots[1..])
  }

  /** Takes the first free slot; a full list stays as it is. */
  function Assigned(slots: seq<Option<nat>>, i: nat): (r: seq<Option<nat>>)
    ensures |r| == |slots|
  {
    var k := FirstFree(slots);
    if k < |slots| then slots[k := Some(i)] else slots
  }

  function Written(s: State, i: nat, opcode: AseOpcode): (t: State)
    requires i < |s.ases|
    ensures |t.ases| == |s.ases|
  {
    s.(ases := s.ases[i := s.ases[i].(outbox := s.ases[i].outbox + [opcode])])
  }

  function Configured(s: State, i: nat): (t: State)
    requires i < |s.ases|
    ensures |t.ases| == |s.ases|
    ensures Valid(s) ==> Valid(t)
  {
    Written(s, i, ConfigCodec).(slots := Assigned(s.slots, i))
  }

  function AllConfigured(s: State, picks: seq<nat>): (t: State)
    requires ValidPicks(s, picks)
    ensures |t.ases| == |s.ases|
    ensures t == s.(ases := t.ases, slots := t.slots)
    ensures Valid(s) ==> Valid(t)
    decreases |picks|
  {
    if picks == [] then s else AllConfigured(Configured(s, picks[0]), picks[1..])
  }

  function AllPrepared(ases: seq<Ase>, cfg: StreamConfig, picks: seq<nat>): StreamConfig
    requires forall k :: 0 <= k < |picks| ==> picks[k] < |ases|
    decreases |picks|
  {
    if picks == [] then cfg else AllPrepared(ases, Prepared(cfg, ases[picks[0]].dir), picks[1..])
  }

  predicate Streamable(c: Context) {
    c.Media? || c.Ringtone? || c.Conversational? || c.Game? || c.VoiceAssistants?
  }

  function Started(s: State, cfg: StreamConfig, picks: seq<nat>): (r: (State, StreamConfig))
    requires ValidPicks(s, picks)
    ensures |r.0.ases| == |s.ases|
    ensures r.0 == s.(ases := r.0.ases, slots := r.0.slots)
    ensures Valid(s) ==> Valid(r.0)
  {
    if Streamable(cfg.context) then (AllConfigured(s, picks), AllPrepared(s.ases, cfg, picks)) else (s, cfg)
  }

  /** Writes Release for every listed endpoint, slot by slot from slot `k`. */
  function ReleasedFrom(s: State, k: nat): (t: State)
    requires k <= |s.slots| && Valid(s)
    ensures |t.ases| == |s.ases|
    ensures t == s.(ases := t.ases, releasing := t.releasing)
    decreases |s.slots| - k
  {
    if k == |s.slots| then s
    else if s.slots[k].None? then ReleasedFrom(s, k + 1)
    else ReleasedFrom(Written(s, s.slots[k].value, Release).(releasing := true), k + 1)
  }

  function Stopped(s: State): (t: State)
    requires Valid(s)
    ensures |t.ases| == |s.ases| && Valid(t)
    ensures t == s.(ases := t.ases, releasing := t.releasing)
  {
    if Streamable(s.stream.context) then ReleasedFrom(s, 0) else s
  }

  // ---- Media control ----

  function McsPlayed(s: State, cfg: StreamConfig, picks: seq<nat>): (r: (State, StreamConfig))
    requires ValidPicks(s, picks)
    ensures |r.0.ases| == |s.ases|
    ensures Valid(s) ==> Valid(r.0)
  {
    var (t, c) := if s.media.Playing? then (s, cfg) else Started(s, cfg.(context := Media), picks);
    (t.(media := Playing), c)
  }

  function McsPaused(s: State): (t: State)
    requires Valid(s)
    ensures |t.ases| == |s.ases| && Valid(t)
  {
    (if s.media.Paused? then s else Stopped(s)).(media := Paused)
  }

  // ---- Mode changes ----

  function NextMode(s: State, mode: Mode, cfg: Option<StreamConfig>): (t: State)
    ensures |t.ases| == |s.ases|
    ensures Valid(s) ==> Valid(t)
  {
    var saves := !mode.NoMode? && !s.current.NoMode? && !s.current.InTransit?;
    var evicts := saves && s.paused.MediaMode? && !mode.MediaMode?;
    s.(media := if evicts then Inactive else s.media,
       paused := if saves then s.current else s.paused,
       pausedStream := if saves || (mode.NoMode? && s.current.MediaMode?) then s.stream else s.pausedStream,
       stream := if cfg.Some? then cfg.value else NO_STREAM,
       final := mode,
       current := InTransit,
       changes := s.changes + 1)
  }

  function Resumed(s: State, mode: Mode, cfg: StreamConfig, ch: Choice): (r: (State, StreamConfig))
    requires ValidPicks(s, ch.picks)
    ensures |r.0.ases| == |s.ases|
    ensures Valid(s) ==> Valid(r.0)
  {
    match mode
    case MediaMode => McsPlayed(s, cfg, ch.picks)
    case CallMode =>
      if ch.inband then Started(s.(ringing := true), cfg.(context := Ringtone), ch.picks)
      else (s.(ringing := true), cfg)
    case MicMode => Started(s, cfg.(context := VoiceAssistants), ch.picks)
    case BidirMicMode => Started(s, cfg.(context := ch.bidirContext), ch.picks)
    case _ => (s, cfg)
  }

  /** Goes back to the paused mode. */
  function ResumedPaused(s: State, ch: Choice): (t: State)
    requires ValidPicks(s, ch.picks)
    ensures |t.ases| == |s.ases|
    ensures Valid(s) ==> Valid(t)
  {
    var (r, cfg) := Resumed(s, s.paused, s.pausedStream, ch);
    NextMode(r.(pausedStream := cfg), s.paused, Some(cfg)).(paused := NoMode)
  }

  predicate AllListedIn(s: State, state: AseState) {
    forall k :: 0 <= k < |s.slots| && s.slots[k].Some? && s.slots[k].value < |s.ases| ==>
      s.ases[s.slots[k].value].view == state
  }

  /** All listed endpoints have reached `state`. */
  function ModeUpdated(s: State, state: AseState, ch: Choice): (t: State)
    requires ValidPicks(s, ch.picks)
    ensures |t.ases| == |s.ases|
    ensures Valid(s) ==> Valid(t)
  {
    if !s.current.InTransit? then s
    else
      match state
      case Idle => ReleaseCompleted(s, ch)
      case CodecConfigured => ReleaseCompleted(s, ch)
      case Enabling => s.(cigs := s.cigs + 1, current := s.final)
      case Streaming =>
        var c := s.(slots := Cleared(s.slots));
        if s.ringing then c else c.(current := s.final)
      case _ => s
  }

  function ReleaseCompleted(s: State, ch: Choice): (t: State)
    requires ValidPicks(s, ch.picks)
    ensures |t.ases| == |s.ases|
    ensures Valid(s) ==> Valid(t)
  {
    if !s.releasing then s
    else
      var c := s.(slots := Cleared(s.slots), releasing := false);
      if s.paused.NoMode? then c.(current := s.final)
      else if !s.final.NoMode? then
        var (r, cfg) := Resumed(c, s.final, c.stream, ch);
        r.(stream := cfg)
      else ResumedPaused(c, ch)
  }

  /** What a report makes the player write, before modes are looked at. */
  function Answered(s: State, i: nat, state: AseState, report: Report): (t: State)
    requires i < |s.ases|
    ensures |t.ases| == |s.ases| && t.slots == s.slots
    ensures t.ases[i].view == state
    ensures forall j :: 0 <= j < |s.ases| && j != i ==> t.ases[j] == s.ases[j]
  {
    var v := s.(ases := s.ases[i := s.ases[i].(view := state)]);
    var w := if state.Disabling? then Written(v, i, ReceiverStopReady) else v;
    if s.releasing then w
    else
      match state
      case CodecConfigured =>
        var dir := s.ases[i].dir;
        Written(w.(stream := WithQos(w.stream, dir, Selected(Of(w.stream, dir).qos, report))), i, ConfigQos)
      case QosConfigured => Written(w, i, Enable)
      case _ => w
  }

  function AfterReport(s: State, i: nat, state: AseState, report: Report, ch: Choice): (t: State)
    requires i < |s.ases| && ValidPicks(s, ch.picks)
    ensures |t.ases| == |s.ases|
    ensures Valid(s) ==> Valid(t)
  {
    var w := Answered(s, i, state, report);
    if AllListedIn(w, state) then ModeUpdated(w, state, ch) else w
  }

  // ---- Requests ----

  /** Ends the stream of `mode` so that `next` can start. Refused when `next` ranks lower. */
  function StoppedFor(s: State, mode: Mode, next: Mode): (r: (bool, State))
    requires Valid(s)
    ensures |r.1.ases| == |s.ases| && Valid(r.1)
    ensures !r.0 ==> r.1 == s
  {
    var m := if mode.InTransit? then s.final else mode;
    if !next.NoMode? && Level(m) > Level(next) then (false, s)
    else if m.MediaMode? || m.MicMode? || m.CallMode? || m.BidirMicMode? then
      var t := if m.MediaMode? then McsPaused(s) else Stopped(s);
      (true, if next.NoMode? then NextMode(t, NoMode, None) else t)
    else (false, s)
  }

  function ResetState(s: State): (t: State)
    ensures |t.ases| == |s.ases| && Valid(t)
  {
    s.(current := NoMode, paused := NoMode, final := NoMode, releasing := false,
       stream := NO_STREAM, pausedStream := NO_STREAM, slots := Cleared(s.slots))
  }

  datatype Event =
    | Play(cfg: StreamConfig, ch: Choice)
    | Pause
    | RemotePlay(ch: Choice)
    | RemotePause
    | StartMic(cfg: StreamConfig, ch: Choice)
    | StopMic
    | StartBidir(cfg: StreamConfig, ch: Choice)
    | StopBidir
    | IncomingCall(cfg: StreamConfig, ch: Choice)
    | AcceptCall(ch: Choice)
    | EndCall(ch: Choice)
    | RemoteEndCall(ch: Choice)
    | StartBroadcast
    | StopBroadcast
    | Disconnect
    | SetGone
    | ErrorResponse
    | MemberReconnected(ch: Choice)
    | MemberGone(gone: set<nat>)
    | Reported(i: nat, state: AseState, report: Report, ch: Choice)

  predicate Handles(s: State, e: Event) {
    && Valid(s)
    && match e
       case Play(_, ch) => ValidPicks(s, ch.picks)
       case RemotePlay(ch) => ValidPicks(s, ch.picks)
       case StartMic(_, ch) => ValidPicks(s, ch.picks)
       case StartBidir(_, ch) => ValidPicks(s, ch.picks)
       case IncomingCall(_, ch) => ValidPicks(s, ch.picks)
       case AcceptCall(ch) => ValidPicks(s, ch.picks)
       case EndCall(ch) => ValidPicks(s, ch.picks)
       case RemoteEndCall(ch) => ValidPicks(s, ch.picks)
       case MemberReconnected(ch) => ValidPicks(s, ch.picks)
       case Reported(i, _, _, ch) => i < |s.ases| && ValidPicks(s, ch.picks)
       case _ => true
  }

  /** A start request for `mode`: at once from rest, otherwise by ending what runs now. */
  function StartRequested(s: State, mode: Mode, cfg: StreamConfig, ch: Choice): (t: State)
    requires Valid(s) && ValidPicks(s, ch.picks)
    ensures |t.ases| == |s.ases| && Valid(t)
  {
    if s.current.NoMode? then
      var (r, c) := Resumed(s, mode, cfg, ch);
      NextMode(r, mode, Some(c))
    else
      var (ok, r) := StoppedFor(s, s.current, mode);
      if ok then NextMode(r, mode, Some(cfg)) else s
  }

  predicate Concerns(s: State, mode: Mode) {
    s.current == mode || s.final == mode
  }

  function CallAccepted(s: State, ch: Choice): (t: State)
    requires Valid(s) && ValidPicks(s, ch.picks)
    ensures |t.ases| == |s.ases| && Valid(t)
  {
    if s.ringing && ch.inband then s.(ringing := false)
    else
      var (r, c) := Started(s, s.stream.(context := Conversational), ch.picks);
      r.(stream := c, ringing := false)
  }

  function CallEnded(s: State, ch: Choice): (t: State)
    requires Valid(s) && ValidPicks(s, ch.picks)
    ensures |t.ases| == |s.ases| && Valid(t)
  {
    var r := NextMode(Stopped(s), NoMode, None);
    var t :=
      if r.ringing && !ch.inband then
        var q := r.(current := NoMode);
        if q.paused.NoMode? then q else ResumedPaused(q, ch)
      else r;
    t.(ringing := false)
  }

  function MediaPaused(s: State): (t: State)
    requires Valid(s)
    ensures |t.ases| == |s.ases| && Valid(t)
  {
    NextMode(McsPaused(s), NoMode, None)
  }

  function WithoutGone(slots: seq<Option<nat>>, gone: set<nat>): (r: seq<Option<nat>>)
    ensures |r| == |slots|
    ensures forall k :: 0 <= k < |r| ==> r[k] == None || r[k] == slots[k]
  {
    seq(|slots|, k requires 0 <= k < |slots| =>
      if slots[k].Some? && slots[k].value in gone then None else slots[k])
  }

  function Handled(s: State, e: Event): (t: State)
    requires Handles(s, e)
    ensures |t.ases| == |s.ases| && Valid(t)
  {
    match e
    case Play(cfg, ch) =>
      if !s.current.NoMode? then s
      else
        var (r, c) := McsPlayed(s, cfg, ch.picks);
        NextMode(r, MediaMode, Some(c))
    case Pause => if Concerns(s, MediaMode) then MediaPaused(s) else s
    case RemotePlay(ch) =>
      if s.media.Inactive? || !s.current.NoMode? then s
      else
        var (r, c) := McsPlayed(s, s.pausedStream, ch.picks);
        NextMode(r.(pausedStream := c), MediaMode, Some(c))
    case RemotePause =>
      if s.media.Inactive? || !Effective(s).MediaMode? then s else MediaPaused(s)
    case StartMic(cfg, ch) => StartRequested(s, MicMode, cfg, ch)
    case StopMic => if Concerns(s, MicMode) then NextMode(Stopped(s), NoMode, None) else s
    case StartBidir(cfg, ch) => StartRequested(s, BidirMicMode, cfg.(context := Game), ch)
    case StopBidir => if Concerns(s, BidirMicMode) then NextMode(Stopped(s), NoMode, None) else s
    case IncomingCall(cfg, ch) => StartRequested(s, CallMode, cfg, ch)
    case AcceptCall(ch) => CallAccepted(s, ch)
    case EndCall(ch) => if Concerns(s, CallMode) then CallEnded(s, ch) else s
    case RemoteEndCall(ch) => CallEnded(s, ch)
    case StartBroadcast =>
      if !s.current.NoMode? then s
      else NextMode(s, Broadcast, None).(bigUp := true, current := Broadcast)
    case StopBroadcast =>
      if s.bigUp then NextMode(s, NoMode, None).(bigUp := false, current := NoMode) else s
    case Disconnect =>
      if Level(s.current) > Level(Broadcast) then StoppedFor(s, s.current, NoMode).1 else s
    case SetGone => ResetState(s.(media := Paused))
    case ErrorResponse =>
      ResetState(
        match s.final
        case MediaMode => McsPaused(s)
        case CallMode => Stopped(s)
        case BidirMicMode => Stopped(s)
        case MicMode => Stopped(s)
        case _ => s)
    case MemberReconnected(ch) =>
      if s.current.NoMode? || s.current.Broadcast? || s.current.InTransit? then s
      else AllConfigured(s, ch.picks).(stream := AllPrepared(s.ases, s.stream, ch.picks))
    case MemberGone(gone) => s.(slots := WithoutGone(s.slots, gone))
    case Reported(i, state, report, ch) => AfterReport(s, i, state, report, ch)
  }
}
