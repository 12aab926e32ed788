/** What holds of the audio mode on every run: any requests, in any order and at any time, and
    any endpoint reports, true or not. */
module AudioModeRuns {
  import opened Wrappers
  import opened QosNegotiation
  import opened AseControl
  import opened AudioMode

  predicate Shape(s: State) {
    && !s.paused.InTransit? && !s.paused.Broadcast?
    && !s.final.InTransit?
    && (!s.current.InTransit? ==> s.current == s.final)
    && s.cigs + (if s.current.InTransit? then 1 else 0) <= s.changes
  }

  /** The media service reports Playing exactly while the effective mode is media. */
  predicate MediaMatches(s: State) {
    s.media.Playing? <==> Effective(s).MediaMode?
  }

  predicate Init(s: State) {
    && Valid(s)
    && s.current.NoMode? && s.paused.NoMode? && s.final.NoMode?
    && s.media.Inactive?
    && s.cigs == s.changes == 0
  }

  function Announcing(s: State, mode: Mode): State {
    s.(media := if mode.MediaMode? then Playing else s.media,
       ringing := if mode.CallMode? then true else s.ringing)
  }

  /** The context that the player gives the stream of a mode. */
  function ContextFor(mode: Mode, ch: Choice): Context {
    match mode
    case MediaMode => Media
    case MicMode => VoiceAssistants
    case CallMode => Ringtone
    case _ => ch.bidirContext
  }

  /** Resuming touches no mode: it starts playing media or rings for a call. */
  lemma ResumedKeepsModes(s: State, mode: Mode, cfg: StreamConfig, ch: Choice)
    requires ValidPicks(s, ch.picks)
    ensures var t := Resumed(s, mode, cfg, ch).0;
            t == Announcing(s, mode).(ases := t.ases, slots := t.slots)
  {
  }

  lemma ResumedPausedModes(s: State, ch: Choice)
    requires ValidPicks(s, ch.picks)
    requires s.current.InTransit? || s.current.NoMode?
    ensures var t := ResumedPaused(s, ch);
            && t.current.InTransit? && t.paused.NoMode? && t.final == s.paused
            && t.media == Announcing(s, s.paused).media
            && t.changes == s.changes + 1 && t.cigs == s.cigs
  {
    ResumedKeepsModes(s, s.paused, s.pausedStream, ch);
  }

  lemma ReleaseCompletedKeepsShape(s: State, ch: Choice)
    requires Shape(s) && s.current.InTransit? && ValidPicks(s, ch.picks)
    ensures Shape(ReleaseCompleted(s, ch))
    ensures MediaMatches(s) ==> MediaMatches(ReleaseCompleted(s, ch))
  {
    var c := s.(slots := Cleared(s.slots), releasing := false);
    if s.paused.NoMode? {
    } else if !s.final.NoMode? {
      ResumedKeepsModes(c, c.final, c.stream, ch);
    } else {
      ResumedPausedModes(c, ch);
    }
  }

  /** Nothing of the mode state differs. */
  predicate SameModes(s: State, t: State) {
    && t.current == s.current && t.paused == s.paused && t.final == s.final && t.media == s.media
    && t.changes == s.changes && t.cigs == s.cigs
  }

  lemma AnsweredKeepsModes(s: State, i: nat, state: AseState, report: Report)
    requires i < |s.ases|
    ensures SameModes(s, Answered(s, i, state, report))
  {
  }

  lemma ModeUpdatedKeepsShape(s: State, state: AseState, ch: Choice)
    requires Shape(s) && ValidPicks(s, ch.picks)
    ensures Shape(ModeUpdated(s, state, ch))
    ensures MediaMatches(s) ==> MediaMatches(ModeUpdated(s, state, ch))
  {
    if s.current.InTransit? && (state.Idle? || state.CodecConfigured?) {
      ReleaseCompletedKeepsShape(s, ch);
    }
  }

  lemma ReportKeepsShape(s: State, i: nat, state: AseState, report: Report, ch: Choice)
    requires Shape(s) && i < |s.ases| && ValidPicks(s, ch.picks)
    ensures Shape(AfterReport(s, i, state, report, ch))
    ensures MediaMatches(s) ==> MediaMatches(AfterReport(s, i, state, report, ch))
  {
    AnsweredKeepsModes(s, i, state, report);
    ModeUpdatedKeepsShape(Answered(s, i, state, report), state, ch);
  }

  predicate EndsRelease(s: State, state: AseState) {
    s.releasing && (state.Idle? || state.CodecConfigured?)
  }

  /** When a player in transit settles: with the report that makes all listed endpoints Enabling,
      which creates the group; or all Streaming, unless a call rings; or all released with nothing
      paused. It settles where it was going, and the latter two empty the list. */
  lemma SettlesIff(s: State, i: nat, state: AseState, report: Report, ch: Choice)
    requires Shape(s) && s.current.InTransit? && i < |s.ases| && ValidPicks(s, ch.picks)
    ensures var (w, t) := (Answered(s, i, state, report), AfterReport(s, i, state, report, ch));
            var all := AllListedIn(w, state);
            && (!t.current.InTransit? <==>
                  all && (|| state.Enabling?
                          || (state.Streaming? && !s.ringing)
                          || (EndsRelease(s, state) && s.paused.NoMode?)))
            && (!t.current.InTransit? ==> t.current == s.final)
            && t.cigs == s.cigs + (if all && state.Enabling? then 1 else 0)
            && (all && (state.Streaming? || (EndsRelease(s, state) && s.paused.NoMode?)) ==> t.slots == Cleared(s.slots))
            && (!all || state.Enabling? ==> t.slots == s.slots)
            && t.releasing == (s.releasing && !(all && EndsRelease(s, state)))
  {
    AnsweredKeepsModes(s, i, state, report);
    var w := Answered(s, i, state, report);
    if AllListedIn(w, state) && EndsRelease(s, state) && !s.paused.NoMode? {
      var c := w.(slots := Cleared(w.slots), releasing := false);
      if c.final.NoMode? {
        ResumedPausedModes(c, ch);
      } else {
        ResumedKeepsModes(c, c.final, c.stream, ch);
      }
    }
  }

  lemma StoppedForModes(s: State, next: Mode)
    requires Shape(s) && Valid(s) && !next.NoMode? && !s.current.NoMode?
    ensures var (ok, r) := StoppedFor(s, s.current, next);
            ok ==>
              && !s.current.Broadcast?
              && r == s.(media := if s.final.MediaMode? then Paused else s.media, ases := r.ases, releasing := r.releasing)
  {
  }

  lemma StartRequestKeepsShape(s: State, mode: Mode, cfg: StreamConfig, ch: Choice)
    requires Shape(s) && Valid(s) && ValidPicks(s, ch.picks)
    requires mode.MicMode? || mode.BidirMicMode? || mode.CallMode?
    ensures Shape(StartRequested(s, mode, cfg, ch))
    ensures MediaMatches(s) ==> MediaMatches(StartRequested(s, mode, cfg, ch))
  {
    if s.current.NoMode? {
      ResumedKeepsModes(s, mode, cfg, ch);
    } else {
      StoppedForModes(s, mode);
    }
  }

  lemma CallEndedModes(s: State, ch: Choice)
    requires Shape(s) && Valid(s) && ValidPicks(s, ch.picks)
    ensures Shape(CallEnded(s, ch))
    ensures MediaMatches(s) ==>
              (MediaMatches(CallEnded(s, ch)) <==> !(Effective(s).MediaMode? && !GoesBackToMedia(s, ch)))
  {
    var r := NextMode(Stopped(s), NoMode, None);
    if r.ringing && !ch.inband {
      ResumedPausedModes(r.(current := NoMode), ch);
    }
  }

  /** The end of a ringing call takes the player straight back to paused media. */
  predicate GoesBackToMedia(s: State, ch: Choice) {
    s.ringing && !ch.inband && s.paused.MediaMode?
  }

  /** The two requests that change the mode without pausing the media service: the broadcast
      is stopped by its own state, and a remote call end is not checked against the mode. */
  predicate Disturbs(s: State, e: Event) {
    && Effective(s).MediaMode?
    && match e
       case StopBroadcast => s.bigUp
       case RemoteEndCall(ch) => !GoesBackToMedia(s, ch)
       case _ => false
  }

  predicate IsPlay(e: Event) {
    e.Play? || e.RemotePlay?
  }

  predicate IsPause(e: Event) {
    e.Pause? || e.RemotePause?
  }

  lemma PlayKeepsShape(s: State, e: Event)
    requires Shape(s) && Handles(s, e) && IsPlay(e)
    ensures Shape(Handled(s, e))
    ensures MediaMatches(s) ==> MediaMatches(Handled(s, e))
  {
    if e.Play? {
      ResumedKeepsModes(s, MediaMode, e.cfg, e.ch);
    } else {
      ResumedKeepsModes(s, MediaMode, s.pausedStream, e.ch);
    }
  }

  lemma PauseKeepsShape(s: State, e: Event)
    requires Shape(s) && Handles(s, e) && IsPause(e)
    ensures Shape(Handled(s, e))
    ensures MediaMatches(s) ==> MediaMatches(Handled(s, e))
  {
  }

  lemma LossKeepsShape(s: State, e: Event)
    requires Shape(s) && Handles(s, e) && (e.Disconnect? || e.ErrorResponse?)
    ensures Shape(Handled(s, e))
    ensures MediaMatches(s) ==> MediaMatches(Handled(s, e))
  {
  }

  predicate IsStart(e: Event) {
    e.StartMic? || e.StartBidir? || e.IncomingCall?
  }

  function StartedMode(e: Event): Mode
    requires IsStart(e)
  {
    if e.StartMic? then MicMode else if e.StartBidir? then BidirMicMode else CallMode
  }

  function StartedConfig(e: Event): StreamConfig
    requires IsStart(e)
  {
    if e.StartBidir? then e.cfg.(context := Game) else e.cfg
  }

  lemma StartKeepsShape(s: State, e: Event)
    requires Shape(s) && Handles(s, e) && IsStart(e)
    ensures Shape(Handled(s, e))
    ensures MediaMatches(s) ==> MediaMatches(Handled(s, e))
  {
    match e
    case StartMic(cfg, ch) => StartRequestKeepsShape(s, MicMode, cfg, ch);
    case StartBidir(cfg, ch) => StartRequestKeepsShape(s, BidirMicMode, cfg.(context := Game), ch);
    case IncomingCall(cfg, ch) => StartRequestKeepsShape(s, CallMode, cfg, ch);
  }

  lemma BroadcastKeepsShape(s: State, e: Event)
    requires Shape(s) && Handles(s, e) && (e.StartBroadcast? || e.StopBroadcast?)
    ensures Shape(Handled(s, e))
    ensures MediaMatches(s) ==> (MediaMatches(Handled(s, e)) <==> !Disturbs(s, e))
  {
  }

  lemma StreamStopKeepsShape(s: State, e: Event)
    requires Shape(s) && Handles(s, e) && (e.StopMic? || e.StopBidir?)
    ensures Shape(Handled(s, e))
    ensures MediaMatches(s) ==> MediaMatches(Handled(s, e))
  {
  }

  predicate IsOther(e: Event) {
    e.AcceptCall? || e.SetGone? || e.MemberReconnected? || e.MemberGone?
  }

  lemma OtherKeepsShape(s: State, e: Event)
    requires Shape(s) && Handles(s, e) && IsOther(e)
    ensures Shape(Handled(s, e))
    ensures MediaMatches(s) ==> (MediaMatches(Handled(s, e)) <==> !Disturbs(s, e))
  {
  }

  lemma EventKeepsShape(s: State, e: Event)
    requires Shape(s) && Handles(s, e)
    ensures Shape(Handled(s, e))
    ensures MediaMatches(s) ==> (MediaMatches(Handled(s, e)) <==> !Disturbs(s, e))
  {
    if IsPlay(e) {
      PlayKeepsShape(s, e);
    } else if IsPause(e) {
      PauseKeepsShape(s, e);
    } else if e.Disconnect? || e.ErrorResponse? {
      LossKeepsShape(s, e);
    } else if IsStart(e) {
      StartKeepsShape(s, e);
    } else if IsOther(e) {
      OtherKeepsShape(s, e);
    } else if e.StopMic? || e.StopBidir? {
      StreamStopKeepsShape(s, e);
    } else if e.StartBroadcast? || e.StopBroadcast? {
      BroadcastKeepsShape(s, e);
    } else {
      match e
      case EndCall(ch) => CallEndedModes(s, ch);
      case RemoteEndCall(ch) => CallEndedModes(s, ch);
      case Reported(i, state, report, ch) => ReportKeepsShape(s, i, state, report, ch);
    }
  }

  ghost predicate Run(s: State, events: seq<Event>, t: State)
    decreases |events|
  {
    if events == [] then s == t
    else Handles(s, events[0]) && Run(Handled(s, events[0]), events[1..], t)
  }

  /** No event of the run disturbs. */
  ghost predicate Undisturbed(s: State, events: seq<Event>)
    decreases |events|
  {
    events == [] ||
    (Handles(s, events[0]) && !Disturbs(s, events[0]) && Undisturbed(Handled(s, events[0]), events[1..]))
  }

  /** On every run: the paused and the final mode are real modes, nothing is paused behind a
      broadcast, and no more groups are created than mode changes were asked for. */
  lemma {:induction false} ModesOnEveryRun(s: State, events: seq<Event>, t: State)
    requires Shape(s) && Run(s, events, t)
    ensures Shape(t)
    ensures MediaMatches(s) && Undisturbed(s, events) ==> MediaMatches(t)
    decreases |events|
  {
    if events != [] {
      EventKeepsShape(s, events[0]);
      ModesOnEveryRun(Handled(s, events[0]), events[1..], t);
    }
  }

  lemma ModesFromStart(s: State, events: seq<Event>, t: State)
    requires Init(s) && Run(s, events, t)
    ensures !t.paused.InTransit? && !t.final.InTransit? && !t.paused.Broadcast?
    ensures Effective(t) == t.final
    ensures t.cigs <= t.changes
    ensures Undisturbed(s, events) ==> (t.media.Playing? <==> Effective(t).MediaMode?)
  {
    ModesOnEveryRun(s, events, t);
  }

  /** A disturbed run: a broadcast outlives the set's disconnection, media is started, and the
      broadcast is stopped. The media service then plays in no mode at all. */
  lemma PlayingWithoutMode(cfg: StreamConfig) returns (s: State, events: seq<Event>, t: State)
    ensures Init(s) && Run(s, events, t)
    ensures t.media.Playing? && Effective(t).NoMode?
  {
    var ch := Choice([], Game, false);
    s := State(NoMode, NoMode, NoMode, false, Inactive, false, false, NO_STREAM, NO_STREAM, [], [], 0, 0);
    var s1 := Handled(s, StartBroadcast);
    var s2 := Handled(s1, SetGone);
    assert s2.current.NoMode? && s2.bigUp && !s2.media.Playing?;
    var s3 := Handled(s2, Play(cfg, ch));
    assert s3.media.Playing? && s3.bigUp;
    t := Handled(s3, StopBroadcast);
    assert Run(t, [], t);
    events := [StopBroadcast];
    assert events[1..] == [];
    assert Run(s3, events, t);
    events := [Play(cfg, ch)] + events;
    assert Run(s2, events, t);
    events := [SetGone] + events;
    assert Run(s1, events, t);
    events := [StartBroadcast] + events;
  }
}
