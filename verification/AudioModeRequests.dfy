/** Which requests that end something are accepted, in any state a run can reach, and what they
    come to at once. */
module AudioModeRequests {
  import opened Wrappers
  import opened QosNegotiation
  import opened AseControl
  import opened AudioMode
  import opened AudioModeRuns
  import opened AudioModeMedia
  import opened AudioModeWrites
  import opened AudioModeNegotiation

  /** The mode that a user's stop is about. */
  function StoppedMode(e: Event): Option<Mode> {
    match e
    case Pause => Some(MediaMode)
    case StopMic => Some(MicMode)
    case StopBidir => Some(BidirMicMode)
    case _ => None
  }

  /** A stop with nothing else to it: the player is on its way to no mode with no stream of its
      own, and keeps the stream for later if it was settled in media mode. */
  predicate Stopping(s: State, t: State) {
    && t.current.InTransit? && t.final.NoMode? && t.paused == s.paused && t.stream == NO_STREAM
    && t.pausedStream == (if s.current.MediaMode? then s.stream else s.pausedStream)
    && t.changes == s.changes + 1 && t.ringing == s.ringing && t.bigUp == s.bigUp && t.slots == s.slots
  }

  /** A stop is accepted exactly in its own mode or on the way there. */
  lemma StopIsAcceptedIff(s: State, e: Event)
    requires Shape(s) && Handles(s, e) && StoppedMode(e).Some?
    ensures var t := Handled(s, e);
            if Effective(s) == StoppedMode(e).value then
              Stopping(s, t) && t.media == (if e.Pause? then Paused else s.media)
            else t == s
  {
  }

  /** Every endpoint listed is then released, unless media was paused already. */
  lemma AcceptedStopReleases(s: State, e: Event)
    requires Shape(s) && Handles(s, e) && StoppedMode(e) == Some(Effective(s))
    ensures Handled(s, e).ases == if e.Pause? && s.media.Paused? then s.ases else Stopped(s).ases
  {
  }

  /** A remote pause needs an active service besides. */
  lemma RemotePauseIsAcceptedIff(s: State)
    requires Shape(s) && Handles(s, RemotePause)
    ensures var t := Handled(s, RemotePause);
            if Effective(s).MediaMode? && !s.media.Inactive? then
              t == Handled(s, Pause) && Stopping(s, t) && t.media.Paused?
            else t == s
  {
  }

  /** Losing one connection ends the stream of the set, whatever it is, but no broadcast. */
  lemma DisconnectStopsStreams(s: State)
    requires Shape(s) && Handles(s, Disconnect)
    ensures var (t, m) := (Handled(s, Disconnect), Effective(s));
            if m.MediaMode? || m.MicMode? || m.BidirMicMode? || m.CallMode? then
              Stopping(s, t) && t.media == (if m.MediaMode? then Paused else s.media)
            else t == s
  {
  }

  /** Wherever a call ends, the ring ends; the user ends it in call mode or on the way there only.
      A call that rings with no in-band ringtone on both sides goes straight back to what was
      paused. */
  lemma CallEndEndsTheRing(s: State, ch: Choice)
    requires Shape(s) && Handles(s, RemoteEndCall(ch))
    ensures var t := Handled(s, RemoteEndCall(ch));
            && !t.ringing && t.bigUp == s.bigUp
            && (!(s.ringing && !ch.inband) ==> Stopping(s.(ringing := false), t))
            && (s.ringing && !ch.inband ==>
                  t.paused.NoMode? && (s.paused.NoMode? ==> t.current.NoMode?) &&
                  (!s.paused.NoMode? ==> t.current.InTransit? && t.final == s.paused))
    ensures Handled(s, EndCall(ch)) == (if Effective(s).CallMode? then Handled(s, RemoteEndCall(ch)) else s)
  {
    var r := NextMode(Stopped(s), NoMode, None);
    if r.ringing && !ch.inband && !r.paused.NoMode? {
      ResumedPausedModes(r.(current := NoMode), ch);
    }
  }

  /** A broadcast starts in no mode only, and ends exactly if one is up, whatever the mode. */
  lemma BroadcastFollowsItsOwnState(s: State)
    requires Shape(s) && Valid(s)
    ensures var t := Handled(s, StartBroadcast);
            if !s.current.NoMode? then t == s
            else t.current.Broadcast? && t.bigUp && t.ases == s.ases && t.media == s.media
    ensures var t := Handled(s, StopBroadcast);
            if !s.bigUp then t == s
            else t.current.NoMode? && t.final.NoMode? && !t.bigUp && t.ases == s.ases && t.stream == NO_STREAM
  {
  }

  /** A loss of the set and an error response forget everything about streams; the former also
      leaves the service paused. */
  lemma LossForgets(s: State, e: Event)
    requires Handles(s, e) && (e.SetGone? || e.ErrorResponse?)
    ensures var t := Handled(s, e);
            && t.current.NoMode? && t.paused.NoMode? && t.final.NoMode? && !t.releasing
            && t.stream == NO_STREAM && t.pausedStream == NO_STREAM && t.slots == Cleared(s.slots)
            && (e.SetGone? ==> t.media.Paused? && t.ases == s.ases)
            && t.bigUp == s.bigUp && t.ringing == s.ringing
  {
  }

  /** A conversation that pre-empts a mode waits with the context of a game; from rest it gets the
      context the peers settle on. */
  lemma BidirContext(s: State, cfg: StreamConfig, ch: Choice)
    requires Shape(s) && Handles(s, StartBidir(cfg, ch)) && Handled(s, StartBidir(cfg, ch)) != s
    ensures Handled(s, StartBidir(cfg, ch)).stream.context == if s.current.NoMode? then ch.bidirContext else Game
  {
    if s.current.NoMode? && Streamable(ch.bidirContext) {
      PreparedIffPicked(s.ases, cfg.(context := ch.bidirContext), ch.picks, SinkAse);
    }
  }

  /** Only contexts that are neither prohibited nor unspecified have a stream to start or stop. */
  lemma OnlyStreamsStartAndStop(s: State, cfg: StreamConfig, picks: seq<nat>, i: nat)
    requires Valid(s) && ValidPicks(s, picks) && i < |s.ases|
    ensures var none := cfg.context.Prohibited? || cfg.context.Unspecified?;
            Started(s, cfg, picks).0.ases[i] == Queued(s.ases[i], ConfigCodec, if none then 0 else Times(i, picks))
    ensures var none := s.stream.context.Prohibited? || s.stream.context.Unspecified?;
            Stopped(s).ases[i] == Queued(s.ases[i], Release, if none then 0 else Listings(s.slots, i, 0))
  {
    ConfigsAreWritten(s, picks, i);
    ReleasesAreWritten(s, 0, i);
    QueuedOnce(s.ases[i], ConfigCodec, 0);
    QueuedOnce(s.ases[i], Release, 0);
  }

  /** Who pre-empts whom, once anything runs or is on its way: the microphone takes over from media
      and from itself, a conversation from the microphone too, a call from any stream; a broadcast
      gives way to nothing. */
  lemma WhoPreemptsWhom(s: State, e: Event)
    requires Shape(s) && Handles(s, e) && IsStart(e) && !s.current.NoMode?
    ensures var m := Effective(s);
            Handled(s, e) != s <==>
              || m.MediaMode? || m.MicMode?
              || (m.BidirMicMode? && !e.StartMic?)
              || (m.CallMode? && e.IncomingCall?)
  {
    StartIsAcceptedIff(s, e);
  }
}
