/** When the media service can be played by a remote control point: paused media can, media that
    a further start request has pushed out cannot. On any run, whatever is requested and
    reported. */
module AudioModeMedia {
  import opened Wrappers
  import opened QosNegotiation
  import opened AseControl
  import opened AudioMode
  import opened AudioModeRuns

  /** A mode with a stream or a call, settled. */
  predicate Settled(s: State) {
    !s.current.NoMode? && !s.current.InTransit?
  }

  /** A start request is accepted from rest, or if what runs now is no broadcast and ranks no
      higher. */
  predicate Accepts(s: State, mode: Mode) {
    s.current.NoMode? ||
    (!Effective(s).NoMode? && !Effective(s).Broadcast? && Level(Effective(s)) <= Level(mode))
  }

  lemma StoppingIsAllowedIff(s: State, mode: Mode)
    requires Valid(s) && Shape(s) && !s.current.NoMode?
    requires mode.MicMode? || mode.BidirMicMode? || mode.CallMode?
    ensures StoppedFor(s, s.current, mode).0 <==> Accepts(s, mode)
  {
  }

  lemma RequestIsAcceptedIff(s: State, mode: Mode, cfg: StreamConfig, ch: Choice)
    requires Valid(s) && ValidPicks(s, ch.picks) && Shape(s)
    requires mode.MicMode? || mode.BidirMicMode? || mode.CallMode?
    ensures var t := StartRequested(s, mode, cfg, ch);
            if Accepts(s, mode) then t.current.InTransit? && t.final == mode && t.changes == s.changes + 1 else t == s
  {
    if s.current.NoMode? {
      ResumedKeepsModes(s, mode, cfg, ch);
    } else {
      StoppingIsAllowedIff(s, mode);
      assert StartRequested(s, mode, cfg, ch) ==
             (if StoppedFor(s, s.current, mode).0 then NextMode(StoppedFor(s, s.current, mode).1, mode, Some(cfg)) else s);
      if Accepts(s, mode) { StoppedForModes(s, mode); }
    }
  }

  lemma StartIsAcceptedIff(s: State, e: Event)
    requires Handles(s, e) && IsStart(e) && Shape(s)
    ensures var t := Handled(s, e);
            if Accepts(s, StartedMode(e)) then
              t.current.InTransit? && t.final == StartedMode(e) && t.changes == s.changes + 1
            else t == s
  {
    RequestIsAcceptedIff(s, StartedMode(e), StartedConfig(e), e.ch);
  }

  /** The request pushes out the media that is paused behind the mode it pre-empts. */
  predicate Evicts(s: State, e: Event) {
    IsStart(e) && Settled(s) && Accepts(s, StartedMode(e)) && s.paused.MediaMode?
  }

  // ---- Reports leave the service active or inactive ----

  lemma ResumedKeepsActive(s: State, mode: Mode, cfg: StreamConfig, ch: Choice)
    requires ValidPicks(s, ch.picks) && !s.media.Inactive?
    ensures !Resumed(s, mode, cfg, ch).0.media.Inactive?
  {
    ResumedKeepsModes(s, mode, cfg, ch);
  }

  lemma ResumedPausedKeepsActive(s: State, ch: Choice)
    requires ValidPicks(s, ch.picks) && !s.media.Inactive? && (s.current.InTransit? || s.current.NoMode?)
    ensures !ResumedPaused(s, ch).media.Inactive?
  {
    ResumedPausedModes(s, ch);
  }

  lemma ReportKeepsActive(s: State, i: nat, state: AseState, report: Report, ch: Choice)
    requires i < |s.ases| && ValidPicks(s, ch.picks) && !s.media.Inactive?
    ensures !AfterReport(s, i, state, report, ch).media.Inactive?
  {
    AnsweredKeepsModes(s, i, state, report);
    var w := Answered(s, i, state, report);
    if w.current.InTransit? {
      ReleaseKeepsActive(w, ch);
    }
  }

  lemma ReleaseKeepsActive(s: State, ch: Choice)
    requires ValidPicks(s, ch.picks) && !s.media.Inactive? && s.current.InTransit?
    ensures !ReleaseCompleted(s, ch).media.Inactive?
  {
    var c := s.(slots := Cleared(s.slots), releasing := false);
    ResumedKeepsActive(c, c.final, c.stream, ch);
    ResumedPausedKeepsActive(c, ch);
  }

  lemma CallEndKeepsActive(s: State, ch: Choice)
    requires Valid(s) && ValidPicks(s, ch.picks) && !s.media.Inactive?
    ensures !CallEnded(s, ch).media.Inactive?
  {
    ResumedPausedKeepsActive(NextMode(Stopped(s), NoMode, None).(current := NoMode), ch);
  }

  lemma StartEvictsIff(s: State, e: Event)
    requires Handles(s, e) && IsStart(e) && Shape(s) && !s.media.Inactive?
    ensures Handled(s, e).media.Inactive? <==> Evicts(s, e)
  {
    if s.current.NoMode? {
      ResumedKeepsActive(s, StartedMode(e), StartedConfig(e), e.ch);
    } else {
      StoppedForModes(s, StartedMode(e));
    }
  }

  /** Of all events, at any time, exactly these make an active service inactive. */
  lemma EvictionIff(s: State, e: Event)
    requires Handles(s, e) && Shape(s) && !s.media.Inactive?
    ensures Handled(s, e).media.Inactive? <==> Evicts(s, e)
  {
    if IsStart(e) {
      StartEvictsIff(s, e);
    } else if e.Reported? {
      ReportKeepsActive(s, e.i, e.state, e.report, e.ch);
    } else if e.EndCall? || e.RemoteEndCall? {
      CallEndKeepsActive(s, e.ch);
    }
  }

  // ---- Media that has been pushed out ----

  /** The service is inactive, and no mode that runs, is asked for or is paused belongs to it. */
  predicate PushedOut(s: State) {
    s.media.Inactive? && !s.current.MediaMode? && !s.final.MediaMode? && !s.paused.MediaMode?
  }

  /** From any other mode than media itself the request leaves nothing of the media behind. */
  lemma EvictionPushesOut(s: State, e: Event)
    requires Handles(s, e) && Shape(s) && Evicts(s, e)
    ensures Handled(s, e).media.Inactive?
    ensures PushedOut(Handled(s, e)) <==> !s.current.MediaMode?
  {
    StoppedForModes(s, StartedMode(e));
  }

  /** What the user plays from rest, and the loss of the set, bring the service back. */
  predicate Revives(s: State, e: Event) {
    e.SetGone? || (e.Play? && s.current.NoMode?)
  }

  lemma ReportKeepsPushedOut(s: State, i: nat, state: AseState, report: Report, ch: Choice)
    requires PushedOut(s) && i < |s.ases| && ValidPicks(s, ch.picks)
    ensures PushedOut(AfterReport(s, i, state, report, ch))
  {
    AnsweredKeepsModes(s, i, state, report);
    var w := Answered(s, i, state, report);
    if w.current.InTransit? {
      ReleaseKeepsPushedOut(w, ch);
    }
  }

  lemma ReleaseKeepsPushedOut(s: State, ch: Choice)
    requires PushedOut(s) && s.current.InTransit? && ValidPicks(s, ch.picks)
    ensures PushedOut(ReleaseCompleted(s, ch))
  {
    var c := s.(slots := Cleared(s.slots), releasing := false);
    if s.paused.NoMode? {
    } else if !s.final.NoMode? {
      ResumedKeepsModes(c, c.final, c.stream, ch);
    } else {
      ResumedPausedModes(c, ch);
    }
  }

  lemma CallEndKeepsPushedOut(s: State, ch: Choice)
    requires PushedOut(s) && Valid(s) && ValidPicks(s, ch.picks)
    ensures PushedOut(CallEnded(s, ch))
  {
    var r := NextMode(Stopped(s), NoMode, None);
    if r.ringing && !ch.inband {
      ResumedPausedModes(r.(current := NoMode), ch);
    }
  }

  lemma StartKeepsPushedOut(s: State, e: Event)
    requires PushedOut(s) && Handles(s, e) && IsStart(e) && Shape(s)
    ensures PushedOut(Handled(s, e))
  {
    if s.current.NoMode? {
      ResumedKeepsModes(s, StartedMode(e), StartedConfig(e), e.ch);
    } else {
      StoppedForModes(s, StartedMode(e));
    }
  }

  lemma EventRevivesIff(s: State, e: Event)
    requires PushedOut(s) && Handles(s, e) && Shape(s)
    ensures PushedOut(Handled(s, e)) <==> !Revives(s, e)
  {
    if IsStart(e) {
      StartKeepsPushedOut(s, e);
    } else if e.Reported? {
      ReportKeepsPushedOut(s, e.i, e.state, e.report, e.ch);
    } else if e.EndCall? || e.RemoteEndCall? {
      CallEndKeepsPushedOut(s, e.ch);
    } else if e.Play? && s.current.NoMode? {
      ResumedKeepsModes(s, MediaMode, e.cfg, e.ch);
    }
  }

  // ---- On runs ----

  ghost predicate NeverRevived(s: State, events: seq<Event>)
    decreases |events|
  {
    events == [] || (Handles(s, events[0]) && !Revives(s, events[0]) && NeverRevived(Handled(s, events[0]), events[1..]))
  }

  ghost predicate NeverEvicted(s: State, events: seq<Event>)
    decreases |events|
  {
    events == [] || (Handles(s, events[0]) && !Evicts(s, events[0]) && NeverEvicted(Handled(s, events[0]), events[1..]))
  }

  lemma {:induction false} StaysPushedOut(s: State, events: seq<Event>, t: State)
    requires PushedOut(s) && Shape(s) && Run(s, events, t) && NeverRevived(s, events)
    ensures PushedOut(t) && Shape(t)
    decreases |events|
  {
    if events != [] {
      EventRevivesIff(s, events[0]);
      EventKeepsShape(s, events[0]);
      StaysPushedOut(Handled(s, events[0]), events[1..], t);
    }
  }

  /** Once media was pushed out from behind another mode, no remote control point can start it:
      on every run that follows, each remote play changes nothing, and each remote pause, until
      the user plays from rest or the set is lost. */
  lemma PushedOutMediaStaysSilent(s: State, e: Event, events: seq<Event>, t: State, ch: Choice)
    requires Shape(s) && Handles(s, e) && Evicts(s, e) && !s.current.MediaMode?
    requires Run(Handled(s, e), events, t) && NeverRevived(Handled(s, e), events)
    requires Handles(t, RemotePlay(ch))
    ensures Handled(t, RemotePlay(ch)) == t && Handled(t, RemotePause) == t
    ensures !t.media.Playing?
  {
    EvictionPushesOut(s, e);
    EventKeepsShape(s, e);
    StaysPushedOut(Handled(s, e), events, t);
  }

  lemma {:induction false} StaysActive(s: State, events: seq<Event>, t: State)
    requires !s.media.Inactive? && Shape(s) && Run(s, events, t) && NeverEvicted(s, events)
    ensures !t.media.Inactive? && Shape(t)
    decreases |events|
  {
    if events != [] {
      EvictionIff(s, events[0]);
      EventKeepsShape(s, events[0]);
      StaysActive(Handled(s, events[0]), events[1..], t);
    }
  }

  /** A remote play starts media exactly in no mode with an active service: the paused
      configuration is prepared for media and goes to every endpoint that is picked. */
  lemma RemotePlayIff(s: State, ch: Choice)
    requires Handles(s, RemotePlay(ch))
    ensures var t := Handled(s, RemotePlay(ch));
            if s.current.NoMode? && !s.media.Inactive? then
              && t.media.Playing? && t.current.InTransit? && t.final.MediaMode? && t.changes == s.changes + 1
              && (s.media.Paused? ==>
                    && t.ases == AllConfigured(s, ch.picks).ases && t.slots == AllConfigured(s, ch.picks).slots
                    && t.stream == AllPrepared(s.ases, s.pausedStream.(context := Media), ch.picks))
              && t.pausedStream == t.stream && (s.media.Playing? ==> t.stream == s.pausedStream && t.ases == s.ases)
            else t == s
  {
  }

  /** Media that is paused, by its user or by other modes, and was never pushed out: on every run,
      however long, a remote play starts it whenever the player is in no mode. */
  lemma PausedMediaCanBePlayed(s: State, events: seq<Event>, t: State, ch: Choice)
    requires Shape(s) && !s.media.Inactive? && Run(s, events, t) && NeverEvicted(s, events)
    requires t.current.NoMode? && Handles(t, RemotePlay(ch))
    ensures Handled(t, RemotePlay(ch)).media.Playing? && Handled(t, RemotePlay(ch)).final.MediaMode?
    ensures Handled(t, RemotePlay(ch)) != t
  {
    StaysActive(s, events, t);
    RemotePlayIff(t, ch);
  }
}
