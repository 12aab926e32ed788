/** Requests on the joint system: every request that meets the discipline keeps its invariant,
    whether it concerns a stream or a call. */
module OrchestrationRequests {
  import opened Wrappers
  import opened QosNegotiation
  import opened AseControl
  import opened AudioMode
  import opened Orchestration
  import AudioModeRuns

  // ---- Stopping ----

  /** Stopping a stream whose endpoints all stream sends each of them a Release it accepts. */
  lemma StoppedIsClosing(s: Sys)
    requires Inv(s) && PhaseOf(s.player).Live? && AllListedIn(s.player, Streaming)
    ensures var t := Stopped(s.player);
            && t.releasing && SomeListed(t)
            && !AllListedIn(t, Idle) && !AllListedIn(t, CodecConfigured)
            && forall i :: 0 <= i < |s.servers| ==>
                 if Listed(t, i) then IsClosing(t.ases[i], s.servers[i]) else AtRest(t.ases[i], s.servers[i])
  {
    var p := s.player;
    StoppedForm(p);
    var t := Stopped(p);
    var k :| 0 <= k < |p.slots| && p.slots[k].Some?;
    assert t.ases[t.slots[k].value].view.Streaming?;
    forall i | 0 <= i < |s.servers|
      ensures if Listed(t, i) then IsClosing(t.ases[i], s.servers[i]) else AtRest(t.ases[i], s.servers[i])
    {
      assert AseOk(p, i, s.servers[i]);
      assert [] + [Release] == [Release];
      if Listed(p, i) { ListedInMeansEach(p, Streaming, i); }
    }
  }

  /** Everything stopped, and the player told where to go next. */
  lemma StoppingKeepsInv(s: Sys, t: State)
    requires Inv(s) && PhaseOf(s.player).Live? && AllListedIn(s.player, Streaming)
    requires t.ases == Stopped(s.player).ases && t.slots == s.player.slots
    requires t.releasing && (t.ringing ==> s.player.ringing) && Finishing(t)
    ensures Inv(s.(player := t)) && PhaseOf(t).Closing?
  {
    StoppedIsClosing(s);
    var q := Stopped(s.player);
    SameSlotsSameList(q, t);
    SameViewsSameAnswer(q, t, Idle);
    SameViewsSameAnswer(q, t, CodecConfigured);
    forall i | 0 <= i < |s.servers|
      ensures AseOk(t, i, s.servers[i])
    {
      assert Listed(t, i) == Listed(q, i);
    }
  }

  // ---- From rest ----

  lemma NothingInFlight(s: Sys)
    requires Inv(s) && (PhaseOf(s.player).Off? || PhaseOf(s.player).Waiting?)
    ensures AllAtRest(s.player, s.servers) && !SomeListed(s.player)
  {
    forall i | 0 <= i < |s.servers|
      ensures AtRest(s.player.ases[i], s.servers[i])
    {
      assert AseOk(s.player, i, s.servers[i]);
    }
  }

  /** The endpoints of `r` are in set-up, and `t` lists the same ones. */
  lemma SetupIsInv(s: Sys, r: State, t: State)
    requires |s.servers| == |t.ases| && !s.cigUp && Valid(t) && ModesOk(t) && IsUserMode(t.final)
    requires t.ases == r.ases && t.slots == r.slots && t.current.InTransit? && !t.releasing
    requires Distinct(r) && Packed(r.slots) && SomeListed(r) && !AllListedIn(r, Enabling) && Streamable(t.stream.context)
    requires t.ringing ==> s.inband
    requires forall i :: 0 <= i < |s.servers| ==>
               if Listed(r, i) then InSetup(r.ases[i], s.servers[i]) else AtRest(r.ases[i], s.servers[i])
    ensures Inv(s.(player := t)) && PhaseOf(t).Setup?
  {
    SameViewsSameAnswer(r, t, Enabling);
    SameSlotsSameList(r, t);
    forall i | 0 <= i < |s.servers|
      ensures AseOk(t, i, s.servers[i])
    {
      assert Listed(t, i) == Listed(r, i);
    }
  }

  /** With nothing listed and nothing in flight, `t` is at rest or waits. */
  lemma EmptyIsInv(s: Sys, t: State)
    requires AllAtRest(s.player, s.servers) && !SomeListed(s.player) && !s.cigUp && Valid(t) && ModesOk(t)
    requires t.ases == s.player.ases && t.slots == s.player.slots && !t.releasing
    requires (t.current.NoMode? && t.paused.NoMode?) || t.current.InTransit?
    requires t.ringing ==> (t.current.InTransit? && t.final.CallMode? <==> !s.inband)
    ensures Inv(s.(player := t))
    ensures PhaseOf(t) == if t.current.NoMode? then Off else Waiting
  {
    SameSlotsSameList(s.player, t);
    EmptyIsPacked(t.slots);
    forall i: nat | i < |s.servers|
      ensures AseOk(t, i, s.servers[i])
    {
      NothingListed(t, i);
    }
  }

  /** A start from rest. */
  lemma StartingKeepsInv(s: Sys, mode: Mode, cfg: StreamConfig, ch: Choice)
    requires Inv(s) && PhaseOf(s.player).Off? && IsUserMode(mode) && GoodChoice(s.player, ch)
    requires (mode.CallMode? ==> ch.inband && s.inband) && (mode.MediaMode? ==> !s.player.media.Playing?)
    ensures var (r, c) := Resumed(s.player, mode, cfg, ch);
            var t := NextMode(r, mode, Some(c));
            Inv(s.(player := t)) && PhaseOf(t).Setup?
  {
    var p := s.player;
    NothingInFlight(s);
    ResumedIsSetup(p, s.servers, mode, cfg, ch);
    var (r, c) := Resumed(p, mode, cfg, ch);
    SetupIsInv(s, r, NextMode(r, mode, Some(c)));
  }

  /** A call without an in-band ringtone, from rest. */
  lemma RingingKeepsInv(s: Sys, cfg: StreamConfig, ch: Choice)
    requires Inv(s) && PhaseOf(s.player).Off? && !s.inband && !ch.inband && ValidPicks(s.player, ch.picks)
    ensures var (r, c) := Resumed(s.player, CallMode, cfg, ch);
            var t := NextMode(r, CallMode, Some(c));
            Inv(s.(player := t)) && RingsSilently(t)
  {
    NothingInFlight(s);
    var (r, c) := Resumed(s.player, CallMode, cfg, ch);
    EmptyIsInv(s, NextMode(r, CallMode, Some(c)));
  }

  lemma RemotePlayForm(p: State, ch: Choice)
    requires Valid(p) && ValidPicks(p, ch.picks) && p.current.NoMode? && p.media.Paused?
    ensures var (r, c) := Resumed(p, MediaMode, p.pausedStream, ch);
            Handled(p, RemotePlay(ch)) == NextMode(r.(pausedStream := c), MediaMode, Some(c))
  {
  }

  lemma RemotePlayAtRest(s: Sys, ch: Choice)
    requires Inv(s) && Enabled(s, Request(RemotePlay(ch))) && PhaseOf(s.player).Off? && s.player.media.Paused?
    ensures Inv(Next(s, Request(RemotePlay(ch))))
  {
    var p := s.player;
    NothingInFlight(s);
    RemotePlayForm(p, ch);
    ResumedIsSetup(p, s.servers, MediaMode, p.pausedStream, ch);
    var (r, c) := Resumed(p, MediaMode, p.pausedStream, ch);
    SetupIsInv(s, r, NextMode(r.(pausedStream := c), MediaMode, Some(c)));
  }

  /** Media that plays already is not started: the player is in transit to media mode for good. */
  lemma PlayWhilePlaying(s: Sys, e: Event)
    requires Inv(s) && Enabled(s, Request(e)) && PhaseOf(s.player).Off? && AudioModeRuns.IsPlay(e)
    requires s.player.media.Playing?
    ensures Inv(Next(s, Request(e)))
    ensures var t := Next(s, Request(e)).player;
            PhaseOf(t).Waiting? && t.final.MediaMode? && t.cigs == s.player.cigs
  {
    NothingInFlight(s);
    EmptyIsInv(s, Next(s, Request(e)).player);
  }

  /** An accepted call that does not go on ringing in-band: its endpoints are configured for a
      conversation, whatever the player is doing. */
  lemma AcceptedForm(p: State, ch: Choice)
    requires Valid(p) && ValidPicks(p, ch.picks) && !(p.ringing && ch.inband)
    ensures var t := CallAccepted(p, ch);
            && t == AllConfigured(p, ch.picks).(stream := t.stream, ringing := false)
            && t.stream.context.Conversational? && SameUserConfig(t.stream, p.stream)
  {
    PreparedKeeps(p.ases, p.stream.(context := Conversational), ch.picks);
  }

  lemma StrayIsInv(s: Sys, r: State, t: State)
    requires |s.servers| == |t.ases| && !s.cigUp && Valid(t) && ModesOk(t)
    requires t.ases == r.ases && t.slots == r.slots && t.current.NoMode? && t.paused.NoMode? && !t.releasing && !t.ringing
    requires Distinct(r) && Packed(r.slots) && SomeListed(r)
    requires forall i :: 0 <= i < |s.servers| ==>
               if Listed(r, i) then InSetup(r.ases[i], s.servers[i]) else AtRest(r.ases[i], s.servers[i])
    ensures Inv(s.(player := t)) && PhaseOf(t).Stray?
  {
    SameSlotsSameList(r, t);
    forall i | 0 <= i < |s.servers|
      ensures AseOk(t, i, s.servers[i])
    {
      assert Listed(t, i) == Listed(r, i);
    }
  }

  /** A call that is accepted in no mode sets up endpoints that belong to no mode. */
  lemma AcceptAtRest(s: Sys, ch: Choice)
    requires Inv(s) && Enabled(s, Request(AcceptCall(ch))) && PhaseOf(s.player).Off? && !s.player.ringing
    ensures Inv(Next(s, Request(AcceptCall(ch))))
    ensures var t := Next(s, Request(AcceptCall(ch))).player; PhaseOf(t).Stray? && t.cigs == s.player.cigs
  {
    var t := Next(s, Request(AcceptCall(ch))).player;
    NothingInFlight(s);
    AcceptedForm(s.player, ch);
    ConfiguredIsSetup(s.player, s.servers, ch);
    StrayIsInv(s, AllConfigured(s.player, ch.picks), t);
  }

  lemma CallAtRest(s: Sys, e: Event)
    requires Inv(s) && Enabled(s, Request(e)) && PhaseOf(s.player).Off? && AnswersCall(e)
    ensures Inv(Next(s, Request(e)))
  {
    NothingInFlight(s);
    match e
    case AcceptCall(ch) =>
      if s.player.ringing {
        EmptyIsInv(s, Next(s, Request(e)).player);
      } else {
        AcceptAtRest(s, ch);
      }
    case EndCall(_) =>
    case RemoteEndCall(ch) => RemoteEndAtRest(s, ch);
  }

  lemma NothingToRelease(p: State)
    requires Valid(p) && !SomeListed(p)
    ensures Stopped(p) == p
  {
    NothingToReleaseFrom(p, 0);
  }

  lemma {:induction false} NothingToReleaseFrom(p: State, k: nat)
    requires Valid(p) && !SomeListed(p) && k <= |p.slots|
    ensures ReleasedFrom(p, k) == p
    decreases |p.slots| - k
  {
    if k < |p.slots| {
      NothingToReleaseFrom(p, k + 1);
    }
  }

  /** A call that the remote side ends in no mode leaves the player in transit for good. */
  lemma RemoteEndAtRest(s: Sys, ch: Choice)
    requires Inv(s) && Enabled(s, Request(RemoteEndCall(ch))) && PhaseOf(s.player).Off?
    ensures var t := Next(s, Request(RemoteEndCall(ch)));
            Inv(t) && PhaseOf(t.player).Waiting? && !t.player.ringing && t.player.final.NoMode?
  {
    NothingInFlight(s);
    NothingToRelease(s.player);
    EmptyIsInv(s, Next(s, Request(RemoteEndCall(ch))).player);
  }

  lemma StartAtRest(s: Sys, e: Event)
    requires Inv(s) && Enabled(s, Request(e)) && PhaseOf(s.player).Off? && AudioModeRuns.IsStart(e)
    ensures Inv(Next(s, Request(e)))
  {
    match e
    case StartMic(cfg, ch) => StartingKeepsInv(s, MicMode, cfg, ch);
    case StartBidir(cfg, ch) => StartingKeepsInv(s, BidirMicMode, cfg.(context := Game), ch);
    case IncomingCall(cfg, ch) =>
      if s.inband {
        StartingKeepsInv(s, CallMode, cfg, ch);
      } else {
        RingingKeepsInv(s, cfg, ch);
      }
  }

  lemma PlayAtRest(s: Sys, e: Event)
    requires Inv(s) && Enabled(s, Request(e)) && PhaseOf(s.player).Off? && AudioModeRuns.IsPlay(e)
    ensures Inv(Next(s, Request(e)))
  {
    if s.player.media.Playing? {
      PlayWhilePlaying(s, e);
    } else {
      match e
      case Play(cfg, ch) => StartingKeepsInv(s, MediaMode, cfg, ch);
      case RemotePlay(ch) => if !s.player.media.Inactive? { RemotePlayAtRest(s, ch); }
    }
  }

  /** There is nothing to stop. */
  lemma StopAtRest(s: Sys, e: Event)
    requires Inv(s) && Enabled(s, Request(e)) && PhaseOf(s.player).Off?
    requires !AudioModeRuns.IsStart(e) && !AudioModeRuns.IsPlay(e) && !AnswersCall(e)
    ensures Next(s, Request(e)) == s
  {
  }

  lemma RequestAtRest(s: Sys, e: Event)
    requires Inv(s) && Enabled(s, Request(e)) && PhaseOf(s.player).Off?
    ensures Inv(Next(s, Request(e)))
  {
    if AudioModeRuns.IsStart(e) {
      StartAtRest(s, e);
    } else if AudioModeRuns.IsPlay(e) {
      PlayAtRest(s, e);
    } else if AnswersCall(e) {
      CallAtRest(s, e);
    } else {
      StopAtRest(s, e);
    }
  }

  // ---- While a call rings silently ----

  /** Accepted with the player's own support only, nothing is started; otherwise the endpoints
      are set up for the conversation. */
  lemma AcceptWhileRinging(s: Sys, ch: Choice)
    requires Inv(s) && Enabled(s, Request(AcceptCall(ch))) && RingsSilently(s.player)
    ensures Inv(Next(s, Request(AcceptCall(ch))))
    ensures var t := Next(s, Request(AcceptCall(ch))).player;
            && !t.ringing && t.final.CallMode? && t.paused == s.player.paused && t.cigs == s.player.cigs
            && t.pausedStream == s.player.pausedStream
            && SameUserConfig(t.stream, s.player.stream)
            && (if ch.inband then PhaseOf(t).Waiting? else PhaseOf(t).Setup?)
  {
    var p, t := s.player, Next(s, Request(AcceptCall(ch))).player;
    NothingInFlight(s);
    AudioModeRuns.EventKeepsShape(p, AcceptCall(ch));
    if ch.inband {
      EmptyIsInv(s, t);
    } else {
      AcceptedForm(p, ch);
      ConfiguredIsSetup(p, s.servers, ch);
      SetupIsInv(s, AllConfigured(p, ch.picks), t);
    }
  }

  /** A silent ring that ends goes straight back: to no mode, or to the paused one. */
  lemma EndedWhileRinging(p: State, ch: Choice)
    requires Valid(p) && RingsSilently(p) && !ch.inband && ValidPicks(p, ch.picks)
    ensures var q := NextMode(p, NoMode, None).(current := NoMode);
            CallEnded(p, ch) == (if q.paused.NoMode? then q else ResumedPaused(q, ch)).(ringing := false)
  {
    NothingToRelease(p);
  }

  lemma EndWhileRinging(s: Sys, ch: Choice)
    requires Inv(s) && RingsSilently(s.player) && GoodChoice(s.player, ch) && ch.inband == s.inband
    ensures Inv(s.(player := CallEnded(s.player, ch)))
  {
    var p, t := s.player, CallEnded(s.player, ch);
    NothingInFlight(s);
    EndedWhileRinging(p, ch);
    AudioModeRuns.CallEndedModes(p, ch);
    if p.paused.NoMode? {
      EmptyIsInv(s, t);
    } else {
      BackFromRinging(s, ch);
    }
  }

  /** Back to a call means another silent ring, which is at once forgotten. */
  lemma BackFromRinging(s: Sys, ch: Choice)
    requires Inv(s) && RingsSilently(s.player) && GoodChoice(s.player, ch) && ch.inband == s.inband
    requires !s.player.paused.NoMode? && ModesOk(CallEnded(s.player, ch))
    ensures Inv(s.(player := CallEnded(s.player, ch)))
  {
    var p, t := s.player, CallEnded(s.player, ch);
    NothingInFlight(s);
    EndedWhileRinging(p, ch);
    var q := NextMode(p, NoMode, None).(current := NoMode);
    var (r, c) := Resumed(q, q.paused, q.pausedStream, ch);
    AudioModeRuns.ResumedKeepsModes(q, q.paused, q.pausedStream, ch);
    SameSlotsSameList(p, q);
    if q.paused.CallMode? {
      EmptyIsInv(s, t);
    } else {
      ResumedIsSetup(q, s.servers, q.paused, q.pausedStream, ch);
      SetupIsInv(s, r, t);
    }
  }

  lemma RequestWhileRinging(s: Sys, e: Event)
    requires Inv(s) && Enabled(s, Request(e)) && RingsSilently(s.player) && AnswersCall(e)
    ensures Inv(Next(s, Request(e)))
  {
    match e
    case AcceptCall(ch) => AcceptWhileRinging(s, ch);
    case EndCall(ch) => EndWhileRinging(s, ch);
    case RemoteEndCall(ch) => EndWhileRinging(s, ch);
  }

  // ---- While a stream runs ----

  /** An in-band ring that is accepted goes on as it is. */
  lemma AcceptInBand(s: Sys, ch: Choice)
    requires Inv(s) && Enabled(s, Request(AcceptCall(ch))) && PhaseOf(s.player).Live?
    requires s.player.ringing && ch.inband
    ensures Next(s, Request(AcceptCall(ch))) == s.(player := s.player.(ringing := false))
    ensures Inv(Next(s, Request(AcceptCall(ch))))
  {
    var p, t := s.player, s.player.(ringing := false);
    SameSlotsSameList(p, t);
    forall i | 0 <= i < |s.servers|
      ensures AseOk(t, i, s.servers[i])
    {
      assert AseOk(p, i, s.servers[i]) && Listed(t, i) == Listed(p, i);
    }
  }

  lemma PickedIn(picks: seq<nat>, i: nat)
    requires i in picks
    ensures exists k :: 0 <= k < |picks| && picks[k] == i
  {
  }

  /** Otherwise its endpoints join the running stream. */
  lemma AcceptedJoins(s: Sys, ch: Choice)
    requires Inv(s) && Enabled(s, Request(AcceptCall(ch))) && PhaseOf(s.player).Live?
    requires !(s.player.ringing && ch.inband) && NoneListed(s.player, ch.picks)
    ensures Inv(Next(s, Request(AcceptCall(ch))))
  {
    var p, t := s.player, Next(s, Request(AcceptCall(ch))).player;
    ConfiguredForm(p, ch.picks);
    AcceptedForm(p, ch);
    var r := AllConfigured(p, ch.picks);
    JoinedIsLive(p, r, t);
    forall i: nat | i < |s.servers|
      ensures AseOk(t, i, s.servers[i])
    {
      assert AseOk(p, i, s.servers[i]);
      assert [] + [ConfigCodec] == [ConfigCodec];
      if i in ch.picks {
        PickedIn(ch.picks, i);
        assert !Listed(p, i) && Listed(t, i);
      } else {
        assert Listed(t, i) == Listed(p, i);
      }
    }
  }

  lemma JoinedIsLive(p: State, r: State, t: State)
    requires PlayerOk(p) && PhaseOf(p).Live? && Valid(r)
    requires r == p.(ases := r.ases, slots := r.slots) && |r.ases| == |p.ases|
    requires Distinct(r) && Packed(r.slots) && forall i :: Some(i) in p.slots ==> Some(i) in r.slots
    requires t == r.(stream := t.stream, ringing := false) && Streamable(t.stream.context)
    ensures PlayerOk(t) && PhaseOf(t).Live?
  {
    var k :| 0 <= k < |p.slots| && p.slots[k].Some?;
    assert Some(p.slots[k].value) in p.slots;
    SomeoneIsListed(t, p.slots[k].value);
  }

  lemma AcceptWhileLive(s: Sys, ch: Choice)
    requires Inv(s) && Enabled(s, Request(AcceptCall(ch))) && PhaseOf(s.player).Live? && !Clashes(s.player, AcceptCall(ch))
    ensures Inv(Next(s, Request(AcceptCall(ch))))
  {
    if s.player.ringing && ch.inband {
      AcceptInBand(s, ch);
    } else {
      AcceptedJoins(s, ch);
    }
  }

  /** The stream that runs is released, and media paused if it played. */
  function Halted(p: State): State
    requires Valid(p)
  {
    Stopped(p).(media := if p.current.MediaMode? then Paused else p.media)
  }

  /** What runs is ended for `mode`. */
  function MovedOn(p: State, mode: Mode, cfg: Option<StreamConfig>): State
    requires Valid(p)
  {
    NextMode(Halted(p), mode, cfg)
  }

  lemma MovedOnForm(p: State, mode: Mode, cfg: Option<StreamConfig>)
    requires PlayerOk(p) && PhaseOf(p).Live? && !mode.MediaMode?
    ensures var t := MovedOn(p, mode, cfg);
            && t.ases == Stopped(p).ases && t.slots == p.slots && t.ringing == p.ringing
            && t.current.InTransit? && t.releasing && t.final == mode && MediaOk(t)
            && t.paused == (if mode.NoMode? then p.paused else p.current)
            && t.pausedStream == (if !mode.NoMode? || p.current.MediaMode? then p.stream else p.pausedStream)
            && t.stream == (if cfg.Some? then cfg.value else NO_STREAM)
            && t.cigs == p.cigs && t.changes == p.changes + 1
  {
    StoppedForm(p);
  }

  predicate Outranked(p: State, e: Event)
    requires AudioModeRuns.IsStart(e)
  {
    Level(p.current) > Level(AudioModeRuns.StartedMode(e))
  }

  lemma StartRequestedForm(p: State, mode: Mode, cfg: StreamConfig, ch: Choice)
    requires PlayerOk(p) && PhaseOf(p).Live? && ValidPicks(p, ch.picks) && !mode.NoMode?
    ensures StartRequested(p, mode, cfg, ch) ==
              if Level(p.current) > Level(mode) then p else MovedOn(p, mode, Some(cfg))
  {
  }

  /** A start while a stream runs is refused if it ranks lower, and otherwise ends what runs. */
  lemma StartWhileLiveForm(s: Sys, e: Event)
    requires Inv(s) && Enabled(s, Request(e)) && PhaseOf(s.player).Live? && AudioModeRuns.IsStart(e)
    ensures Next(s, Request(e)).player ==
              if Outranked(s.player, e) then s.player
              else MovedOn(s.player, AudioModeRuns.StartedMode(e), Some(AudioModeRuns.StartedConfig(e)))
  {
    match e
    case StartMic(cfg, ch) => StartRequestedForm(s.player, MicMode, cfg, ch);
    case StartBidir(cfg, ch) => StartRequestedForm(s.player, BidirMicMode, cfg.(context := Game), ch);
    case IncomingCall(cfg, ch) => StartRequestedForm(s.player, CallMode, cfg, ch);
  }

  /** The requests that stop the stream of the settled mode. */
  predicate Stops(p: State, e: Event) {
    match p.current
    case MediaMode => e.Pause? || e.RemotePause? || e.Disconnect?
    case MicMode => e.StopMic? || e.Disconnect?
    case BidirMicMode => e.StopBidir? || e.Disconnect?
    case CallMode => e.Disconnect?
    case _ => false
  }

  predicate IsEnd(e: Event) {
    e.EndCall? || e.RemoteEndCall?
  }

  lemma DisconnectWhileLive(p: State)
    requires PlayerOk(p) && PhaseOf(p).Live?
    ensures Handled(p, Disconnect) == MovedOn(p, NoMode, None)
  {
  }

  lemma PauseWhileLive(p: State, e: Event)
    requires PlayerOk(p) && PhaseOf(p).Live? && (e.Pause? || e.RemotePause?)
    ensures Handled(p, e) == if p.current.MediaMode? then MovedOn(p, NoMode, None) else p
  {
  }

  lemma StopWhileLive(p: State, e: Event)
    requires PlayerOk(p) && PhaseOf(p).Live? && (e.StopMic? || e.StopBidir?)
    ensures Handled(p, e) == if Stops(p, e) then MovedOn(p, NoMode, None) else p
  {
  }

  lemma StopWhileLiveForm(s: Sys, e: Event)
    requires Inv(s) && Enabled(s, Request(e)) && PhaseOf(s.player).Live?
    requires !AudioModeRuns.IsStart(e) && !AnswersCall(e)
    ensures Next(s, Request(e)).player == if Stops(s.player, e) then MovedOn(s.player, NoMode, None) else s.player
  {
    match e
    case Disconnect => DisconnectWhileLive(s.player);
    case Pause => PauseWhileLive(s.player, e);
    case RemotePause => PauseWhileLive(s.player, e);
    case StopMic => StopWhileLive(s.player, e);
    case StopBidir => StopWhileLive(s.player, e);
    case Play(_, _) =>
    case RemotePlay(_) =>
  }

  /** The end of a call stops the stream without a look at the mode; media is not paused. */
  function CallStopped(p: State): State
    requires Valid(p)
  {
    NextMode(Stopped(p), NoMode, None).(ringing := false)
  }

  lemma CallStoppedForm(p: State)
    requires PlayerOk(p) && PhaseOf(p).Live?
    ensures var t := CallStopped(p);
            && t.ases == Stopped(p).ases && t.slots == p.slots && !t.ringing
            && t.current.InTransit? && t.releasing && t.final.NoMode? && MediaOk(t)
            && t.paused == p.paused && t.pausedStream == (if p.current.MediaMode? then p.stream else p.pausedStream)
            && t.cigs == p.cigs && t.changes == p.changes + 1
  {
    StoppedForm(p);
  }

  lemma EndWhileLiveForm(s: Sys, e: Event)
    requires Inv(s) && Enabled(s, Request(e)) && PhaseOf(s.player).Live? && IsEnd(e)
    ensures Next(s, Request(e)).player ==
              if e.RemoteEndCall? || s.player.current.CallMode? then CallStopped(s.player) else s.player
  {
  }

  lemma MovedOnKeepsInv(s: Sys, mode: Mode, cfg: Option<StreamConfig>, t: State)
    requires Inv(s) && PhaseOf(s.player).Live? && AllListedIn(s.player, Streaming)
    requires mode.NoMode? || (IsUserMode(mode) && !mode.MediaMode? && Level(s.player.current) <= Level(mode))
    requires t == MovedOn(s.player, mode, cfg)
    ensures Inv(s.(player := t))
  {
    MovedOnForm(s.player, mode, cfg);
    StoppingKeepsInv(s, t);
  }

  lemma RequestWhileLive(s: Sys, e: Event)
    requires Inv(s) && Enabled(s, Request(e)) && PhaseOf(s.player).Live? && Calm(s.player, e)
    ensures Inv(Next(s, Request(e)))
  {
    var p, t := s.player, Next(s, Request(e)).player;
    if AudioModeRuns.IsStart(e) {
      StartWhileLiveForm(s, e);
      if !Outranked(p, e) { MovedOnKeepsInv(s, AudioModeRuns.StartedMode(e), Some(AudioModeRuns.StartedConfig(e)), t); }
    } else if e.AcceptCall? {
      AcceptWhileLive(s, e.ch);
    } else if IsEnd(e) {
      EndWhileLive(s, e);
    } else {
      StopWhileLiveForm(s, e);
      if Stops(p, e) { MovedOnKeepsInv(s, NoMode, None, t); }
    }
  }

  lemma EndWhileLive(s: Sys, e: Event)
    requires Inv(s) && Enabled(s, Request(e)) && PhaseOf(s.player).Live? && AllListedIn(s.player, Streaming)
    requires IsEnd(e)
    ensures Inv(Next(s, Request(e)))
  {
    EndWhileLiveForm(s, e);
    if e.RemoteEndCall? || s.player.current.CallMode? {
      CallStoppedForm(s.player);
      StoppingKeepsInv(s, CallStopped(s.player));
    }
  }

  // ---- Every request ----

  lemma StrayIsNotQuiet(s: Sys)
    requires Inv(s) && PhaseOf(s.player).Stray?
    ensures !Quiet(s.player)
  {
    var k :| 0 <= k < |s.player.slots| && s.player.slots[k].Some?;
    var i := s.player.slots[k].value;
    assert AseOk(s.player, i, s.servers[i]);
    if Quiet(s.player) { ListedInMeansEach(s.player, Streaming, i); }
  }

  /** Every request that meets the discipline keeps the invariant. */
  lemma RequestKeepsInv(s: Sys, e: Event)
    requires Inv(s) && Enabled(s, Request(e)) && Calm(s.player, e)
    ensures Inv(Next(s, Request(e)))
  {
    match PhaseOf(s.player)
    case Off => RequestAtRest(s, e);
    case Waiting => RequestWhileRinging(s, e);
    case Stray => StrayIsNotQuiet(s);
    case _ => RequestWhileLive(s, e);
  }
}
