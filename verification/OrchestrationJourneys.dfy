/** Requests followed through to the end: a start, a stop, and a pre-emption that is later
    stopped again, of streams and of calls. Every theorem here speaks of all ways of delivering
    what is in flight. */
module OrchestrationJourneys {
  import opened Wrappers
  import opened QosNegotiation
  import opened AudioMode
  import opened Orchestration
  import opened OrchestrationRequests
  import opened OrchestrationRuns
  import opened OrchestrationOutcome
  import AudioModeRuns

  /** `t` is where the system is once `e` has been requested and everything was delivered. */
  ghost predicate After(s: Sys, e: Event, steps: seq<Step>, t: Sys) {
    && Inv(s) && Enabled(s, Request(e)) && Calm(s.player, e)
    && Deliveries(steps) && Run(Next(s, Request(e)), steps, t) && Resting(t)
  }

  /** The mode a start request asks for. A remote play has nothing to play while the media
      service is inactive. */
  function Wanted(p: State, e: Event): Option<Mode> {
    match e
    case Play(_, _) => Some(MediaMode)
    case RemotePlay(_) => if p.media.Inactive? then None else Some(MediaMode)
    case StartMic(_, _) => Some(MicMode)
    case StartBidir(_, _) => Some(BidirMicMode)
    case IncomingCall(_, _) => Some(CallMode)
    case _ => None
  }

  function RequestedConfig(p: State, e: Event): StreamConfig
    requires Wanted(p, e).Some?
  {
    match e
    case Play(cfg, _) => cfg
    case StartMic(cfg, _) => cfg
    case StartBidir(cfg, _) => cfg
    case IncomingCall(cfg, _) => cfg
    case _ => p.pausedStream
  }

  /** A call that both sides cannot ring for in-band. */
  predicate OnlyRings(s: Sys, mode: Mode) {
    mode.CallMode? && !s.inband
  }

  /** A request that ends the mode now settled, or the call that rings. The remote side's end of
      a call is not checked against the mode. */
  predicate Ends(p: State, e: Event) {
    if RingsSilently(p) then IsEnd(e)
    else
      || Stops(p, e)
      || (e.EndCall? && p.current.CallMode?)
      || (e.RemoteEndCall? && IsUserMode(p.current))
  }

  predicate SameUser(p: State, cfg: StreamConfig) {
    SameUserConfig(p.stream, cfg)
  }

  /** Settled in `mode`, all endpoints streaming, with the user's configuration `cfg`. */
  predicate StreamsIn(t: Sys, mode: Mode, cfg: StreamConfig) {
    Quiet(t.player) && t.player.current == mode && SameUser(t.player, cfg)
  }

  /** A call rings while the player waits, with the user's configuration `cfg`. */
  predicate RingsFor(t: Sys, cfg: StreamConfig) {
    RingsSilently(t.player) && t.player.final.CallMode? && SameUser(t.player, cfg)
  }

  // ---- Starts ----

  /** Media is asked for that plays already, after a request that took its mode away. */
  predicate PlaysAlready(p: State, mode: Mode) {
    mode.MediaMode? && p.media.Playing?
  }

  /** A start from rest arrives in the requested mode, with the requested configuration and
      exactly one new group; a call that cannot ring in-band rings, with no new group. Nothing
      is left paused. Only media that plays already is not started, and the player is stuck. */
  lemma StartArrives(s: Sys, e: Event, steps: seq<Step>, t: Sys)
    requires After(s, e, steps, t) && PhaseOf(s.player).Off? && Wanted(s.player, e).Some?
    ensures Inv(t) && t.player.paused.NoMode?
    ensures var (mode, cfg) := (Wanted(s.player, e).value, RequestedConfig(s.player, e));
            if PlaysAlready(s.player, mode) then Stuck(t.player) && t.player.cigs == s.player.cigs
            else if OnlyRings(s, mode) then RingsFor(t, cfg) && t.player.cigs == s.player.cigs
            else StreamsIn(t, mode, cfg) && t.player.cigs == s.player.cigs + 1
    ensures |steps| <= 8 * |s.servers|
  {
    var q := Next(s, Request(e));
    RequestKeepsInv(s, e);
    StartRequestedAtRest(s, e);
    ComesToRest(q, steps, t);
    DeliveriesKeep(q, steps, t);
    TotalIsBounded(q.player.ases, q.servers);
  }

  function ChoiceOf(e: Event): Choice {
    match e
    case Play(_, ch) => ch
    case RemotePlay(ch) => ch
    case StartMic(_, ch) => ch
    case StartBidir(_, ch) => ch
    case IncomingCall(_, ch) => ch
    case _ => Choice([], Game, false)
  }

  lemma StartRequestedAtRest(s: Sys, e: Event)
    requires Inv(s) && Enabled(s, Request(e)) && PhaseOf(s.player).Off? && Wanted(s.player, e).Some?
    requires Inv(Next(s, Request(e)))
    ensures var p, q := s.player, Next(s, Request(e)).player;
            && q.final == Wanted(p, e).value && q.paused.NoMode? && q.cigs == p.cigs && q.current.InTransit?
            && SameUserConfig(q.stream, RequestedConfig(p, e)) && !q.releasing
            && if PlaysAlready(p, q.final) then PhaseOf(q).Waiting?
               else if OnlyRings(s, q.final) then RingsSilently(q)
               else PhaseOf(q).Setup?
  {
    var (p, mode, ch) := (s.player, Wanted(s.player, e).value, ChoiceOf(e));
    var cfg := if e.StartBidir? then e.cfg.(context := Game) else RequestedConfig(p, e);
    StartedDestination(p, mode, cfg, ch);
    NothingInFlight(s);
    var q := Next(s, Request(e)).player;
    if OnlyRings(s, mode) || PlaysAlready(p, mode) {
      SameSlotsSameList(p, q);
    } else {
      ResumedIsSetup(p, s.servers, mode, cfg, ch);
      SameSlotsSameList(Resumed(p, mode, cfg, ch).0, q);
    }
  }

  lemma StartedDestination(p: State, mode: Mode, cfg: StreamConfig, ch: Choice)
    requires PlayerOk(p) && PhaseOf(p).Off? && ValidPicks(p, ch.picks) && IsUserMode(mode)
    ensures var (r, c) := Resumed(p, mode, cfg, ch);
            var t := NextMode(r, mode, Some(c));
            && t.current.InTransit? && !t.releasing
            && t.final == mode && t.paused.NoMode? && t.cigs == p.cigs
            && SameUserConfig(t.stream, cfg)
  {
    ResumedKeepsUser(p, mode, cfg, ch);
    AudioModeRuns.ResumedKeepsModes(p, mode, cfg, ch);
  }

  // ---- Stops ----

  /** A stop with nothing paused ends in no mode, with an empty list and no group; it does so
      exactly when the listed endpoints agree on where a release leads. */
  lemma StopArrives(s: Sys, e: Event, steps: seq<Step>, t: Sys)
    requires After(s, e, steps, t) && PhaseOf(s.player).Live? && Ends(s.player, e) && s.player.paused.NoMode?
    ensures t.player.current.NoMode? <==> !Mixed(s)
    ensures !Mixed(s) ==> !SomeListed(t.player) && !t.player.releasing && !t.cigUp
    ensures Mixed(s) ==> t.player.current.InTransit? && t.player.releasing
    ensures t.player.cigs == s.player.cigs
  {
    var q := Next(s, Request(e));
    RequestKeepsInv(s, e);
    StopRequested(s, e);
    SameListSameMix(s, q);
    ComesToRest(q, steps, t);
    DeliveriesKeep(q, steps, t);
  }

  lemma StopRequested(s: Sys, e: Event)
    requires Inv(s) && Enabled(s, Request(e)) && PhaseOf(s.player).Live? && Ends(s.player, e)
    ensures var p, q := s.player, Next(s, Request(e)).player;
            && PhaseOf(q).Closing? && q.final.NoMode? && q.paused == p.paused && q.slots == p.slots
            && q.cigs == p.cigs
            && q.pausedStream == (if p.current.MediaMode? then p.stream else p.pausedStream)
  {
    MovedOnForm(s.player, NoMode, None);
    CallStoppedForm(s.player);
    EndIsStop(s, e);
  }

  lemma EndIsStop(s: Sys, e: Event)
    requires Inv(s) && Enabled(s, Request(e)) && PhaseOf(s.player).Live? && Ends(s.player, e)
    ensures Next(s, Request(e)).player == if IsEnd(e) then CallStopped(s.player) else MovedOn(s.player, NoMode, None)
  {
    if IsEnd(e) {
      EndWhileLiveForm(s, e);
    } else {
      StopWhileLiveForm(s, e);
    }
  }

  /** The end of what runs, or rings, with a mode paused behind it: the paused mode is back with
      the user's configuration and one more group. Only a call cannot be gone back to where it
      does not ring in-band: after a release it rings anew, after another ring it is lost. */
  lemma EndReturns(s: Sys, e: Event, steps: seq<Step>, t: Sys)
    requires After(s, e, steps, t) && Ends(s.player, e) && !s.player.paused.NoMode?
    requires (PhaseOf(s.player).Live? && !Mixed(s)) || RingsSilently(s.player)
    ensures var p := s.player;
            if !OnlyRings(s, p.paused) then
              StreamsIn(t, p.paused, p.pausedStream) && t.player.paused.NoMode? && t.player.cigs == p.cigs + 1
            else if RingsSilently(p) then Stuck(t.player) && t.player.cigs == p.cigs
            else RingsFor(t, p.pausedStream) && t.player.paused.NoMode? && t.player.cigs == p.cigs
  {
    var q := Next(s, Request(e));
    RequestKeepsInv(s, e);
    if RingsSilently(s.player) {
      EndWhileRingingLeadsBack(s, e);
    } else {
      EndWhileLiveLeadsBack(s, e);
    }
    ComesToRest(q, steps, t);
    DeliveriesKeep(q, steps, t);
  }

  /** `q` is on its way back to what was paused in `p`. */
  predicate LeadsBack(p: State, q: Sys) {
    var d := DestinationOf(q.player, q.inband);
    && d.mode == p.paused && d.behind.NoMode?
    && d.sink == p.pausedStream.sink.core && d.source == p.pausedStream.source.core
    && q.player.cigs + GroupsOwed(q.player, q.inband) == p.cigs + (if OnlyRings(q, p.paused) then 0 else 1)
  }

  lemma EndWhileLiveLeadsBack(s: Sys, e: Event)
    requires Inv(s) && Enabled(s, Request(e)) && PhaseOf(s.player).Live? && !Mixed(s)
    requires Ends(s.player, e) && !s.player.paused.NoMode?
    ensures var q := Next(s, Request(e));
            && LeadsBack(s.player, q) && CanFinish(q) && q.inband == s.inband
            && DestinationOf(q.player, s.inband).rings == OnlyRings(s, s.player.paused)
  {
    StopRequested(s, e);
    SameListSameMix(s, Next(s, Request(e)));
  }

  lemma EndWhileRingingLeadsBack(s: Sys, e: Event)
    requires Inv(s) && Enabled(s, Request(e)) && RingsSilently(s.player) && IsEnd(e) && !s.player.paused.NoMode?
    ensures var q := Next(s, Request(e));
            && LeadsBack(s.player, q) && q.inband == s.inband
            && (CanFinish(q) <==> !OnlyRings(s, s.player.paused)) && GroupsOwed(q.player, s.inband) <= 1
            && !DestinationOf(q.player, s.inband).rings
            && q.player.cigs == s.player.cigs
  {
    EndRequestedWhileRinging(s, e);
  }

  /** The step back to the paused mode from a ring, without the ring. */
  lemma BackForm(p: State, ch: Choice)
    requires Valid(p) && RingsSilently(p) && !ch.inband && ValidPicks(p, ch.picks) && IsUserMode(p.paused)
    ensures var m, t := NextMode(p, NoMode, None).(current := NoMode), CallEnded(p, ch);
            var r := Resumed(m, p.paused, m.pausedStream, ch).0;
            && t.ases == r.ases && t.slots == r.slots && t.current.InTransit? && t.final == p.paused
            && t.paused.NoMode? && t.cigs == p.cigs && !t.ringing && t.releasing == p.releasing
            && SameUserConfig(t.stream, m.pausedStream) && m.pausedStream == p.pausedStream
  {
    EndedWhileRinging(p, ch);
    var m := NextMode(p, NoMode, None).(current := NoMode);
    ResumedKeepsUser(m, m.paused, m.pausedStream, ch);
    AudioModeRuns.ResumedKeepsModes(m, m.paused, m.pausedStream, ch);
  }

  lemma EndRequestedWhileRinging(s: Sys, e: Event)
    requires Inv(s) && Enabled(s, Request(e)) && RingsSilently(s.player) && IsEnd(e) && !s.player.paused.NoMode?
    ensures var p, q := s.player, Next(s, Request(e)).player;
            && q.current.InTransit? && q.final == p.paused && q.paused.NoMode? && q.cigs == p.cigs && !q.ringing
            && SameUserConfig(q.stream, p.pausedStream)
            && PhaseOf(q) == if OnlyRings(s, p.paused) then Waiting else Setup
  {
    var p, ch := s.player, e.ch;
    NothingInFlight(s);
    BackForm(p, ch);
    var m := NextMode(p, NoMode, None).(current := NoMode);
    var r := Resumed(m, p.paused, m.pausedStream, ch).0;
    SameSlotsSameList(p, m);
    SameSlotsSameList(r, Next(s, Request(e)).player);
    if !p.paused.CallMode? {
      ResumedIsSetup(m, s.servers, p.paused, m.pausedStream, ch);
    }
  }

  // ---- Pre-emption ----

  /** A request for a lower mode is refused and changes nothing at all. A request for media is
      refused whatever runs. */
  lemma LowerModesAreRefused(s: Sys, e: Event)
    requires Inv(s) && Enabled(s, Request(e)) && PhaseOf(s.player).Live? && Wanted(s.player, e).Some?
    ensures Preempts(s.player, e) <==> Next(s, Request(e)) != s
    ensures Preempts(s.player, e) ==> PhaseOf(Next(s, Request(e)).player).Closing?
  {
    if AudioModeRuns.IsStart(e) {
      StartWhileLiveForm(s, e);
      MovedOnForm(s.player, AudioModeRuns.StartedMode(e), Some(AudioModeRuns.StartedConfig(e)));
    } else {
      StopWhileLiveForm(s, e);
    }
  }

  predicate Preempts(p: State, e: Event) {
    && Wanted(p, e).Some? && !Wanted(p, e).value.MediaMode?
    && Level(p.current) <= Level(Wanted(p, e).value)
  }

  lemma PreemptionRequested(s: Sys, e: Event)
    requires Inv(s) && Enabled(s, Request(e)) && PhaseOf(s.player).Live? && Preempts(s.player, e)
    ensures var p, q := s.player, Next(s, Request(e)).player;
            && PhaseOf(q).Closing? && q.final == Wanted(p, e).value && q.slots == p.slots
            && q.paused == p.current && q.cigs == p.cigs
            && SameUserConfig(q.stream, RequestedConfig(p, e)) && SameUserConfig(q.pausedStream, p.stream)
  {
    StartWhileLiveForm(s, e);
    MovedOnForm(s.player, AudioModeRuns.StartedMode(e), Some(AudioModeRuns.StartedConfig(e)));
  }

  /** A pre-emption arrives in the new mode, or rings, and keeps the old mode behind it. */
  lemma PreemptionArrives(s: Sys, e: Event, steps: seq<Step>, t: Sys)
    requires After(s, e, steps, t) && PhaseOf(s.player).Live? && Preempts(s.player, e) && !Mixed(s)
    ensures Inv(t) && t.inband == s.inband
    ensures t.player.paused == s.player.current && SameUserConfig(t.player.pausedStream, s.player.stream)
    ensures var (mode, cfg) := (Wanted(s.player, e).value, RequestedConfig(s.player, e));
            if OnlyRings(s, mode) then RingsFor(t, cfg) && t.player.cigs == s.player.cigs
            else StreamsIn(t, mode, cfg) && PhaseOf(t.player).Live? && t.player.cigs == s.player.cigs + 1
  {
    var q := Next(s, Request(e));
    RequestKeepsInv(s, e);
    PreemptionRequested(s, e);
    SameListSameMix(s, q);
    ComesToRest(q, steps, t);
    DeliveriesKeep(q, steps, t);
  }

  /** What a pre-emption has come to, as the request that ends it finds it. */
  lemma PreemptedMeanwhile(s: Sys, e: Event, steps: seq<Step>, mid: Sys)
    requires After(s, e, steps, mid) && PhaseOf(s.player).Live? && Preempts(s.player, e) && !Mixed(s)
    ensures mid.inband == s.inband && mid.player.paused == s.player.current && !mid.player.paused.NoMode?
    ensures SameUserConfig(mid.player.pausedStream, s.player.stream)
    ensures if OnlyRings(s, Wanted(s.player, e).value) then RingsSilently(mid.player) && mid.player.cigs == s.player.cigs
            else PhaseOf(mid.player).Live? && mid.player.cigs == s.player.cigs + 1
    ensures OnlyRings(s, s.player.current) ==> RingsSilently(mid.player)
  {
    PreemptionArrives(s, e, steps, mid);
  }

  /** Pre-empt, then end what pre-empted: the player is back in the original mode with the user's
      configuration unchanged and nothing paused any more, each stream having had one group. Only
      a call that cannot ring in-band, put behind another one, is lost. */
  lemma PreemptionRoundTrip(s: Sys, e: Event, steps: seq<Step>, mid: Sys, stop: Event, steps': seq<Step>, t: Sys)
    requires After(s, e, steps, mid) && PhaseOf(s.player).Live? && Preempts(s.player, e) && !Mixed(s)
    requires After(mid, stop, steps', t) && Ends(mid.player, stop) && !Mixed(mid)
    ensures if OnlyRings(s, s.player.current) then Stuck(t.player)
            else
              && StreamsIn(t, s.player.current, s.player.stream) && t.player.paused.NoMode?
              && t.player.cigs == s.player.cigs + if OnlyRings(s, Wanted(s.player, e).value) then 1 else 2
  {
    PreemptedMeanwhile(s, e, steps, mid);
    EndReturns(mid, stop, steps', t);
  }

  /** Rest is always within reach, so none of the theorems above is about nothing. */
  lemma {:induction false} RestIsReached(s: Sys) returns (steps: seq<Step>, t: Sys)
    requires Inv(s)
    ensures Deliveries(steps) && Run(s, steps, t) && Resting(t)
    decreases Distance(s)
  {
    if Resting(s) {
      steps, t := [], s;
    } else {
      var step :| IsDelivery(step) && Enabled(s, step);
      DeliveryKeepsInv(s, step);
      DeliveryDecreases(s, step);
      var rest;
      rest, t := RestIsReached(Next(s, step));
      steps := [step] + rest;
      assert steps[1..] == rest;
    }
  }
}
