/** Does a paused mode ever rank above the mode that follows it? Exactly when, for any requests
    and any endpoint reports, true or not. */
module AudioModeRanks {
  import opened Wrappers
  import opened QosNegotiation
  import opened AseControl
  import opened AudioMode
  import opened AudioModeRuns

  /** What is paused ranks no higher than what the player is in or on its way to. */
  predicate Ranked(s: State) {
    s.paused.NoMode? || s.final.NoMode? || Level(s.paused) <= Level(s.final)
  }

  /** The mode that an event starts from rest. */
  function StartedFromRest(s: State, e: Event): Mode {
    match e
    case Play(_, _) => MediaMode
    case RemotePlay(_) => if s.media.Inactive? then NoMode else MediaMode
    case StartMic(_, _) => MicMode
    case StartBidir(_, _) => BidirMicMode
    case IncomingCall(_, _) => CallMode
    case StartBroadcast => Broadcast
    case _ => NoMode
  }

  /** In no mode with one paused, a lower one is started: nothing compares the two. */
  predicate StartsBelow(s: State, e: Event) {
    && s.current.NoMode? && !s.paused.NoMode? && !StartedFromRest(s, e).NoMode?
    && Level(StartedFromRest(s, e)) < Level(s.paused)
  }

  lemma ReleaseKeepsRanked(s: State, ch: Choice)
    requires Shape(s) && Ranked(s) && s.current.InTransit? && ValidPicks(s, ch.picks)
    ensures Ranked(ReleaseCompleted(s, ch))
  {
    var c := s.(slots := Cleared(s.slots), releasing := false);
    if s.paused.NoMode? {
    } else if !s.final.NoMode? {
      ResumedKeepsModes(c, c.final, c.stream, ch);
    } else {
      ResumedPausedModes(c, ch);
    }
  }

  lemma ReportKeepsRanked(s: State, i: nat, state: AseState, report: Report, ch: Choice)
    requires Shape(s) && Ranked(s) && i < |s.ases| && ValidPicks(s, ch.picks)
    ensures Ranked(AfterReport(s, i, state, report, ch))
  {
    var w := Answered(s, i, state, report);
    AnsweredKeepsModes(s, i, state, report);
    if w.current.InTransit? { ReleaseKeepsRanked(w, ch); }
  }

  lemma StartRequestRanks(s: State, mode: Mode, cfg: StreamConfig, ch: Choice)
    requires Shape(s) && Ranked(s) && Valid(s) && ValidPicks(s, ch.picks)
    requires mode.MicMode? || mode.BidirMicMode? || mode.CallMode?
    ensures Ranked(StartRequested(s, mode, cfg, ch))
            <==> !(s.current.NoMode? && !s.paused.NoMode? && Level(mode) < Level(s.paused))
  {
    if s.current.NoMode? {
      ResumedKeepsModes(s, mode, cfg, ch);
    } else {
      StoppedForModes(s, mode);
    }
  }

  lemma StartRanks(s: State, e: Event)
    requires Shape(s) && Ranked(s) && Handles(s, e) && IsStart(e)
    ensures Ranked(Handled(s, e)) <==> !StartsBelow(s, e)
  {
    match e
    case StartMic(cfg, ch) => StartRequestRanks(s, MicMode, cfg, ch);
    case StartBidir(cfg, ch) => StartRequestRanks(s, BidirMicMode, cfg.(context := Game), ch);
    case IncomingCall(cfg, ch) => StartRequestRanks(s, CallMode, cfg, ch);
  }

  lemma PlayRanks(s: State, e: Event)
    requires Shape(s) && Ranked(s) && Handles(s, e) && IsPlay(e)
    ensures Ranked(Handled(s, e)) <==> !StartsBelow(s, e)
  {
    if e.Play? {
      ResumedKeepsModes(s, MediaMode, e.cfg, e.ch);
    } else {
      ResumedKeepsModes(s, MediaMode, s.pausedStream, e.ch);
    }
  }

  lemma CallEndKeepsRanked(s: State, ch: Choice)
    requires Shape(s) && Ranked(s) && Valid(s) && ValidPicks(s, ch.picks)
    ensures Ranked(CallEnded(s, ch))
  {
    var r := NextMode(Stopped(s), NoMode, None);
    if r.ringing && !ch.inband {
      ResumedPausedModes(r.(current := NoMode), ch);
    }
  }

  lemma BroadcastRanks(s: State, e: Event)
    requires Shape(s) && Ranked(s) && Handles(s, e) && (e.StartBroadcast? || e.StopBroadcast?)
    ensures Ranked(Handled(s, e)) <==> !StartsBelow(s, e)
  {
  }

  lemma PauseKeepsRanked(s: State, e: Event)
    requires Shape(s) && Ranked(s) && Handles(s, e) && (IsPause(e) || e.StopMic? || e.StopBidir?)
    ensures Ranked(Handled(s, e))
  {
  }

  lemma OtherKeepsRanked(s: State, e: Event)
    requires Shape(s) && Ranked(s) && Handles(s, e) && (IsOther(e) || e.Disconnect? || e.ErrorResponse?)
    ensures Ranked(Handled(s, e))
  {
  }

  /** The exact condition, for every event in every state: a paused mode comes to rank above what
      follows it only by a start from no mode. */
  lemma EventRanksIff(s: State, e: Event)
    requires Shape(s) && Ranked(s) && Handles(s, e)
    ensures Ranked(Handled(s, e)) <==> !StartsBelow(s, e)
  {
    if IsStart(e) {
      StartRanks(s, e);
    } else if IsPlay(e) {
      PlayRanks(s, e);
    } else if IsPause(e) || e.StopMic? || e.StopBidir? {
      PauseKeepsRanked(s, e);
    } else if IsOther(e) || e.Disconnect? || e.ErrorResponse? {
      OtherKeepsRanked(s, e);
    } else {
      match e
      case StartBroadcast => BroadcastRanks(s, e);
      case StopBroadcast => BroadcastRanks(s, e);
      case EndCall(ch) => CallEndKeepsRanked(s, ch);
      case RemoteEndCall(ch) => CallEndKeepsRanked(s, ch);
      case Reported(i, state, report, ch) => ReportKeepsRanked(s, i, state, report, ch);
    }
  }

  /** Every state of the run is ranked. */
  ghost predicate RankedAlong(s: State, events: seq<Event>)
    decreases |events|
  {
    Ranked(s) && (events == [] || (Handles(s, events[0]) && RankedAlong(Handled(s, events[0]), events[1..])))
  }

  ghost predicate NeverStartsBelow(s: State, events: seq<Event>)
    decreases |events|
  {
    events == [] ||
    (Handles(s, events[0]) && !StartsBelow(s, events[0]) && NeverStartsBelow(Handled(s, events[0]), events[1..]))
  }

  /** On whole runs: every state is ranked if and only if no event starts below. */
  lemma {:induction false} RunRanksIff(s: State, events: seq<Event>, t: State)
    requires Shape(s) && Ranked(s) && Run(s, events, t)
    ensures RankedAlong(s, events) <==> NeverStartsBelow(s, events)
    decreases |events|
  {
    if events != [] {
      var n := Handled(s, events[0]);
      EventKeepsShape(s, events[0]);
      EventRanksIff(s, events[0]);
      if Ranked(n) { RunRanksIff(n, events[1..], t); }
    }
  }

  lemma Prepend(s: State, e: Event, events: seq<Event>, t: State)
    requires Handles(s, e) && Run(Handled(s, e), events, t)
    ensures Run(s, [e] + events, t)
  {
    assert ([e] + events)[1..] == events;
  }

  /** A broadcast that is still up is stopped in the middle of a pre-emption: the microphone is
      paused, the player in no mode. */
  lemma StoppedInTransit(s: State, cfg: StreamConfig, ch: Choice) returns (events: seq<Event>, t: State)
    requires Shape(s) && Valid(s) && ValidPicks(s, ch.picks) && s.current.MicMode? && s.bigUp
    ensures Run(s, events, t) && Valid(t) && t.current.NoMode? && t.paused.MicMode?
  {
    var m := Handled(s, StartBidir(cfg, ch));
    assert m.current.InTransit? && m.paused.MicMode? && m.bigUp;
    t := Handled(m, StopBroadcast);
    assert Run(t, [], t);
    Prepend(m, StopBroadcast, [], t);
    events := [StopBroadcast] + [];
    Prepend(s, StartBidir(cfg, ch), events, t);
    events := [StartBidir(cfg, ch)] + events;
  }

  const ANY_REPORT := Report(0, 0, 0, 0, 0, 0, 0)

  lemma MicOverBroadcast(s: State, cfg: StreamConfig) returns (events: seq<Event>, t: State)
    requires Shape(s) && Valid(s) && s.current.NoMode? && s.paused.NoMode? && s.bigUp && !s.releasing
    requires s.ases != [] && forall k :: 0 <= k < |s.slots| ==> s.slots[k].None?
    ensures Run(s, events, t) && Valid(t) && t.current.NoMode? && t.paused.MicMode?
  {
    var ch := Choice([], Game, false);
    var m := Handled(s, StartMic(cfg, ch));
    assert m.current.InTransit? && m.final.MicMode? && m.bigUp && m.slots == s.slots;
    EventKeepsShape(s, StartMic(cfg, ch));
    var e := Reported(0, Enabling, ANY_REPORT, ch);
    var n := Handled(m, e);
    EventKeepsShape(m, e);
    assert n.current.MicMode? && n.bigUp;
    events, t := StoppedInTransit(n, cfg, ch);
    Prepend(m, e, events, t);
    events := [e] + events;
    Prepend(s, StartMic(cfg, ch), events, t);
    events := [StartMic(cfg, ch)] + events;
  }

  lemma PausedInNoMode(cfg: StreamConfig, a: Ase) returns (s: State, events: seq<Event>, t: State)
    ensures Init(s) && Run(s, events, t) && Valid(t) && t.current.NoMode? && t.paused.MicMode?
  {
    s := State(NoMode, NoMode, NoMode, false, Inactive, false, false, NO_STREAM, NO_STREAM, [], [a], 0, 0);
    var s1 := Handled(s, StartBroadcast);
    var s2 := Handled(s1, SetGone);
    EventKeepsShape(s, StartBroadcast);
    EventKeepsShape(s1, SetGone);
    events, t := MicOverBroadcast(s2, cfg);
    Prepend(s1, SetGone, events, t);
    events := [SetGone] + events;
    Prepend(s, StartBroadcast, events, t);
    events := [StartBroadcast] + events;
  }

  /** Media started there leaves the higher mode paused behind it. */
  lemma OutrankedFromStart(cfg: StreamConfig, a: Ase) returns (s: State, events: seq<Event>, m: State, e: Event)
    ensures Init(s) && Run(s, events, m) && Handles(m, e) && StartsBelow(m, e) && !Ranked(Handled(m, e))
  {
    s, events, m := PausedInNoMode(cfg, a);
    e := Play(cfg, Choice([], Game, false));
    ModesOnEveryRun(s, events, m);
    EventRanksIff(m, e);
  }
}
