/** Where set-up and release lead: the mode, the user's configuration and the number of
    isochronous groups are settled by the request, whatever the order of deliveries. */
module OrchestrationOutcome {
  import opened Wrappers
  import opened QosNegotiation
  import opened AseControl
  import opened AudioMode
  import opened Orchestration
  import opened OrchestrationRuns

  /** What the player is on its way to: the mode and the user's part of its configuration, and
      the mode kept behind it with its configuration. A call without an in-band ringtone only
      rings there, until it is answered. */
  datatype Destination = Destination(
    mode: Mode, sink: AudioCore, source: AudioCore,
    behind: Mode, behindSink: AudioCore, behindSource: AudioCore, rings: bool)

  /** A release with nothing to follow goes back to the paused mode. */
  predicate Returns(p: State) {
    PhaseOf(p).Closing? && p.final.NoMode? && !p.paused.NoMode?
  }

  predicate WillRing(p: State, inband: bool) {
    RingsSilently(p) || (PhaseOf(p).Closing? && !p.paused.NoMode? && ModeAfterRelease(p).CallMode? && !inband)
  }

  function DestinationOf(p: State, inband: bool): Destination {
    var (bsink, bsource) := (p.pausedStream.sink.core, p.pausedStream.source.core);
    if Returns(p) then Destination(p.paused, bsink, bsource, NoMode, bsink, bsource, WillRing(p, inband))
    else Destination(p.final, p.stream.sink.core, p.stream.source.core, p.paused, bsink, bsource, WillRing(p, inband))
  }

  /** Groups still to be created before the destination is reached. */
  function GroupsOwed(p: State, inband: bool): nat {
    match PhaseOf(p)
    case Setup => 1
    case Closing => if DestinationOf(p, inband).mode.NoMode? || WillRing(p, inband) then 0 else 1
    case _ => 0
  }

  /** Destination and groups are accounted for. */
  predicate SameJourney(p: State, t: State, inband: bool) {
    && DestinationOf(t, inband) == DestinationOf(p, inband)
    && t.cigs + GroupsOwed(t, inband) == p.cigs + GroupsOwed(p, inband)
  }

  lemma MovesAreSameJourney(p: State, t: State, inband: bool)
    requires t == p.(ases := t.ases, stream := t.stream) && SameUserConfig(t.stream, p.stream)
    ensures SameJourney(p, t, inband)
  {
    SamePhase(p, t);
  }

  lemma AnswerKeepsUser(p: State, i: nat, state: AseState, report: Report)
    requires i < |p.ases|
    ensures SameUserConfig(Answered(p, i, state, report).stream, p.stream)
  {
  }

  lemma ResumedKeepsUser(p: State, mode: Mode, cfg: StreamConfig, ch: Choice)
    requires ValidPicks(p, ch.picks) && IsUserMode(mode)
    ensures SameUserConfig(Resumed(p, mode, cfg, ch).1, cfg)
  {
    PreparedKeeps(p.ases, cfg.(context := AudioModeRuns.ContextFor(mode, ch)), ch.picks);
  }

  lemma SetupReportIsSameJourney(s: Sys, i: nat, report: Report, ch: Choice)
    requires Inv(s) && PhaseOf(s.player).Setup? && Enabled(s, DeliverReport(i, report, ch))
    ensures SameJourney(s.player, Next(s, DeliverReport(i, report, ch)).player, s.inband)
  {
    var p, r := s.player, s.servers[i];
    assert AseOk(p, i, r) && Listed(p, i);
    AnswerInSetup(p, i, r, report);
    AnswerKeepsUser(p, i, r.notifs[0], report);
    if AllListedIn(Answered(p, i, r.notifs[0], report), Enabling) {
      LastReportInSetup(s, i, report, ch);
    } else {
      EarlyReportInSetup(s, i, report, ch);
      MovesAreSameJourney(p, Answered(p, i, r.notifs[0], report), s.inband);
    }
  }

  lemma SettledReportIsSameJourney(s: Sys, i: nat, report: Report, ch: Choice)
    requires Inv(s) && (PhaseOf(s.player).Live? || PhaseOf(s.player).Stray?) && Enabled(s, DeliverReport(i, report, ch))
    ensures SameJourney(s.player, Next(s, DeliverReport(i, report, ch)).player, s.inband)
    ensures var t := Next(s, DeliverReport(i, report, ch)).player;
            t == s.player.(ases := t.ases, stream := t.stream)
  {
    var p, r := s.player, s.servers[i];
    assert AseOk(p, i, r) && Listed(p, i);
    AnswerKeepsUser(p, i, r.notifs[0], report);
    if PhaseOf(p).Live? {
      ReportWhileLive(s, i, report, ch);
      AnswerWhileLive(p, i, r, report);
    } else {
      ReportWhileStray(s, i, report, ch);
      AnswerInSetup(p, i, r, report);
    }
    MovesAreSameJourney(p, Answered(p, i, r.notifs[0], report), s.inband);
  }

  lemma LastClosingReport(s: Sys, i: nat, report: Report, ch: Choice)
    requires Inv(s) && PhaseOf(s.player).Closing? && Enabled(s, DeliverReport(i, report, ch))
    requires IsReleaseTarget(s.servers[i].notifs[0])
    requires AllListedIn(Answered(s.player, i, s.servers[i].notifs[0], report), s.servers[i].notifs[0])
    ensures var p, t := s.player, Next(s, DeliverReport(i, report, ch)).player;
            && SameJourney(p, t, s.inband)
            && !PhaseOf(t).Closing? && !PhaseOf(t).Stray? && !PhaseOf(t).Live? && (PhaseOf(t).Waiting? ==> RingsSilently(t))
  {
    var p, r := s.player, s.servers[i];
    assert AseOk(p, i, r) && Listed(p, i);
    AnswerInClosing(p, i, r, report);
    var w := Answered(p, i, r.notifs[0], report);
    SamePhase(p, w);
    MovesAreSameJourney(p, w, s.inband);
    LastReportWhileClosing(s, i, report, ch);
    ClosedPlayerReturns(w, s.inband, ch);
  }

  lemma ClosingReportKeepsDestination(s: Sys, i: nat, report: Report, ch: Choice)
    requires Inv(s) && PhaseOf(s.player).Closing? && Enabled(s, DeliverReport(i, report, ch))
    ensures var p, t := s.player, Next(s, DeliverReport(i, report, ch)).player;
            && SameJourney(p, t, s.inband)
            && (PhaseOf(t).Closing? ==> t.slots == p.slots)
            && !PhaseOf(t).Stray? && !PhaseOf(t).Live? && (PhaseOf(t).Waiting? ==> RingsSilently(t))
  {
    var p, r := s.player, s.servers[i];
    if IsReleaseTarget(r.notifs[0]) && AllListedIn(Answered(p, i, r.notifs[0], report), r.notifs[0]) {
      LastClosingReport(s, i, report, ch);
    } else {
      assert AseOk(p, i, r) && Listed(p, i);
      AnswerInClosing(p, i, r, report);
      EarlyReportWhileClosing(s, i, report, ch);
      SamePhase(p, Answered(p, i, r.notifs[0], report));
      MovesAreSameJourney(p, Answered(p, i, r.notifs[0], report), s.inband);
    }
  }

  /** The last report of a release. */
  lemma ClosedPlayerReturns(p: State, inband: bool, ch: Choice)
    requires PhaseOf(p).Closing? && ValidPicks(p, ch.picks)
    requires p.paused.NoMode? || IsUserMode(p.paused)
    requires p.final.NoMode? || (IsUserMode(p.final) && !p.paused.NoMode?)
    requires var t := ReleaseCompleted(p, ch);
             PhaseOf(t) == PhaseAfterRelease(p, inband) && (PhaseOf(t).Waiting? ==> RingsSilently(t))
    ensures SameJourney(p, ReleaseCompleted(p, ch), inband)
  {
    var c := p.(slots := Cleared(p.slots), releasing := false);
    ReleaseStops(p, ch);
    if !p.paused.NoMode? {
      ResumedKeepsUser(c, ModeAfterRelease(p), ConfigAfterRelease(p), ch);
      GoneOnForm(p, ch);
    }
  }

  /** No delivery changes the destination, and groups created and groups owed add up. */
  lemma DeliveryKeepsDestination(s: Sys, step: Step)
    requires Inv(s) && Enabled(s, step) && IsDelivery(step)
    ensures var p, t := s.player, Next(s, step).player;
            && DestinationOf(t, s.inband) == DestinationOf(p, s.inband)
            && t.cigs + GroupsOwed(t, s.inband) == p.cigs + GroupsOwed(p, s.inband)
  {
    if step.DeliverReport? {
      NoReportAtRest(s, step.i);
      match PhaseOf(s.player) {
        case Setup => SetupReportIsSameJourney(s, step.i, step.report, step.ch);
        case Closing => ClosingReportKeepsDestination(s, step.i, step.report, step.ch);
        case Live => SettledReportIsSameJourney(s, step.i, step.report, step.ch);
        case Stray => SettledReportIsSameJourney(s, step.i, step.report, step.ch);
      }
    } else {
      MovesAreSameJourney(s.player, Next(s, step).player, s.inband);
    }
  }

  lemma GroupInSetup(s: Sys, i: nat, report: Report, ch: Choice)
    requires Inv(s) && PhaseOf(s.player).Setup? && Enabled(s, DeliverReport(i, report, ch))
    ensures var t := Next(s, DeliverReport(i, report, ch));
            if PhaseOf(t.player).Live? then
              && t.player.cigs == s.player.cigs + 1 && !t.player.releasing
              && AllListedIn(t.player, Enabling)
              && (forall j :: 0 <= j < |t.servers| && Listed(t.player, j) ==> t.servers[j].state.Enabling?)
            else t.player.cigs == s.player.cigs
  {
    var p, r := s.player, s.servers[i];
    assert AseOk(p, i, r) && Listed(p, i);
    AnswerInSetup(p, i, r, report);
    var w := Answered(p, i, r.notifs[0], report);
    var t := Next(s, DeliverReport(i, report, ch));
    if AllListedIn(w, Enabling) {
      LastReportInSetup(s, i, report, ch);
      SameViewsSameAnswer(w, t.player, Enabling);
      forall j | 0 <= j < |t.servers| && Listed(t.player, j)
        ensures t.servers[j].state.Enabling?
      {
        ListedInMeansEach(t.player, Enabling, j);
        assert AseOk(t.player, j, t.servers[j]);
        assert AseOk(p, j, s.servers[j]);
      }
    } else {
      EarlyReportInSetup(s, i, report, ch);
    }
  }

  /** A group is created exactly by the report that ends a set-up: then every listed endpoint
      is Enabling, on both sides, and nothing is being released. */
  lemma GroupIsCreatedWhenAllAreEnabling(s: Sys, step: Step)
    requires Inv(s) && Enabled(s, step) && IsDelivery(step)
    ensures var t := Next(s, step);
            && (t.player.cigs > s.player.cigs <==> PhaseOf(s.player).Setup? && PhaseOf(t.player).Live?)
            && (t.player.cigs > s.player.cigs ==>
                  && t.player.cigs == s.player.cigs + 1
                  && !s.player.releasing && !t.player.releasing
                  && AllListedIn(t.player, Enabling)
                  && forall i :: 0 <= i < |t.servers| && Listed(t.player, i) ==> t.servers[i].state.Enabling?)
  {
    if step.DeliverReport? {
      NoReportAtRest(s, step.i);
      match PhaseOf(s.player) {
        case Setup =>
          GroupInSetup(s, step.i, step.report, step.ch);
          DeliveryKeepsInv(s, step);
        case Closing => ClosingReportKeepsGroups(s, step.i, step.report, step.ch);
        case Live => SettledReportIsSameJourney(s, step.i, step.report, step.ch);
        case Stray => SettledReportIsSameJourney(s, step.i, step.report, step.ch);
      }
    }
  }

  lemma ClosingReportKeepsGroups(s: Sys, i: nat, report: Report, ch: Choice)
    requires Inv(s) && PhaseOf(s.player).Closing? && Enabled(s, DeliverReport(i, report, ch))
    ensures Next(s, DeliverReport(i, report, ch)).player.cigs == s.player.cigs
  {
    var p, r := s.player, s.servers[i];
    assert AseOk(p, i, r) && Listed(p, i);
    AnswerInClosing(p, i, r, report);
    var w := Answered(p, i, r.notifs[0], report);
    if IsReleaseTarget(r.notifs[0]) && AllListedIn(w, r.notifs[0]) {
      LastReportWhileClosing(s, i, report, ch);
      ReleaseStops(w, ch);
    } else {
      EarlyReportWhileClosing(s, i, report, ch);
    }
  }

  // ---- Coming to rest ----

  /** Nothing is in flight and the environment has nothing left to do. */
  ghost predicate Resting(s: Sys) {
    forall step :: IsDelivery(step) ==> !Enabled(s, step)
  }

  /** Two listed endpoints end a release in different states. */
  predicate Mixed(s: Sys) {
    exists i, j :: 0 <= i < j < |s.servers| && Listed(s.player, i) && Listed(s.player, j) &&
      s.servers[i].caches != s.servers[j].caches
  }

  /** There is a way on: the release in progress, if any, can be completed, nothing is set up in
      no mode, and a player that waits waits for an answer. */
  predicate CanFinish(s: Sys) {
    && (PhaseOf(s.player).Closing? ==> !Mixed(s))
    && !PhaseOf(s.player).Stray?
    && (PhaseOf(s.player).Waiting? ==> RingsSilently(s.player))
  }

  /** Stuck in a release, in a set-up that belongs to no mode, or on the way to a mode that
      nothing leads to. */
  predicate Stuck(p: State) {
    PhaseOf(p).Closing? || PhaseOf(p).Stray? || (PhaseOf(p).Waiting? && !RingsSilently(p))
  }

  /** At rest nothing is in flight for a listed endpoint. */
  lemma RestingAse(s: Sys, i: nat)
    requires Inv(s) && Resting(s) && i < |s.servers| && Listed(s.player, i)
    ensures s.player.ases[i].outbox == [] && s.servers[i].notifs == []
    ensures !s.servers[i].state.Releasing?
    ensures s.cigUp ==> !s.servers[i].state.Enabling?
  {
    var none := Report(0, 0, 0, 0, 0, 0, 0);
    var k :| 0 <= k < |s.player.slots| && s.player.slots[k] == Some(i);
    var steps := [DeliverOperation(i), DeliverReport(i, none, Choice([i], Game, s.inband)), Establish(i), FinishRelease(i)];
    assert GoodChoice(s.player, Choice([i], Game, s.inband));
    assert !Enabled(s, steps[0]) && !Enabled(s, steps[1]) && !Enabled(s, steps[2]) && !Enabled(s, steps[3]);
  }

  lemma AllListedBy(p: State, state: AseState)
    requires Valid(p)
    requires forall i :: 0 <= i < |p.ases| && Listed(p, i) ==> p.ases[i].view == state
    ensures AllListedIn(p, state)
  {
    forall k | 0 <= k < |p.slots| && p.slots[k].Some? && p.slots[k].value < |p.ases|
      ensures p.ases[p.slots[k].value].view == state
    {
      assert Listed(p, p.slots[k].value);
    }
  }

  lemma NoRestInSetup(s: Sys)
    requires Inv(s) && Resting(s)
    ensures !PhaseOf(s.player).Setup?
  {
    if PhaseOf(s.player).Setup? {
      forall i | 0 <= i < |s.player.ases| && Listed(s.player, i)
        ensures s.player.ases[i].view.Enabling?
      {
        RestingAse(s, i);
        assert AseOk(s.player, i, s.servers[i]);
      }
      AllListedBy(s.player, Enabling);
    }
  }

  lemma RestInClosingIsMixed(s: Sys)
    requires Inv(s) && Resting(s) && PhaseOf(s.player).Closing?
    ensures Mixed(s)
  {
    var k :| 0 <= k < |s.player.slots| && s.player.slots[k].Some?;
    var first := s.player.slots[k].value;
    if !Mixed(s) {
      forall i | 0 <= i < |s.player.ases| && Listed(s.player, i)
        ensures s.player.ases[i].view == Target(s.servers[first])
      {
        RestingAse(s, i);
        assert AseOk(s.player, i, s.servers[i]);
      }
      AllListedBy(s.player, Target(s.servers[first]));
    }
  }

  lemma LiveRestIsQuiet(s: Sys)
    requires Inv(s) && Resting(s) && PhaseOf(s.player).Live?
    ensures Quiet(s.player)
  {
    forall i | 0 <= i < |s.player.ases| && Listed(s.player, i)
      ensures s.player.ases[i].view.Streaming?
    {
      RestingAse(s, i);
      assert AseOk(s.player, i, s.servers[i]);
    }
    AllListedBy(s.player, Streaming);
  }

  /** Whether there is a way on is decided when a journey begins. */
  lemma DeliveryKeepsFinish(s: Sys, step: Step)
    requires Inv(s) && Enabled(s, step) && IsDelivery(step)
    ensures CanFinish(Next(s, step)) == CanFinish(s)
    ensures !CanFinish(s) ==> PhaseOf(Next(s, step).player) == PhaseOf(s.player)
  {
    var t := Next(s, step);
    if step.DeliverReport? {
      NoReportAtRest(s, step.i);
      match PhaseOf(s.player) {
        case Closing => ClosingReportKeepsFinish(s, step.i, step.report, step.ch);
        case Setup => SetupKeepsFinish(s, step.i, step.report, step.ch);
        case Live =>
          SettledReportIsSameJourney(s, step.i, step.report, step.ch);
          SamePhase(s.player, t.player);
        case Stray =>
          SettledReportIsSameJourney(s, step.i, step.report, step.ch);
          SamePhase(s.player, t.player);
      }
    } else {
      SamePhase(s.player, t.player);
      SameListSameMix(s, t);
    }
  }

  lemma SetupKeepsFinish(s: Sys, i: nat, report: Report, ch: Choice)
    requires Inv(s) && PhaseOf(s.player).Setup? && Enabled(s, DeliverReport(i, report, ch))
    ensures CanFinish(s) && CanFinish(Next(s, DeliverReport(i, report, ch)))
  {
    var p, r := s.player, s.servers[i];
    if AllListedIn(Answered(p, i, r.notifs[0], report), Enabling) {
      LastReportInSetup(s, i, report, ch);
    } else {
      assert AseOk(p, i, r) && Listed(p, i);
      AnswerInSetup(p, i, r, report);
      EarlyReportInSetup(s, i, report, ch);
      SamePhase(p, Answered(p, i, r.notifs[0], report));
    }
  }

  lemma ClosingReportKeepsFinish(s: Sys, i: nat, report: Report, ch: Choice)
    requires Inv(s) && PhaseOf(s.player).Closing? && Enabled(s, DeliverReport(i, report, ch))
    ensures CanFinish(Next(s, DeliverReport(i, report, ch))) == CanFinish(s)
    ensures !CanFinish(s) ==> PhaseOf(Next(s, DeliverReport(i, report, ch)).player).Closing?
  {
    var t := Next(s, DeliverReport(i, report, ch));
    ClosingReportKeepsDestination(s, i, report, ch);
    if PhaseOf(t.player).Closing? {
      SameListSameMix(s, t);
    } else {
      FinishedIsNotMixed(s, i, report, ch);
    }
  }

  lemma SameListSameMix(s: Sys, t: Sys)
    requires |s.servers| == |t.servers| && t.player.slots == s.player.slots
    requires forall i :: 0 <= i < |s.servers| ==> t.servers[i].caches == s.servers[i].caches
    ensures Mixed(t) == Mixed(s)
  {
    if Mixed(s) {
      var i, j :| 0 <= i < j < |s.servers| && Listed(s.player, i) && Listed(s.player, j) &&
        s.servers[i].caches != s.servers[j].caches;
      assert Listed(t.player, i) && Listed(t.player, j);
    }
    if Mixed(t) {
      var i, j :| 0 <= i < j < |t.servers| && Listed(t.player, i) && Listed(t.player, j) &&
        t.servers[i].caches != t.servers[j].caches;
      assert Listed(s.player, i) && Listed(s.player, j);
    }
  }

  lemma FinishedIsNotMixed(s: Sys, i: nat, report: Report, ch: Choice)
    requires Inv(s) && PhaseOf(s.player).Closing? && Enabled(s, DeliverReport(i, report, ch))
    requires !PhaseOf(Next(s, DeliverReport(i, report, ch)).player).Closing?
    ensures !Mixed(s)
  {
    var p, r := s.player, s.servers[i];
    assert AseOk(p, i, r) && Listed(p, i);
    var state := r.notifs[0];
    var w := Answered(p, i, state, report);
    AnswerInClosing(p, i, r, report);
    if IsReleaseTarget(state) && AllListedIn(w, state) {
      forall j | 0 <= j < |s.servers| && Listed(p, j)
        ensures s.servers[j].caches == state.CodecConfigured?
      {
        ListedInMeansEach(w, state, j);
        assert AseOk(p, j, s.servers[j]);
      }
    } else {
      EarlyReportWhileClosing(s, i, report, ch);
      SamePhase(p, w);
    }
  }

  /** What holds of every run of deliveries. */
  lemma {:induction false} DeliveriesKeep(s: Sys, steps: seq<Step>, t: Sys)
    requires Inv(s) && Run(s, steps, t) && Deliveries(steps)
    ensures Inv(t)
    ensures t.inband == s.inband && DestinationOf(t.player, s.inband) == DestinationOf(s.player, s.inband)
    ensures t.player.cigs + GroupsOwed(t.player, s.inband) == s.player.cigs + GroupsOwed(s.player, s.inband)
    ensures CanFinish(t) == CanFinish(s)
    ensures !CanFinish(s) ==> PhaseOf(t.player) == PhaseOf(s.player)
    decreases |steps|
  {
    if steps != [] {
      DeliveryKeepsInv(s, steps[0]);
      DeliveryKeepsDestination(s, steps[0]);
      DeliveryKeepsFinish(s, steps[0]);
      DeliveriesKeep(Next(s, steps[0]), steps[1..], t);
    }
  }

  /** The player has reached `d` and nothing is left over of the way there. */
  ghost predicate Arrived(t: Sys, d: Destination) {
    && Inv(t)
    && t.player.final == d.mode
    && t.player.stream.sink.core == d.sink && t.player.stream.source.core == d.source
    && t.player.paused == d.behind
    && t.player.pausedStream.sink.core == d.behindSink && t.player.pausedStream.source.core == d.behindSource
    && !t.player.releasing
    && (t.cigUp <==> SomeListed(t.player))
    && (SomeListed(t.player) <==> !d.mode.NoMode? && !d.rings)
    && if d.rings then RingsSilently(t.player) else Quiet(t.player) && t.player.current == d.mode
  }

  /** Left alone, the system comes to rest; it has then arrived exactly when there was a way on
      from where it started. Otherwise it is stuck there. */
  lemma ComesToRest(s: Sys, steps: seq<Step>, t: Sys)
    requires Inv(s) && Run(s, steps, t) && Deliveries(steps) && Resting(t)
    ensures |steps| <= Distance(s)
    ensures CanFinish(s) ==>
              && Arrived(t, DestinationOf(s.player, s.inband))
              && t.player.cigs == s.player.cigs + GroupsOwed(s.player, s.inband)
    ensures !CanFinish(s) ==> Stuck(t.player) && PhaseOf(t.player) == PhaseOf(s.player)
  {
    DeliveriesAreBounded(s, steps, t);
    DeliveriesKeep(s, steps, t);
    NoRestInSetup(t);
    if PhaseOf(t.player).Closing? { RestInClosingIsMixed(t); }
    if PhaseOf(t.player).Live? { LiveRestIsQuiet(t); }
  }

  // ---- On the way up ----

  predicate GoesUp(p: State) {
    PhaseOf(p).Setup? || PhaseOf(p).Live?
  }

  lemma DeliveryGoesUp(s: Sys, step: Step)
    requires Inv(s) && Enabled(s, step) && IsDelivery(step) && GoesUp(s.player)
    ensures var p, t := s.player, Next(s, step).player;
            && GoesUp(t) && t.ringing == p.ringing && t.slots == p.slots
            && (PhaseOf(p).Live? ==> PhaseOf(t).Live?)
  {
    if step.DeliverReport? {
      if PhaseOf(s.player).Live? {
        SettledReportIsSameJourney(s, step.i, step.report, step.ch);
        SamePhase(s.player, Next(s, step).player);
      } else {
        SetupReportGoesUp(s, step.i, step.report, step.ch);
      }
    } else {
      SamePhase(s.player, Next(s, step).player);
    }
  }

  lemma SetupReportGoesUp(s: Sys, i: nat, report: Report, ch: Choice)
    requires Inv(s) && PhaseOf(s.player).Setup? && Enabled(s, DeliverReport(i, report, ch))
    ensures var t := Next(s, DeliverReport(i, report, ch)).player;
            GoesUp(t) && t.ringing == s.player.ringing && t.slots == s.player.slots
  {
    var p, r := s.player, s.servers[i];
    assert AseOk(p, i, r) && Listed(p, i);
    AnswerInSetup(p, i, r, report);
    if AllListedIn(Answered(p, i, r.notifs[0], report), Enabling) {
      LastReportInSetup(s, i, report, ch);
    } else {
      EarlyReportInSetup(s, i, report, ch);
      SamePhase(p, Answered(p, i, r.notifs[0], report));
    }
  }

  lemma {:induction false} DeliveriesGoUp(s: Sys, steps: seq<Step>, t: Sys)
    requires Inv(s) && Run(s, steps, t) && Deliveries(steps) && GoesUp(s.player)
    ensures GoesUp(t.player) && t.player.ringing == s.player.ringing && t.player.slots == s.player.slots
    decreases |steps|
  {
    if steps != [] {
      DeliveryKeepsInv(s, steps[0]);
      DeliveryGoesUp(s, steps[0]);
      DeliveriesGoUp(Next(s, steps[0]), steps[1..], t);
    }
  }
}
