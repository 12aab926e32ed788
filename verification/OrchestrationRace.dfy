/** Why a settled mode is not enough to stop a stream. A mode settles when every endpoint is
    Enabling; the Streaming reports come later. A stop requested in between can be overtaken by
    them: the last one empties the endpoint list and settles the mode while the Release
    operations are still in flight and `releasing` is still set. */
module OrchestrationRace {
  import opened Wrappers
  import opened QosNegotiation
  import opened AseControl
  import opened AudioMode
  import opened Orchestration
  import opened OrchestrationRequests
  import opened OrchestrationRuns
  import opened OrchestrationOutcome
  import opened OrchestrationJourneys
  import opened OrchestrationCalls
  import AudioModeRuns

  /** `q` is `u` with a stop requested and none of the Release operations delivered. */
  ghost predicate Racing(u: Sys, q: Sys) {
    && Inv(u) && PhaseOf(u.player).Live? && NoneJoining(u) && u.cigUp && q.cigUp && q.inband == u.inband
    && q.servers == u.servers && |q.player.ases| == |u.player.ases| && q.player.slots == u.player.slots
    && q.player.current.InTransit? && q.player.releasing
    && AudioModeRuns.Shape(q.player)
    && forall i :: 0 <= i < |u.player.ases| ==>
         && q.player.ases[i].view == u.player.ases[i].view
         && (Listed(u.player, i) ==> q.player.ases[i].outbox == [Release])
  }

  /** The race is lost: the list is empty, and the mode settled unless a call rings, but the
      release goes on. */
  ghost predicate Lost(q: Sys, listed: nat) {
    && Valid(q.player) && |q.servers| == |q.player.ases| && listed < |q.servers|
    && (!q.player.ringing ==> !q.player.current.InTransit?)
    && q.player.releasing && !SomeListed(q.player)
    && AudioModeRuns.Shape(q.player)
    && q.player.ases[listed].outbox == [Release] && q.servers[listed].state.Streaming?
    && 0 < |q.player.slots|
  }

  /** What a stop or a pre-emption does to the player, whatever the endpoints are doing. */
  lemma StopForm(s: Sys, e: Event)
    requires Inv(s) && PhaseOf(s.player).Live? && Enabled(s, Request(e)) && (Ends(s.player, e) || Preempts(s.player, e))
    ensures var p, q := s.player, Next(s, Request(e)).player;
            && Next(s, Request(e)) == s.(player := q)
            && q.current.InTransit? && q.releasing && q.slots == p.slots && q.ases == Stopped(p).ases
            && AudioModeRuns.Shape(q) && !e.AcceptCall?
  {
    if Ends(s.player, e) {
      EndIsStop(s, e);
      MovedOnForm(s.player, NoMode, None);
      CallStoppedForm(s.player);
    } else {
      StartWhileLiveForm(s, e);
      MovedOnForm(s.player, AudioModeRuns.StartedMode(e), Some(AudioModeRuns.StartedConfig(e)));
    }
  }

  /** An early stop starts a race. */
  lemma StopStartsRace(s: Sys, e: Event)
    requires Inv(s) && PhaseOf(s.player).Live? && NoneJoining(s)
    requires Enabled(s, Request(e)) && (Ends(s.player, e) || Preempts(s.player, e))
    ensures Racing(s, Next(s, Request(e)))
  {
    StopForm(s, e);
    StoppedForm(s.player);
    forall i | 0 <= i < |s.player.ases| && Listed(s.player, i)
      ensures Stopped(s.player).ases[i].outbox == [Release]
    {
      assert AseOk(s.player, i, s.servers[i]);
      assert [] + [Release] == [Release];
    }
  }

  /** A step of the race: it is lost, or goes on with less to come. */
  ghost predicate RaceGoesOn(u: Sys, q: Sys, step: Step, i: nat) {
    && IsDelivery(step) && Enabled(u, step) && Enabled(q, step)
    && Next(q, step).player.ringing == q.player.ringing
    && if AllListedIn(Next(u, step).player, Streaming) then Lost(Next(q, step), i)
       else Racing(Next(u, step), Next(q, step))
  }

  /** Some listed endpoint has not reported Streaming yet; its next step is taken. */
  lemma RaceStep(u: Sys, q: Sys) returns (step: Step, i: nat)
    requires Racing(u, q) && !AllListedIn(u.player, Streaming)
    ensures RaceGoesOn(u, q, step, i) && Distance(Next(u, step)) < Distance(u)
  {
    var k :| 0 <= k < |u.player.slots| && u.player.slots[k].Some? && !u.player.ases[u.player.slots[k].value].view.Streaming?;
    i := u.player.slots[k].value;
    assert Listed(u.player, i) && IsLive(u.player.ases[i], u.servers[i]);
    if u.servers[i].state.Enabling? {
      step := EstablishInRace(u, q, i);
    } else {
      step := ReportInRace(u, q, i);
    }
    DeliveryDecreases(u, step);
  }

  lemma EstablishInRace(u: Sys, q: Sys, i: nat) returns (step: Step)
    requires Racing(u, q) && !AllListedIn(u.player, Streaming)
    requires i < |u.servers| && Listed(u.player, i) && u.servers[i].state.Enabling?
    ensures RaceGoesOn(u, q, step, i)
  {
    step := Establish(i);
    DeliveryKeepsInv(u, step);
    assert [] + [Streaming] == [Streaming];
    assert IsLive(u.player.ases[i], u.servers[i]);
  }

  lemma ReportInRace(u: Sys, q: Sys, i: nat) returns (step: Step)
    requires Racing(u, q) && i < |u.servers| && Listed(u.player, i)
    requires u.servers[i].notifs == [Streaming]
    ensures RaceGoesOn(u, q, step, i)
  {
    var ch := JustOne(i, u.inband);
    step := DeliverReport(i, ANY_REPORT, ch);
    assert GoodChoice(u.player, ch) && GoodChoice(q.player, ch);
    ReportWhileLive(u, i, ANY_REPORT, ch);
    StreamingReportInRace(u, q, i, ch);
  }

  /** The last Streaming report empties the list in the middle of the release. */
  lemma LastStreamingReport(q: State, i: nat, ch: Choice)
    requires i < |q.ases| && q.current.InTransit? && q.releasing && ValidPicks(q, ch.picks)
    requires AllListedIn(Answered(q, i, Streaming, ANY_REPORT), Streaming)
    ensures var w, t := Answered(q, i, Streaming, ANY_REPORT), AfterReport(q, i, Streaming, ANY_REPORT, ch);
            && t == w.(slots := Cleared(w.slots), current := t.current)
            && (!q.ringing ==> t.current == w.final) && !SomeListed(t)
  {
  }

  lemma AnsweredInRace(q: State, i: nat)
    requires i < |q.ases| && q.releasing
    ensures Answered(q, i, Streaming, ANY_REPORT) == q.(ases := q.ases[i := q.ases[i].(view := Streaming)])
  {
  }

  lemma StreamingReportInRace(u: Sys, q: Sys, i: nat, ch: Choice)
    requires Racing(u, q) && i < |u.servers| && Listed(u.player, i)
    requires u.servers[i].notifs == [Streaming]
    requires Enabled(u, DeliverReport(i, ANY_REPORT, ch)) && Enabled(q, DeliverReport(i, ANY_REPORT, ch))
    requires Inv(Next(u, DeliverReport(i, ANY_REPORT, ch)))
    requires Next(u, DeliverReport(i, ANY_REPORT, ch)).player == Answered(u.player, i, Streaming, ANY_REPORT)
    ensures var step := DeliverReport(i, ANY_REPORT, ch);
            var (u', q') := (Next(u, step), Next(q, step));
            && q'.player.ringing == q.player.ringing
            && if AllListedIn(u'.player, Streaming) then Lost(q', i) else Racing(u', q')
  {
    var step := DeliverReport(i, ANY_REPORT, ch);
    var (u', q') := (Next(u, step), Next(q, step));
    var w := Answered(q.player, i, Streaming, ANY_REPORT);
    AnsweredInRace(q.player, i);
    SameViewsSameAnswer(u'.player, w, Streaming);
    AudioModeRuns.ReportKeepsShape(q.player, i, Streaming, ANY_REPORT, ch);
    assert IsLive(u.player.ases[i], u.servers[i]);
    if AllListedIn(w, Streaming) {
      LastStreamingReport(q.player, i, ch);
    } else {
      RacingOn(u, q, i, ch);
    }
  }

  /** A Streaming report that is not the last one is only seen. */
  lemma EarlyStreamingReport(q: Sys, i: nat, ch: Choice)
    requires Enabled(q, DeliverReport(i, ANY_REPORT, ch)) && q.servers[i].notifs == [Streaming]
    requires q.player.current.InTransit? && q.player.releasing
    requires !AllListedIn(Answered(q.player, i, Streaming, ANY_REPORT), Streaming)
    ensures var t := Next(q, DeliverReport(i, ANY_REPORT, ch));
            && t.player == q.player.(ases := q.player.ases[i := q.player.ases[i].(view := Streaming)])
            && t.servers == q.servers[i := q.servers[i].(notifs := [])] && t.cigUp == q.cigUp && t.inband == q.inband
  {
    AnsweredInRace(q.player, i);
    assert q.servers[i].notifs[1..] == [];
  }

  lemma SeenStreaming(p: State, i: nat)
    requires i < |p.ases| && !p.releasing
    ensures Answered(p, i, Streaming, ANY_REPORT) == p.(ases := p.ases[i := p.ases[i].(view := Streaming)])
  {
  }

  lemma RacingOn(u: Sys, q: Sys, i: nat, ch: Choice)
    requires Racing(u, q) && i < |u.servers| && Listed(u.player, i)
    requires u.servers[i].notifs == [Streaming]
    requires Enabled(u, DeliverReport(i, ANY_REPORT, ch)) && Enabled(q, DeliverReport(i, ANY_REPORT, ch))
    requires Inv(Next(u, DeliverReport(i, ANY_REPORT, ch)))
    requires Next(u, DeliverReport(i, ANY_REPORT, ch)).player == Answered(u.player, i, Streaming, ANY_REPORT)
    requires !AllListedIn(Answered(q.player, i, Streaming, ANY_REPORT), Streaming)
    ensures var step := DeliverReport(i, ANY_REPORT, ch); Racing(Next(u, step), Next(q, step))
    ensures Next(q, DeliverReport(i, ANY_REPORT, ch)).player.ringing == q.player.ringing
  {
    EarlyStreamingReport(q, i, ch);
    SeenStreaming(u.player, i);
    SamePhase(u.player, Answered(u.player, i, Streaming, ANY_REPORT));
    StillNoneJoining(u, i, ch);
  }

  lemma StillNoneJoining(u: Sys, i: nat, ch: Choice)
    requires Inv(u) && NoneJoining(u) && PhaseOf(u.player).Live?
    requires Enabled(u, DeliverReport(i, ANY_REPORT, ch)) && Listed(u.player, i)
    requires Next(u, DeliverReport(i, ANY_REPORT, ch)).player
             == Answered(u.player, i, u.servers[i].notifs[0], ANY_REPORT)
    ensures NoneJoining(Next(u, DeliverReport(i, ANY_REPORT, ch)))
  {
    var t := Next(u, DeliverReport(i, ANY_REPORT, ch));
    assert IsLive(u.player.ases[i], u.servers[i]);
    AnswerWhileLive(u.player, i, u.servers[i], ANY_REPORT);
    forall j | 0 <= j < |t.servers| && Listed(t.player, j)
      ensures IsLive(t.player.ases[j], t.servers[j])
    {
      assert IsLive(u.player.ases[j], u.servers[j]);
    }
  }

  lemma Prepend(s: Sys, step: Step, rest: seq<Step>, t: Sys)
    requires Enabled(s, step) && Run(Next(s, step), rest, t)
    ensures Run(s, [step] + rest, t)
  {
    assert ([step] + rest)[1..] == rest;
  }

  /** The environment can always win the race. */
  lemma {:induction false} RaceCanBeLost(u: Sys, q: Sys) returns (steps: seq<Step>, t: Sys, i: nat)
    requires Racing(u, q) && !AllListedIn(u.player, Streaming)
    ensures Deliveries(steps) && Run(q, steps, t) && Lost(t, i) && t.player.ringing == q.player.ringing
    decreases Distance(u)
  {
    var step;
    step, i := RaceStep(u, q);
    var rest: seq<Step>;
    if AllListedIn(Next(u, step).player, Streaming) {
      rest, t := [], Next(q, step);
    } else {
      rest, t, i := RaceCanBeLost(Next(u, step), Next(q, step));
    }
    Prepend(q, step, rest, t);
    steps := [step] + rest;
  }

  /** Wherever deliveries from `q` lead, a release that goes on is one that the player is in
      transit for and lists the endpoints of. */
  ghost predicate ReleaseIsComplete(q: Sys) {
    forall steps, t :: Deliveries(steps) && Run(q, steps, t) && t.player.releasing ==>
      t.player.current.InTransit? && SomeListed(t.player)
  }

  lemma DeliveriesCompleteRelease(q: Sys)
    requires Inv(q)
    ensures ReleaseIsComplete(q)
  {
    forall steps, t | Deliveries(steps) && Run(q, steps, t) && t.player.releasing
      ensures t.player.current.InTransit? && SomeListed(t.player)
    {
      DeliveriesAreBounded(q, steps, t);
    }
  }

  /** The exact condition for a stop or a pre-emption in a settled mode: deliveries lead to no
      state with a release left over, if and only if every listed endpoint had already reported
      Streaming when the request came. */
  lemma StopIsSafeIffAllStream(s: Sys, e: Event)
    requires Inv(s) && PhaseOf(s.player).Live? && NoneJoining(s)
    requires Enabled(s, Request(e)) && (Ends(s.player, e) || Preempts(s.player, e))
    ensures AllListedIn(s.player, Streaming) <==> ReleaseIsComplete(Next(s, Request(e)))
  {
    if AllListedIn(s.player, Streaming) {
      StopForm(s, e);
      RequestKeepsInv(s, e);
      DeliveriesCompleteRelease(Next(s, Request(e)));
    } else {
      StopStartsRace(s, e);
      var steps, t, i := RaceCanBeLost(s, Next(s, Request(e)));
      assert Lost(t, i);
    }
  }

  /** Every request of the run arrives in a settled mode. */
  ghost predicate Settled(s: Sys, steps: seq<Step>)
    decreases |steps|
  {
    if steps == [] then true
    else
      && Enabled(s, steps[0])
      && (steps[0].Request? ==> !s.player.current.InTransit?)
      && Settled(Next(s, steps[0]), steps[1..])
  }

  lemma StartedForOne(p: State, cfg: StreamConfig, i: nat)
    requires i < |p.ases| && p.ases[i].outbox == [Release] && Streamable(cfg.context)
    ensures Started(p, cfg, [i]).0.ases[i].outbox == [Release, ConfigCodec]
  {
    ConfiguredAses(p, [i]);
    assert [Release] + [ConfigCodec] == [Release, ConfigCodec];
  }

  /** A request after a lost race that starts the endpoint that is still to be released. */
  lemma StartAfterLoss(q: Sys, i: nat, cfg: StreamConfig) returns (e: Event)
    requires Lost(q, i) && !q.player.ringing
    ensures Enabled(q, Request(e)) && Next(q, Request(e)).player.ases[i].outbox == [Release, ConfigCodec]
  {
    assert GoodChoice(q.player, JustOne(i, true));
    if q.player.current.NoMode? && !q.player.media.Playing? {
      e := Play(cfg, JustOne(i, true));
      StartedForOne(q.player, cfg.(context := Media), i);
    } else {
      e := AcceptCall(JustOne(i, true));
      EmptyIsPacked(q.player.slots);
      StartedForOne(q.player, q.player.stream.(context := Conversational), i);
    }
  }

  /** After a lost race, a start for an endpoint that is still to be released: its Config Codec
      reaches an endpoint that is releasing, and is rejected. */
  lemma LostRaceIsRejected(q: Sys, i: nat, cfg: StreamConfig) returns (steps: seq<Step>, t: Sys)
    requires Lost(q, i) && !q.player.ringing
    ensures Run(q, steps, t) && Settled(q, steps) && Rejects(t, i)
  {
    var e := StartAfterLoss(q, i, cfg);
    var m := Next(q, Request(e));
    t := Next(m, DeliverOperation(i));
    assert [Release, ConfigCodec][1..] == [ConfigCodec];
    Prepend(m, DeliverOperation(i), [], t);
    PrependSettled(m, DeliverOperation(i), []);
    Prepend(q, Request(e), [DeliverOperation(i)] + [], t);
    PrependSettled(q, Request(e), [DeliverOperation(i)] + []);
    steps := [Request(e)] + ([DeliverOperation(i)] + []);
  }

  lemma PrependSettled(s: Sys, step: Step, rest: seq<Step>)
    requires Enabled(s, step) && (step.Request? ==> !s.player.current.InTransit?)
    requires Settled(Next(s, step), rest)
    ensures Settled(s, [step] + rest)
  {
    assert ([step] + rest)[1..] == rest;
  }

  lemma {:induction false} RaceEndsInRejection(u: Sys, q: Sys, cfg: StreamConfig) returns (steps: seq<Step>, t: Sys, i: nat)
    requires Racing(u, q) && !AllListedIn(u.player, Streaming) && !q.player.ringing
    ensures Run(q, steps, t) && Settled(q, steps) && Rejects(t, i)
    decreases Distance(u)
  {
    var step;
    step, i := RaceStep(u, q);
    var rest: seq<Step>;
    if AllListedIn(Next(u, step).player, Streaming) {
      rest, t := LostRaceIsRejected(Next(q, step), i, cfg);
    } else {
      rest, t, i := RaceEndsInRejection(Next(u, step), Next(q, step), cfg);
    }
    Prepend(q, step, rest, t);
    PrependSettled(q, step, rest);
    steps := [step] + rest;
  }

  /** Requests that wait for a settled mode but not for the Streaming reports are not enough:
      from every such moment an early stop or pre-emption that leaves no call ringing can end in
      a rejected operation. */
  lemma EarlyStopCanBeRejected(s: Sys, e: Event, cfg: StreamConfig) returns (steps: seq<Step>, t: Sys, i: nat)
    requires Inv(s) && PhaseOf(s.player).Live? && NoneJoining(s)
    requires Enabled(s, Request(e)) && (Ends(s.player, e) || Preempts(s.player, e))
    requires !AllListedIn(s.player, Streaming) && !Next(s, Request(e)).player.ringing
    ensures Run(s, steps, t) && Settled(s, steps) && steps != [] && steps[0] == Request(e) && Rejects(t, i)
  {
    StopStartsRace(s, e);
    var rest;
    rest, t, i := RaceEndsInRejection(s, Next(s, Request(e)), cfg);
    Prepend(s, Request(e), rest, t);
    PrependSettled(s, Request(e), rest);
    steps := [Request(e)] + rest;
  }

  // ---- Such a moment is reached from every beginning ----

  /** A step of a set-up that leaves it unfinished, or settles the mode. */
  ghost predicate SetupGoes(s: Sys, step: Step) {
    && IsDelivery(step) && Enabled(s, step)
    && var t := Next(s, step);
       && t.player.final == s.player.final && t.player.ringing == s.player.ringing && Inv(t)
       && (PhaseOf(t.player).Setup?
           || (PhaseOf(t.player).Live? && NoneJoining(t) && AllListedIn(t.player, Enabling)))
  }

  lemma SetupStep(s: Sys) returns (step: Step)
    requires Inv(s) && PhaseOf(s.player).Setup?
    ensures SetupGoes(s, step) && Distance(Next(s, step)) < Distance(s)
  {
    step := StepInSetup(s);
    DeliveryKeepsInv(s, step);
    DeliveryDecreases(s, step);
    DeliveryKeepsDestination(s, step);
    DeliveryGoesUp(s, step);
    if PhaseOf(Next(s, step).player).Live? { SettledInSetup(s, step); }
  }

  /** Every set-up settles with all endpoints Enabling and none Streaming yet. */
  lemma {:induction false} SetupSettles(s: Sys) returns (steps: seq<Step>, t: Sys)
    requires Inv(s) && PhaseOf(s.player).Setup?
    ensures Deliveries(steps) && Run(s, steps, t)
    ensures Inv(t) && PhaseOf(t.player).Live? && NoneJoining(t) && AllListedIn(t.player, Enabling)
    ensures t.player.final == s.player.final && t.player.ringing == s.player.ringing
    decreases Distance(s)
  {
    var step := SetupStep(s);
    var m := Next(s, step);
    var rest: seq<Step>;
    if PhaseOf(m.player).Setup? {
      rest, t := SetupSettles(m);
    } else {
      rest, t := [], m;
    }
    Prepend(s, step, rest, t);
    steps := [step] + rest;
  }

  /** When it settles, media is paused too early. */
  lemma {:induction false} SetupEndsInRejection(s: Sys, cfg: StreamConfig) returns (steps: seq<Step>, t: Sys, i: nat)
    requires Inv(s) && PhaseOf(s.player).Setup? && s.player.final.MediaMode? && !s.player.ringing
    ensures Run(s, steps, t) && Settled(s, steps) && Rejects(t, i)
    decreases Distance(s)
  {
    var step := SetupStep(s);
    var m := Next(s, step);
    var rest: seq<Step>;
    if PhaseOf(m.player).Setup? {
      rest, t, i := SetupEndsInRejection(m, cfg);
    } else {
      rest, t, i := EarlyPauseIsRejected(m, cfg);
    }
    Prepend(s, step, rest, t);
    PrependSettled(s, step, rest);
    steps := [step] + rest;
  }

  lemma EarlyPauseIsRejected(s: Sys, cfg: StreamConfig) returns (steps: seq<Step>, t: Sys, i: nat)
    requires Inv(s) && PhaseOf(s.player).Live? && NoneJoining(s) && AllListedIn(s.player, Enabling)
    requires s.player.final.MediaMode? && !s.player.ringing
    ensures Run(s, steps, t) && Settled(s, steps) && Rejects(t, i)
  {
    NotYetStreaming(s);
    EndIsStop(s, Pause);
    MovedOnForm(s.player, NoMode, None);
    steps, t, i := EarlyStopCanBeRejected(s, Pause, cfg);
  }

  lemma NotYetStreaming(s: Sys)
    requires Inv(s) && PhaseOf(s.player).Live? && AllListedIn(s.player, Enabling)
    ensures !AllListedIn(s.player, Streaming)
  {
    var i := FirstListed(s);
    ListedInMeansEach(s.player, Enabling, i);
    NotAllIn(s.player, i, Streaming);
  }

  lemma StepInSetup(s: Sys) returns (step: Step)
    requires Inv(s) && PhaseOf(s.player).Setup?
    ensures IsDelivery(step) && Enabled(s, step)
  {
    if Resting(s) {
      NoRestInSetup(s);
      assert false;
    }
    step :| IsDelivery(step) && Enabled(s, step);
  }

  lemma SettledInSetup(s: Sys, step: Step)
    requires Inv(s) && PhaseOf(s.player).Setup? && IsDelivery(step) && Enabled(s, step)
    requires PhaseOf(Next(s, step).player).Live?
    ensures NoneJoining(Next(s, step)) && AllListedIn(Next(s, step).player, Enabling)
  {
    if step.DeliverReport? {
      GroupInSetup(s, step.i, step.report, step.ch);
      if AllListedIn(Answered(s.player, step.i, s.servers[step.i].notifs[0], step.report), Enabling) {
        LastReportInSetup(s, step.i, step.report, step.ch);
      } else {
        EarlyReportInSetup(s, step.i, step.report, step.ch);
      }
    } else {
      SamePhase(s.player, Next(s, step).player);
    }
  }

  /** The first thing that happens: media is started for one endpoint. */
  lemma FirstPlay(s: Sys, cfg: StreamConfig) returns (e: Event)
    requires Init(s) && s.player.ases != [] && s.player.slots != []
    ensures e.Play? && Enabled(s, Request(e)) && Calm(s.player, e)
    ensures var t := Next(s, Request(e));
            Inv(t) && PhaseOf(t.player).Setup? && t.player.final.MediaMode? && !t.player.ringing
  {
    e := Play(cfg, JustOne(0, false));
    InitHasInv(s);
    assert GoodChoice(s.player, JustOne(0, false));
    RequestKeepsInv(s, e);
    StartRequestedAtRest(s, e);
    AudioModeRuns.ResumedKeepsModes(s.player, MediaMode, cfg, JustOne(0, false));
  }

  /** From every beginning a mode settles in which not all listed endpoints stream yet. */
  lemma EarlyMomentIsReached(s: Sys, cfg: StreamConfig) returns (steps: seq<Step>, t: Sys)
    requires Init(s) && s.player.ases != [] && s.player.slots != []
    ensures Run(s, steps, t) && Disciplined(s, steps)
    ensures Inv(t) && PhaseOf(t.player).Live? && NoneJoining(t) && !AllListedIn(t.player, Streaming)
  {
    var e := FirstPlay(s, cfg);
    var rest;
    rest, t := SetupSettles(Next(s, Request(e)));
    DeliveriesAreDisciplined(Next(s, Request(e)), rest, t);
    NotYetStreaming(t);
    Prepend(s, Request(e), rest, t);
    steps := [Request(e)] + rest;
    assert steps[1..] == rest;
  }

  /** So from every beginning there is a run with all requests in settled modes, media started
      and paused too early, that ends in a rejected operation. */
  lemma RejectedFromTheBeginning(s: Sys, cfg: StreamConfig) returns (steps: seq<Step>, t: Sys, i: nat)
    requires Init(s) && s.player.ases != [] && s.player.slots != []
    ensures Run(s, steps, t) && Settled(s, steps) && Rejects(t, i)
  {
    var e := FirstPlay(s, cfg);
    var rest;
    rest, t, i := SetupEndsInRejection(Next(s, Request(e)), cfg);
    Prepend(s, Request(e), rest, t);
    PrependSettled(s, Request(e), rest);
    steps := [Request(e)] + rest;
  }
}
