/** Negotiation end to end: when a mode settles, every endpoint of the stream has been heard, and
    the stream is what all of them have agreed on, whatever the order of deliveries. */
module OrchestrationNegotiation {
  import opened Wrappers
  import opened Arith
  import opened QosNegotiation
  import opened AseControl
  import opened AudioMode
  import opened AudioModeNegotiation
  import opened Orchestration
  import opened OrchestrationRequests
  import opened OrchestrationRuns
  import opened OrchestrationOutcome
  import opened OrchestrationJourneys
  import AudioModeRuns

  // ---- Preferences in a run of deliveries ----

  /** The step brings the player the preferences of an endpoint. */
  predicate BringsPreferences(s: Sys, step: Step) {
    step.DeliverReport? && step.i < |s.servers| && s.servers[step.i].notifs != [] &&
    s.servers[step.i].notifs[0].CodecConfigured?
  }

  /** All preferences in the run, with their directions. */
  ghost function Collected(s: Sys, steps: seq<Step>): seq<(Direction, Report)>
    decreases |steps|
  {
    if steps == [] || !Enabled(s, steps[0]) then []
    else
      (if BringsPreferences(s, steps[0]) then [(s.player.ases[steps[0].i].dir, steps[0].report)] else [])
      + Collected(Next(s, steps[0]), steps[1..])
  }

  /** Those of endpoint `i`. */
  ghost function ReportsOf(s: Sys, steps: seq<Step>, i: nat): seq<Report>
    decreases |steps|
  {
    if steps == [] || !Enabled(s, steps[0]) then []
    else
      (if BringsPreferences(s, steps[0]) && steps[0].i == i then [steps[0].report] else [])
      + ReportsOf(Next(s, steps[0]), steps[1..], i)
  }

  lemma DeliveryNarrows(s: Sys, step: Step)
    requires Inv(s) && GoesUp(s.player) && Enabled(s, step) && IsDelivery(step)
    ensures var p, q := s.player, Next(s, step).player;
            && q.stream == (if BringsPreferences(s, step) then
                              (var dir := p.ases[step.i].dir;
                               WithQos(p.stream, dir, Selected(Of(p.stream, dir).qos, step.report)))
                            else p.stream)
            && forall j :: 0 <= j < |p.ases| ==> q.ases[j].dir == p.ases[j].dir
  {
    if step.DeliverReport? {
      ReportNarrows(s.player, step.i, s.servers[step.i].notifs[0], step.report, step.ch);
    }
  }

  /** On the way up, and once there, the stream is the first one narrowed by all that was
      collected. */
  lemma {:induction false} DeliveriesNarrow(s: Sys, steps: seq<Step>, t: Sys)
    requires Inv(s) && GoesUp(s.player) && Run(s, steps, t) && Deliveries(steps)
    ensures t.player.stream == Narrowed(s.player.stream, Collected(s, steps))
    decreases |steps|
  {
    if steps != [] {
      var (step, rest) := (steps[0], steps[1..]);
      var u := Next(s, step);
      DeliveryKeepsInv(s, step);
      DeliveryGoesUp(s, step);
      DeliveryNarrows(s, step);
      DeliveriesNarrow(u, rest, t);
      if BringsPreferences(s, step) {
        NarrowedStep(s.player.stream, s.player.ases[step.i].dir, step.report, Collected(u, rest));
      } else {
        assert [] + Collected(u, rest) == Collected(u, rest);
      }
    }
  }

  lemma OnlyStep(dir: Direction, d: Direction, r: Report, rest: seq<(Direction, Report)>)
    ensures Only(dir, [(d, r)] + rest) == (if d == dir then [r] else []) + Only(dir, rest)
  {
    assert ([(d, r)] + rest)[1..] == rest;
    assert [] + Only(dir, rest) == Only(dir, rest);
  }

  lemma {:induction false} OwnReportsAreCollected(s: Sys, steps: seq<Step>, t: Sys, i: nat, r: Report)
    requires Inv(s) && GoesUp(s.player) && Run(s, steps, t) && Deliveries(steps)
    requires i < |s.player.ases| && r in ReportsOf(s, steps, i)
    ensures r in Only(s.player.ases[i].dir, Collected(s, steps))
    decreases |steps|
  {
    var (step, rest) := (steps[0], steps[1..]);
    var u := Next(s, step);
    DeliveryKeepsInv(s, step);
    DeliveryGoesUp(s, step);
    DeliveryNarrows(s, step);
    if BringsPreferences(s, step) {
      OnlyStep(s.player.ases[i].dir, s.player.ases[step.i].dir, step.report, Collected(u, rest));
    } else {
      assert [] + Collected(u, rest) == Collected(u, rest);
    }
    if r in ReportsOf(u, rest, i) {
      OwnReportsAreCollected(u, rest, t, i, r);
    } else {
      assert BringsPreferences(s, step) && step.i == i && step.report == r;
    }
  }

  // ---- Every endpoint is heard ----

  /** Config Codec is on its way to the endpoint, or its answer back. */
  predicate Owes(s: Sys, i: nat) {
    i < |s.player.ases| && i < |s.servers| && Listed(s.player, i) && !s.player.ases[i].view.Enabling? &&
    (s.player.ases[i].outbox == [ConfigCodec] || s.servers[i].notifs == [CodecConfigured])
  }

  lemma OwesUntilHeard(s: Sys, step: Step, i: nat)
    requires Inv(s) && PhaseOf(s.player).Setup? && Enabled(s, step) && IsDelivery(step) && Owes(s, i)
    ensures (BringsPreferences(s, step) && step.i == i) || Owes(Next(s, step), i)
  {
    assert AseOk(s.player, i, s.servers[i]);
    match step
    case DeliverOperation(j) =>
      if j == i {
        assert [] + [CodecConfigured] == [CodecConfigured];
      }
    case DeliverReport(j, report, ch) =>
      if j != i { OthersReportInSetup(s, j, report, ch, i); }
    case Establish(j) =>
    case FinishRelease(j) =>
  }

  /** A report of another endpoint leaves this one where it is. */
  lemma OthersReportInSetup(s: Sys, j: nat, report: Report, ch: Choice, i: nat)
    requires Inv(s) && PhaseOf(s.player).Setup? && Enabled(s, DeliverReport(j, report, ch))
    requires i < |s.servers| && i != j
    ensures var t := Next(s, DeliverReport(j, report, ch));
            t.player.ases[i] == s.player.ases[i] && t.servers[i] == s.servers[i] && t.player.slots == s.player.slots
  {
    if AllListedIn(Answered(s.player, j, s.servers[j].notifs[0], report), Enabling) {
      LastReportInSetup(s, j, report, ch);
    } else {
      EarlyReportInSetup(s, j, report, ch);
    }
  }

  /** Nobody who still owes its preferences is in a set-up that ends. */
  lemma NobodyOwesAtTheEnd(s: Sys, step: Step, i: nat)
    requires Inv(s) && PhaseOf(s.player).Setup? && Enabled(s, step) && IsDelivery(step)
    requires PhaseOf(Next(s, step).player).Live?
    ensures !Owes(Next(s, step), i)
  {
    var t := Next(s, step);
    if step.DeliverReport? {
      GroupInSetup(s, step.i, step.report, step.ch);
      if Owes(t, i) {
        ListedInMeansEach(t.player, Enabling, i);
      }
    } else {
      SamePhase(s.player, t.player);
    }
  }

  lemma {:induction false} OwingIsHeard(s: Sys, steps: seq<Step>, t: Sys, i: nat)
    requires Inv(s) && PhaseOf(s.player).Setup? && Run(s, steps, t) && Deliveries(steps) && Owes(s, i)
    requires PhaseOf(t.player).Live?
    ensures ReportsOf(s, steps, i) != []
    decreases |steps|
  {
    if steps != [] {
      var (step, rest) := (steps[0], steps[1..]);
      var u := Next(s, step);
      OwesUntilHeard(s, step, i);
      if !(BringsPreferences(s, step) && step.i == i) {
        DeliveryKeepsInv(s, step);
        DeliveryGoesUp(s, step);
        if PhaseOf(u.player).Live? {
          NobodyOwesAtTheEnd(s, step, i);
        } else {
          OwingIsHeard(u, rest, t, i);
        }
      }
    }
  }

  // ---- Settled modes ----

  /** From anywhere in a set-up, at any moment after its mode has settled: every endpoint that
      owed its preferences has been heard, and each direction is what its endpoints have agreed
      on, within the window of each if their windows share a point. */
  lemma SettledIsAgreed(s: Sys, steps: seq<Step>, t: Sys, i: nat)
    requires Inv(s) && PhaseOf(s.player).Setup? && Run(s, steps, t) && Deliveries(steps)
    requires PhaseOf(t.player).Live? && Owes(s, i)
    ensures var dir := s.player.ases[i].dir;
            var rs := Only(dir, Collected(s, steps));
            && rs != [] && ReportsOf(s, steps, i) != []
            && (forall r :: r in ReportsOf(s, steps, i) ==> r in rs)
            && Agreed(Of(t.player.stream, dir).qos, Of(s.player.stream, dir).qos, rs)
            && t.player.stream.context == s.player.stream.context
  {
    var dir := s.player.ases[i].dir;
    OwingIsHeard(s, steps, t, i);
    forall r | r in ReportsOf(s, steps, i)
      ensures r in Only(dir, Collected(s, steps))
    {
      OwnReportsAreCollected(s, steps, t, i, r);
    }
    assert ReportsOf(s, steps, i)[0] in Only(dir, Collected(s, steps));
    DeliveriesNarrow(s, steps, t);
    NarrowedIsAgreed(s.player.stream, Collected(s, steps), dir);
  }

  // ---- From the request to the settled mode ----

  function RequestedContext(p: State, e: Event): Context
    requires Wanted(p, e).Some?
  {
    AudioModeRuns.ContextFor(Wanted(p, e).value, ChoiceOf(e))
  }

  predicate StartsStream(s: Sys, e: Event) {
    && Wanted(s.player, e).Some?
    && !PlaysAlready(s.player, Wanted(s.player, e).value) && !OnlyRings(s, Wanted(s.player, e).value)
  }

  /** A start from rest: every pick owes its preferences, and the stream is the requested one with
      the context of its mode, prepared for every pick. */
  lemma StartPrepares(s: Sys, e: Event, i: nat)
    requires Inv(s) && Enabled(s, Request(e)) && Calm(s.player, e) && PhaseOf(s.player).Off? && StartsStream(s, e)
    requires i in ChoiceOf(e).picks
    ensures Inv(Next(s, Request(e))) && PhaseOf(Next(s, Request(e)).player).Setup? && Owes(Next(s, Request(e)), i)
    ensures var (p, q, ch) := (s.player, Next(s, Request(e)).player, ChoiceOf(e));
            && i < |p.ases| && q.ases[i].dir == p.ases[i].dir && ValidPicks(p, ch.picks)
            && q.stream == AllPrepared(p.ases, RequestedConfig(p, e).(context := RequestedContext(p, e)), ch.picks)
  {
    var (p, mode, ch) := (s.player, Wanted(s.player, e).value, ChoiceOf(e));
    var q := Next(s, Request(e)).player;
    RequestKeepsInv(s, e);
    StartRequestedAtRest(s, e);
    NothingInFlight(s);
    PickOwes(s, e, i);
  }

  /** A start request in no mode resumes the mode asked for. */
  lemma StartIsResumption(p: State, e: Event)
    requires Handles(p, e) && p.current.NoMode? && Wanted(p, e).Some?
    ensures ValidPicks(p, ChoiceOf(e).picks)
    ensures var cfg := if e.StartBidir? then e.cfg.(context := Game) else RequestedConfig(p, e);
            var (t, c) := Resumed(p, Wanted(p, e).value, cfg, ChoiceOf(e));
            Handled(p, e).ases == t.ases && Handled(p, e).slots == t.slots && Handled(p, e).stream == c
  {
  }

  /** What the request comes to, for one pick. */
  lemma PickOwes(s: Sys, e: Event, i: nat)
    requires Inv(s) && Enabled(s, Request(e)) && PhaseOf(s.player).Off? && StartsStream(s, e)
    requires AllAtRest(s.player, s.servers) && !SomeListed(s.player)
    requires i in ChoiceOf(e).picks
    ensures Owes(Next(s, Request(e)), i)
    ensures var (p, q, ch) := (s.player, Next(s, Request(e)).player, ChoiceOf(e));
            && i < |p.ases| && q.ases[i].dir == p.ases[i].dir && ValidPicks(p, ch.picks)
            && q.stream == AllPrepared(p.ases, RequestedConfig(p, e).(context := RequestedContext(p, e)), ch.picks)
  {
    var (p, mode, ch) := (s.player, Wanted(s.player, e).value, ChoiceOf(e));
    var cfg := if e.StartBidir? then e.cfg.(context := Game) else RequestedConfig(p, e);
    StartIsResumption(p, e);
    ResumedWith(p, mode, cfg, ch);
    PickIsConfigured(p, s.servers, ch, i);
  }

  lemma PickIsConfigured(p: State, servers: seq<Server>, ch: Choice, i: nat)
    requires Valid(p) && !SomeListed(p) && AllAtRest(p, servers) && GoodChoice(p, ch) && i in ch.picks
    ensures i < |p.ases|
    ensures var r := AllConfigured(p, ch.picks);
            Listed(r, i) && r.ases[i] == p.ases[i].(outbox := [ConfigCodec])
  {
    EmptyIsPacked(p.slots);
    assert forall j :: Some(j) !in p.slots;
    ConfiguredForm(p, ch.picks);
    assert [] + [ConfigCodec] == [ConfigCodec];
  }

  /** The first values of a direction. */
  function FirstQos(context: Context, dir: Direction, a: AudioConfig): Qos {
    var latency := FirstLatency(context, a.core.sduInterval);
    if context.Game? then Qos(1, a.qos.phy, latency, 1, if dir.SinkAse? then 10000 else 60000)
    else Qos(2, a.qos.phy, latency, 5, 40000)
  }

  /** A start from rest, at any moment after its mode has settled: the stream has the context of
      the mode; every endpoint that was picked has been heard; and each of their directions is
      what its endpoints have agreed on, out of the first values for that context. */
  lemma StartNegotiates(s: Sys, e: Event, steps: seq<Step>, t: Sys, i: nat)
    requires Inv(s) && Enabled(s, Request(e)) && Calm(s.player, e) && PhaseOf(s.player).Off? && StartsStream(s, e)
    requires Run(Next(s, Request(e)), steps, t) && Deliveries(steps) && PhaseOf(t.player).Live?
    requires i in ChoiceOf(e).picks
    ensures i < |s.player.ases|
    ensures var (q, dir, cfg) := (Next(s, Request(e)), s.player.ases[i].dir, RequestedConfig(s.player, e));
            var (context, rs) := (RequestedContext(s.player, e), Only(dir, Collected(q, steps)));
            && t.player.stream.context == context
            && rs != [] && ReportsOf(q, steps, i) != []
            && (forall r :: r in ReportsOf(q, steps, i) ==> r in rs)
            && Agreed(Of(t.player.stream, dir).qos, FirstQos(context, dir, Of(cfg, dir)), rs)
  {
    var (q, ch) := (Next(s, Request(e)), ChoiceOf(e));
    StartPrepares(s, e, i);
    SettledIsAgreed(q, steps, t, i);
    var (dir, cfg) := (s.player.ases[i].dir, RequestedConfig(s.player, e).(context := RequestedContext(s.player, e)));
    PreparedIffPicked(s.player.ases, cfg, ch.picks, dir);
    var k :| 0 <= k < |ch.picks| && ch.picks[k] == i;
    assert PicksDirection(s.player.ases, ch.picks, dir);
    PreparedValues(cfg, dir);
  }
}
