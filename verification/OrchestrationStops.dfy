/** A stop or a pre-emption in any live state, while the endpoints of an accepted call are still
    joining too: exactly when the release can be brought to order. */
module OrchestrationStops {
  import opened Wrappers
  import opened QosNegotiation
  import opened AseControl
  import opened AudioMode
  import opened Orchestration
  import opened OrchestrationRequests
  import opened OrchestrationRuns
  import opened OrchestrationOutcome
  import opened OrchestrationJourneys
  import opened OrchestrationCalls
  import opened OrchestrationRace
  import AudioModeRuns

  // ---- Order ----

  predicate ReleaseInFlight(p: State, i: nat) {
    i < |p.ases| && Release in p.ases[i].outbox
  }

  /** Whoever has a Release on its way is on the list of a release that the player is in transit
      for. */
  ghost predicate Orderly(t: Sys) {
    forall i: nat :: ReleaseInFlight(t.player, i) ==>
      t.player.releasing && t.player.current.InTransit? && Listed(t.player, i)
  }

  /** So it is wherever deliveries lead. */
  ghost predicate StaysOrderly(q: Sys) {
    forall steps, t :: Deliveries(steps) && Run(q, steps, t) ==> Orderly(t)
  }

  lemma InvIsOrderly(s: Sys)
    requires Inv(s)
    ensures Orderly(s)
  {
    forall i: nat | ReleaseInFlight(s.player, i)
      ensures s.player.releasing && s.player.current.InTransit? && Listed(s.player, i)
    {
      assert AseOk(s.player, i, s.servers[i]);
    }
  }

  lemma InvStaysOrderly(s: Sys)
    requires Inv(s)
    ensures StaysOrderly(s)
  {
    forall steps, t | Deliveries(steps) && Run(s, steps, t)
      ensures Orderly(t)
    {
      DeliveriesAreBounded(s, steps, t);
      InvIsOrderly(t);
    }
  }

  // ---- The condition ----

  /** Some endpoint of the running stream is on air: that of the mode, which a call only joins. */
  ghost predicate HasOnAir(s: Sys) {
    |s.servers| == |s.player.ases| &&
    exists i :: 0 <= i < |s.servers| && Listed(s.player, i) && IsLive(s.player.ases[i], s.servers[i])
  }

  /** Every listed endpoint has been sent Enable, so that it can come to stream before its Release
      is delivered. */
  predicate AllCanStream(p: State) {
    forall i :: 0 <= i < |p.ases| && Listed(p, i) ==> !p.ases[i].view.Idle? && !p.ases[i].view.CodecConfigured?
  }

  /** An endpoint last seen in `view` can be seen in the state `end` before its Release is delivered. */
  predicate CanShow(end: AseState, view: AseState) {
    view == end || (end.CodecConfigured? && view.Idle?)
  }

  /** All listed endpoints can be seen in the state in which a release ends, one of them before its
      Release is delivered. */
  predicate CanEndEarly(s: Sys, end: AseState) {
    |s.servers| == |s.player.ases| &&
    (exists h :: 0 <= h < |s.servers| && Listed(s.player, h) && CanShow(end, s.player.ases[h].view)) &&
    (forall i :: 0 <= i < |s.servers| && Listed(s.player, i) ==>
       CanShow(end, s.player.ases[i].view) || Target(s.servers[i]) == end)
  }

  /** Either all endpoints stream; or one cannot come to stream, and neither end state can be shown
      by all while a Release is still on its way. */
  predicate StopsCleanly(s: Sys) {
    AllListedIn(s.player, Streaming) ||
    (!AllCanStream(s.player) && !CanEndEarly(s, Idle) && !CanEndEarly(s, CodecConfigured))
  }

  // ---- Where an endpoint is once a stop was requested ----

  /** The stages of an endpoint whose Release is still to be delivered (1 to 12), grouped by what
      is on its way, and of one that is leaving (13 to 16). Reports are no longer answered. */
  predicate Stage(n: nat, a: Ase, r: Server) {
    match n
    case 1 => a.outbox == [ConfigCodec, Release] && r.notifs == [] && r.state == a.view && IsReleaseTarget(a.view)
    case 2 => a.outbox == [Release] && r.notifs == [CodecConfigured] && r.state.CodecConfigured? && IsReleaseTarget(a.view)
    case 3 => a.outbox == [Release] && r.notifs == [] && r.state.CodecConfigured? && a.view.CodecConfigured?
    case 4 => a.outbox == [ConfigQos, Release] && r.notifs == [] && r.state.CodecConfigured? && a.view.CodecConfigured?
    case 5 => a.outbox == [Release] && r.notifs == [QosConfigured] && r.state.QosConfigured? && a.view.CodecConfigured?
    case 6 => a.outbox == [Release] && r.notifs == [] && r.state.QosConfigured? && a.view.QosConfigured?
    case 7 => a.outbox == [Enable, Release] && r.notifs == [] && r.state.QosConfigured? && a.view.QosConfigured?
    case 8 => a.outbox == [Release] && r.notifs == [Enabling] && r.state.Enabling? && a.view.QosConfigured?
    case 9 => a.outbox == [Release] && r.notifs == [] && r.state.Enabling? && a.view.Enabling?
    case 10 => a.outbox == [Release] && r.notifs == [Enabling, Streaming] && r.state.Streaming? && a.view.QosConfigured?
    case 11 => a.outbox == [Release] && r.notifs == [Streaming] && r.state.Streaming? && a.view.Enabling?
    case 12 => a.outbox == [Release] && r.notifs == [] && r.state.Streaming? && a.view.Streaming?
    case 13 => a.outbox == [] && r.notifs == [Releasing] && r.state.Releasing?
    case 14 => a.outbox == [] && r.notifs == [] && r.state.Releasing? && a.view.Releasing?
    case 15 => a.outbox == [] && r.notifs == [Target(r)] && r.state == Target(r) && a.view.Releasing?
    case 16 => a.outbox == [] && r.notifs == [] && r.state == Target(r) && a.view == Target(r)
    case _ => false
  }

  ghost predicate StagedIn(lo: nat, hi: nat, a: Ase, r: Server) {
    exists n :: lo <= n <= hi && Stage(n, a, r)
  }

  /** An endpoint of a running stream, or joining one, that is sent a Release. */
  lemma StoppedIsStaged(a: Ase, r: Server)
    requires IsLive(a, r) || IsJoining(a, r)
    ensures var b := a.(outbox := a.outbox + [Release]);
            && Release in b.outbox
            && (a.view.Idle? ==> Stage(1, b, r) || Stage(2, b, r))
            && (a.view.CodecConfigured? ==> StagedIn(1, 5, b, r))
            && (!a.view.Idle? && !a.view.CodecConfigured? ==>
                  StagedIn(7, 12, b, r) && (a.view.QosConfigured? || a.view.Enabling? || a.view.Streaming?))
  {
    var b := a.(outbox := a.outbox + [Release]);
    assert [] + [Release] == [Release] && [ConfigCodec] + [Release] == [ConfigCodec, Release];
    assert [ConfigQos] + [Release] == [ConfigQos, Release] && [Enable] + [Release] == [Enable, Release];
    assert b.outbox[|a.outbox|] == Release;
    if a.view.Idle? || a.view.CodecConfigured? {
      assert Stage(1, b, r) || Stage(2, b, r) || Stage(4, b, r) || Stage(5, b, r);
    } else {
      assert Stage(7, b, r) || Stage(8, b, r) || Stage(9, b, r) || Stage(10, b, r) || Stage(11, b, r) || Stage(12, b, r);
    }
  }

  // ---- Driving every listed endpoint to be seen in one state ----

  /** It can be seen in `end` before its Release is delivered. */
  predicate Holds(end: AseState, n: nat, a: Ase) {
    match end
    case Idle => n <= 2 && a.view.Idle?
    case CodecConfigured => n <= 5
    case Streaming => 7 <= n <= 12
    case _ => false
  }

  predicate Able(end: AseState, n: nat, a: Ase, r: Server) {
    Stage(n, a, r) && (Holds(end, n, a) || (!end.Streaming? && Target(r) == end))
  }

  ghost predicate AbleSome(end: AseState, a: Ase, r: Server) {
    exists n :: Able(end, n, a, r)
  }

  ghost predicate HoldsSome(end: AseState, a: Ase, r: Server) {
    exists n :: Able(end, n, a, r) && Holds(end, n, a)
  }

  lemma HolderHasRelease(end: AseState, a: Ase, r: Server)
    requires HoldsSome(end, a, r)
    ensures Release in a.outbox && AbleSome(end, a, r)
  {
    var n :| Able(end, n, a, r) && Holds(end, n, a);
    assert a.outbox[|a.outbox| - 1] == Release;
  }

  /** How many deliveries an endpoint is from being seen in `end`, at most. */
  function Effort(end: AseState, a: Ase, r: Server): nat {
    if !end.Streaming? then Weight(true, a, r)
    else if |a.outbox| == 2 then 4
    else (if r.state.Enabling? then 2 else 0) + |r.notifs|
  }

  function Efforts(end: AseState, ases: seq<Ase>, servers: seq<Server>): nat
    requires |ases| == |servers|
  {
    if ases == [] then 0 else Effort(end, ases[0], servers[0]) + Efforts(end, ases[1..], servers[1..])
  }

  lemma {:induction false} EffortsDrop(end: AseState, ases: seq<Ase>, servers: seq<Server>,
                                       ases': seq<Ase>, servers': seq<Server>, i: nat)
    requires |ases| == |servers| == |ases'| == |servers'| && i < |ases|
    requires forall j :: 0 <= j < |ases| && j != i ==> ases'[j] == ases[j] && servers'[j] == servers[j]
    requires Effort(end, ases'[i], servers'[i]) < Effort(end, ases[i], servers[i])
    ensures Efforts(end, ases', servers') < Efforts(end, ases, servers)
    decreases i
  {
    if i == 0 {
      assert ases'[1..] == ases[1..] && servers'[1..] == servers[1..];
    } else {
      EffortsDrop(end, ases[1..], servers[1..], ases'[1..], servers'[1..], i - 1);
    }
  }

  /** One move of an endpoint from `(a, r)` to `(b, t)`, nearer to being seen in `end`. */
  ghost predicate Nearer(end: AseState, n: nat, a: Ase, r: Server, b: Ase, t: Server) {
    && Effort(end, b, t) < Effort(end, a, r)
    && exists m :: Able(end, m, b, t) && (Holds(end, n, a) ==> Holds(end, m, b))
  }

  predicate MovesByReport(n: nat) {
    n == 2 || n == 5 || n == 8 || n == 10 || n == 11 || n == 13 || n == 15
  }

  predicate MovesByOperation(end: AseState, n: nat) {
    n == 1 || n == 3 || n == 4 || n == 6 || n == 7 || (!end.Streaming? && (n == 9 || n == 12))
  }

  lemma ReportIsNearer(end: AseState, n: nat, a: Ase, r: Server)
    requires Able(end, n, a, r) && a.view != end && MovesByReport(n)
    ensures r.notifs != [] && !r.notifs[0].Disabling?
    ensures Nearer(end, n, a, r, a.(view := r.notifs[0]), r.(notifs := r.notifs[1..]))
  {
    var m := if n == 10 then 11 else if n == 11 then 12 else n + 1;
    var b, t := a.(view := r.notifs[0]), r.(notifs := r.notifs[1..]);
    assert [Enabling, Streaming][1..] == [Streaming];
    assert Able(end, m, b, t) && (Holds(end, n, a) ==> Holds(end, m, b));
  }

  lemma OperationIsNearer(end: AseState, n: nat, a: Ase, r: Server)
    requires Able(end, n, a, r) && a.view != end && MovesByOperation(end, n)
    ensures a.outbox != [] && Transition(a.dir, r.state, a.outbox[0]).Some?
    ensures var state := Transition(a.dir, r.state, a.outbox[0]).value;
            Nearer(end, n, a, r, a.(outbox := a.outbox[1..]), Entered(r, state))
  {
    var m := if n == 1 || n == 4 || n == 7 then n + 1 else 13;
    var state := Transition(a.dir, r.state, a.outbox[0]).value;
    var b, t := a.(outbox := a.outbox[1..]), Entered(r, state);
    assert [] + [state] == [state];
    assert [ConfigCodec, Release][1..] == [Release] && [ConfigQos, Release][1..] == [Release];
    assert [Enable, Release][1..] == [Release] && [Release][1..] == [];
    assert Able(end, m, b, t) && (Holds(end, n, a) ==> Holds(end, m, b));
  }

  lemma EstablishIsNearer(n: nat, a: Ase, r: Server)
    requires Able(Streaming, n, a, r) && n == 9
    ensures r.state.Enabling? && Nearer(Streaming, n, a, r, a, Entered(r, Streaming))
  {
    assert [] + [Streaming] == [Streaming];
    assert Able(Streaming, 11, a, Entered(r, Streaming)) && Holds(Streaming, 11, a);
  }

  lemma FinishIsNearer(end: AseState, n: nat, a: Ase, r: Server)
    requires Able(end, n, a, r) && n == 14
    ensures r.state.Releasing? && Nearer(end, n, a, r, a, Entered(r, Target(r)))
  {
    assert [] + [Target(r)] == [Target(r)];
    assert Able(end, 15, a, Entered(r, Target(r)));
  }

  // ---- The same in the system ----

  /** A release is going on; every listed endpoint can come to be seen in `end`, and `h` before its
      Release is delivered. */
  ghost predicate Driving(end: AseState, q: Sys, h: nat) {
    && |q.servers| == |q.player.ases| && h < |q.servers| && Valid(q.player)
    && q.player.current.InTransit? && q.player.releasing && !q.player.final.InTransit? && q.cigUp
    && Listed(q.player, h) && HoldsSome(end, q.player.ases[h], q.servers[h])
    && forall i :: 0 <= i < |q.servers| && Listed(q.player, i) ==> AbleSome(end, q.player.ases[i], q.servers[i])
  }

  /** Order is lost, or every endpoint is as able as before and the goal is nearer. */
  ghost predicate DrivesOn(end: AseState, q: Sys, h: nat, t: Sys) {
    || !Orderly(t)
    || (&& Driving(end, t, h) && !AllListedIn(t.player, end)
        && |q.servers| == |q.player.ases|
        && Efforts(end, t.player.ases, t.servers) < Efforts(end, q.player.ases, q.servers))
  }

  lemma MoveDrivesOn(end: AseState, q: Sys, h: nat, i: nat, n: nat, t: Sys)
    requires Driving(end, q, h) && !AllListedIn(t.player, end)
    requires i < |q.servers| && Listed(q.player, i) && Able(end, n, q.player.ases[i], q.servers[i])
    requires i == h ==> Holds(end, n, q.player.ases[i])
    requires |t.servers| == |q.servers| && |t.player.ases| == |q.player.ases| && t.cigUp
    requires t.player == q.player.(ases := t.player.ases)
    requires forall j :: 0 <= j < |q.servers| && j != i ==>
               t.player.ases[j] == q.player.ases[j] && t.servers[j] == q.servers[j]
    requires Nearer(end, n, q.player.ases[i], q.servers[i], t.player.ases[i], t.servers[i])
    ensures DrivesOn(end, q, h, t)
  {
    EffortsDrop(end, q.player.ases, q.servers, t.player.ases, t.servers, i);
    assert forall j :: Listed(t.player, j) == Listed(q.player, j);
  }

  /** Resuming a mode only ever adds to what is on its way. */
  lemma ResumedKeepsOperations(p: State, mode: Mode, cfg: StreamConfig, ch: Choice, i: nat)
    requires GoodChoice(p, ch) && ReleaseInFlight(p, i)
    ensures ReleaseInFlight(Resumed(p, mode, cfg, ch).0, i)
  {
    ConfiguredAses(p, ch.picks);
    ConfiguredAses(p.(ringing := true), ch.picks);
    var k :| 0 <= k < |p.ases[i].outbox| && p.ases[i].outbox[k] == Release;
    assert (p.ases[i].outbox + [ConfigCodec])[k] == Release;
  }

  lemma CompletedKeepsRelease(p: State, ch: Choice, i: nat)
    requires p.current.InTransit? && p.releasing && GoodChoice(p, ch) && ReleaseInFlight(p, i)
    ensures !ReleaseCompleted(p, ch).releasing && ReleaseInFlight(ReleaseCompleted(p, ch), i)
  {
    ReleaseStops(p, ch);
    if !p.paused.NoMode? {
      GoneOnForm(p, ch);
      var c := p.(slots := Cleared(p.slots), releasing := false);
      ResumedKeepsOperations(c, ModeAfterRelease(p), ConfigAfterRelease(p), ch, i);
    }
  }

  /** The states that mean something to the player when all listed endpoints have reported them. */
  predicate Counts(state: AseState) {
    state.Idle? || state.CodecConfigured? || state.Enabling? || state.Streaming?
  }

  /** When one of them is complete while a Release is still on its way, order is lost. */
  lemma EarlyTrigger(p: State, state: AseState, ch: Choice, i: nat)
    requires Valid(p) && p.current.InTransit? && p.releasing && !p.final.InTransit?
    requires GoodChoice(p, ch) && ReleaseInFlight(p, i) && Counts(state)
    ensures var t := ModeUpdated(p, state, ch);
            ReleaseInFlight(t, i) && !(t.releasing && t.current.InTransit? && Listed(t, i))
  {
    match state
    case Idle => CompletedKeepsRelease(p, ch, i);
    case CodecConfigured => CompletedKeepsRelease(p, ch, i);
    case Enabling =>
    case Streaming =>
  }

  lemma AnsweredWhileReleasing(p: State, i: nat, state: AseState, report: Report)
    requires i < |p.ases| && p.releasing && !state.Disabling?
    ensures Answered(p, i, state, report) == p.(ases := p.ases[i := p.ases[i].(view := state)])
  {
  }

  /** A report that the player waits for from all, the last one: order is lost. */
  lemma LastReportLosesOrder(q: Sys, i: nat, ch: Choice, h: nat)
    requires Enabled(q, DeliverReport(i, ANY_REPORT, ch)) && ReleaseInFlight(q.player, h)
    requires q.player.current.InTransit? && q.player.releasing && !q.player.final.InTransit?
    requires Counts(q.servers[i].notifs[0])
    requires AllListedIn(Answered(q.player, i, q.servers[i].notifs[0], ANY_REPORT), q.servers[i].notifs[0])
    ensures !Orderly(Next(q, DeliverReport(i, ANY_REPORT, ch)))
  {
    var state, t := q.servers[i].notifs[0], Next(q, DeliverReport(i, ANY_REPORT, ch));
    AnsweredWhileReleasing(q.player, i, state, ANY_REPORT);
    var w := Answered(q.player, i, state, ANY_REPORT);
    assert ReleaseInFlight(w, h);
    EarlyTrigger(w, state, ch, h);
    assert ReleaseInFlight(t.player, h);
  }

  /** Any other report changes nothing but what the player has seen of its endpoint. */
  lemma OtherReportForm(q: Sys, i: nat, report: Report, ch: Choice)
    requires Enabled(q, DeliverReport(i, report, ch))
    requires q.player.current.InTransit? && q.player.releasing && !q.servers[i].notifs[0].Disabling?
    requires !(Counts(q.servers[i].notifs[0])
               && AllListedIn(Answered(q.player, i, q.servers[i].notifs[0], report), q.servers[i].notifs[0]))
    ensures var r, t := q.servers[i], Next(q, DeliverReport(i, report, ch));
            && t.player == q.player.(ases := q.player.ases[i := q.player.ases[i].(view := r.notifs[0])])
            && t.servers == q.servers[i := r.(notifs := r.notifs[1..])] && t.cigUp == q.cigUp && t.inband == q.inband
  {
    AnsweredWhileReleasing(q.player, i, q.servers[i].notifs[0], report);
  }

  lemma OtherReportDrivesOn(end: AseState, q: Sys, h: nat, i: nat, n: nat, ch: Choice)
    requires Driving(end, q, h) && Counts(end) && Enabled(q, DeliverReport(i, ANY_REPORT, ch))
    requires Listed(q.player, i) && Able(end, n, q.player.ases[i], q.servers[i])
    requires i == h ==> Holds(end, n, q.player.ases[i])
    requires q.player.ases[i].view != end && MovesByReport(n)
    requires !(Counts(q.servers[i].notifs[0])
               && AllListedIn(Answered(q.player, i, q.servers[i].notifs[0], ANY_REPORT), q.servers[i].notifs[0]))
    ensures DrivesOn(end, q, h, Next(q, DeliverReport(i, ANY_REPORT, ch)))
  {
    var t := Next(q, DeliverReport(i, ANY_REPORT, ch));
    ReportIsNearer(end, n, q.player.ases[i], q.servers[i]);
    OtherReportForm(q, i, ANY_REPORT, ch);
    AnsweredWhileReleasing(q.player, i, q.servers[i].notifs[0], ANY_REPORT);
    assert t.player == Answered(q.player, i, q.servers[i].notifs[0], ANY_REPORT);
    if AllListedIn(t.player, end) { ListedInMeansEach(t.player, end, i); }
    MoveDrivesOn(end, q, h, i, n, t);
  }

  lemma ReportDrivesOn(end: AseState, q: Sys, h: nat, i: nat, n: nat) returns (step: Step)
    requires Driving(end, q, h) && Counts(end)
    requires i < |q.servers| && Listed(q.player, i) && Able(end, n, q.player.ases[i], q.servers[i])
    requires i == h ==> Holds(end, n, q.player.ases[i])
    requires q.player.ases[i].view != end && MovesByReport(n)
    ensures IsDelivery(step) && Enabled(q, step) && DrivesOn(end, q, h, Next(q, step))
  {
    ReportIsNearer(end, n, q.player.ases[i], q.servers[i]);
    HolderHasRelease(end, q.player.ases[h], q.servers[h]);
    var ch, state := JustOne(i, q.inband), q.servers[i].notifs[0];
    var k :| 0 <= k < |q.player.slots| && q.player.slots[k] == Some(i);
    assert GoodChoice(q.player, ch);
    step := DeliverReport(i, ANY_REPORT, ch);
    if Counts(state) && AllListedIn(Answered(q.player, i, state, ANY_REPORT), state) {
      LastReportLosesOrder(q, i, ch, h);
    } else {
      OtherReportDrivesOn(end, q, h, i, n, ch);
    }
  }

  lemma OperationDrivesOn(end: AseState, q: Sys, h: nat, i: nat, n: nat)
    requires Driving(end, q, h) && !AllListedIn(q.player, end)
    requires i < |q.servers| && Listed(q.player, i) && Able(end, n, q.player.ases[i], q.servers[i])
    requires i == h ==> Holds(end, n, q.player.ases[i])
    requires q.player.ases[i].view != end && MovesByOperation(end, n)
    ensures Enabled(q, DeliverOperation(i)) && DrivesOn(end, q, h, Next(q, DeliverOperation(i)))
  {
    OperationIsNearer(end, n, q.player.ases[i], q.servers[i]);
    var t := Next(q, DeliverOperation(i));
    SameViewsSameAnswer(q.player, t.player, end);
    MoveDrivesOn(end, q, h, i, n, t);
  }

  lemma ProgressDrivesOn(end: AseState, q: Sys, h: nat, i: nat, n: nat) returns (step: Step)
    requires Driving(end, q, h) && !AllListedIn(q.player, end)
    requires i < |q.servers| && Listed(q.player, i) && Able(end, n, q.player.ases[i], q.servers[i])
    requires i == h ==> Holds(end, n, q.player.ases[i])
    requires q.player.ases[i].view != end && !MovesByReport(n) && !MovesByOperation(end, n)
    ensures IsDelivery(step) && Enabled(q, step) && DrivesOn(end, q, h, Next(q, step))
  {
    if n == 14 {
      step := FinishRelease(i);
      FinishIsNearer(end, n, q.player.ases[i], q.servers[i]);
    } else {
      step := Establish(i);
      EstablishIsNearer(n, q.player.ases[i], q.servers[i]);
    }
    MoveDrivesOn(end, q, h, i, n, Next(q, step));
  }

  lemma DriveStep(end: AseState, q: Sys, h: nat) returns (step: Step)
    requires Driving(end, q, h) && !AllListedIn(q.player, end) && Counts(end)
    ensures IsDelivery(step) && Enabled(q, step) && DrivesOn(end, q, h, Next(q, step))
  {
    var k :| 0 <= k < |q.player.slots| && q.player.slots[k].Some? && q.player.ases[q.player.slots[k].value].view != end;
    var i := q.player.slots[k].value;
    assert Listed(q.player, i);
    var n: nat;
    if i == h {
      n :| Able(end, n, q.player.ases[i], q.servers[i]) && Holds(end, n, q.player.ases[i]);
    } else {
      n :| Able(end, n, q.player.ases[i], q.servers[i]);
    }
    if MovesByReport(n) {
      step := ReportDrivesOn(end, q, h, i, n);
    } else if MovesByOperation(end, n) {
      step := DeliverOperation(i);
      OperationDrivesOn(end, q, h, i, n);
    } else {
      step := ProgressDrivesOn(end, q, h, i, n);
    }
  }

  /** So order can be lost. */
  lemma {:induction false} DriveLosesOrder(end: AseState, q: Sys, h: nat) returns (steps: seq<Step>, t: Sys)
    requires Driving(end, q, h) && !AllListedIn(q.player, end) && Counts(end)
    ensures Deliveries(steps) && Run(q, steps, t) && !Orderly(t)
    decreases Efforts(end, q.player.ases, q.servers)
  {
    var step := DriveStep(end, q, h);
    var m := Next(q, step);
    var rest: seq<Step>;
    if Orderly(m) {
      rest, t := DriveLosesOrder(end, m, h);
    } else {
      rest, t := [], m;
    }
    Prepend(q, step, rest, t);
    steps := [step] + rest;
  }

  // ---- A stop that stays in order ----

  /** The Release comes last, and after it nothing. */
  predicate Quits(a: Ase, r: Server) {
    && (|| a.outbox == [] || a.outbox == [Release]
        || a.outbox == [ConfigCodec, Release] || a.outbox == [ConfigQos, Release] || a.outbox == [Enable, Release])
    && (r.state.Releasing? ==> a.outbox == [])
    && !r.state.Disabling? && Disabling !in r.notifs
  }

  /** It will not be seen Enabling or Streaming any more. */
  predicate NeverStreams(a: Ase, r: Server) {
    && Enable !in a.outbox && !r.state.Enabling? && !r.state.Streaming?
    && !a.view.Enabling? && !a.view.Streaming? && Enabling !in r.notifs && Streaming !in r.notifs
  }

  /** Nor in `end`, one of the states in which a release ends. */
  predicate NeverShows(end: AseState, a: Ase, r: Server) {
    && IsReleaseTarget(end) && (end.CodecConfigured? ==> ConfigCodec !in a.outbox) && Target(r) != end
    && a.view != end && end !in r.notifs
  }

  /** It is seen Idle only when its release is over. */
  predicate IdleIsDone(a: Ase, r: Server) {
    && (a.view.Idle? ==> AtRest(a, r))
    && forall k :: 0 <= k < |r.notifs| && r.notifs[k].Idle? ==> k == |r.notifs| - 1 && a.outbox == [] && r.state.Idle?
  }

  /** One move from `(a, r)` to `(b, t)` keeps whatever of this holds. */
  predicate Keeps(a: Ase, r: Server, b: Ase, t: Server) {
    && Quits(b, t)
    && (NeverStreams(a, r) ==> NeverStreams(b, t))
    && (NeverShows(Idle, a, r) ==> NeverShows(Idle, b, t))
    && (NeverShows(CodecConfigured, a, r) ==> NeverShows(CodecConfigured, b, t))
    && (IdleIsDone(a, r) ==> IdleIsDone(b, t))
  }

  lemma RejectedKeeps(a: Ase, r: Server)
    requires Quits(a, r) && a.outbox != []
    ensures Keeps(a, r, a.(outbox := a.outbox[1..]), r)
  {
  }

  lemma AcceptedKeeps(a: Ase, r: Server, state: AseState)
    requires Quits(a, r) && a.outbox != [] && Transition(a.dir, r.state, a.outbox[0]) == Some(state)
    ensures Keeps(a, r, a.(outbox := a.outbox[1..]), Entered(r, state))
  {
    assert a.outbox[0] in a.outbox;
  }

  lemma ReportKeeps(a: Ase, r: Server)
    requires Quits(a, r) && r.notifs != []
    ensures !r.notifs[0].Disabling?
    ensures Keeps(a, r, a.(view := r.notifs[0]), r.(notifs := r.notifs[1..]))
  {
    assert r.notifs[0] in r.notifs;
  }

  lemma EstablishKeeps(a: Ase, r: Server)
    requires Quits(a, r) && r.state.Enabling?
    ensures Keeps(a, r, a, Entered(r, Streaming))
  {
  }

  lemma FinishKeeps(a: Ase, r: Server)
    requires Quits(a, r) && r.state.Releasing?
    ensures Keeps(a, r, a, Entered(r, Target(r)))
  {
  }

  /** A stop under way. `j` blocks Enabling and Streaming, `c` Codec Configured; Idle is blocked by
      `d`, or shown by an endpoint only when its release is over. */
  ghost predicate Stopping(q: Sys, j: nat, c: nat, d: Option<nat>) {
    && |q.servers| == |q.player.ases| && Valid(q.player) && Finishing(q.player)
    && (q.player.ringing ==> q.inband)
    && (forall i :: 0 <= i < |q.servers| ==>
          if Listed(q.player, i) then Quits(q.player.ases[i], q.servers[i]) else AtRest(q.player.ases[i], q.servers[i]))
    && j < |q.servers| && Listed(q.player, j) && NeverStreams(q.player.ases[j], q.servers[j])
    && c < |q.servers| && Listed(q.player, c) && NeverShows(CodecConfigured, q.player.ases[c], q.servers[c])
    && if d.Some? then
         d.value < |q.servers| && Listed(q.player, d.value) && NeverShows(Idle, q.player.ases[d.value], q.servers[d.value])
       else
         forall i :: 0 <= i < |q.servers| && Listed(q.player, i) ==> IdleIsDone(q.player.ases[i], q.servers[i])
  }

  lemma StoppingIsOrderly(q: Sys, j: nat, c: nat, d: Option<nat>)
    requires Stopping(q, j, c, d)
    ensures Orderly(q)
  {
    forall i: nat | ReleaseInFlight(q.player, i)
      ensures Listed(q.player, i)
    {
      assert AtRest(q.player.ases[i], q.servers[i]) || Listed(q.player, i);
    }
  }

  lemma MoveKeepsStopping(q: Sys, j: nat, c: nat, d: Option<nat>, i: nat, t: Sys)
    requires Stopping(q, j, c, d) && i < |q.servers| && Listed(q.player, i)
    requires |t.servers| == |q.servers| && |t.player.ases| == |q.player.ases| && t.inband == q.inband
    requires t.player == q.player.(ases := t.player.ases)
    requires forall k :: 0 <= k < |q.servers| && k != i ==>
               t.player.ases[k] == q.player.ases[k] && t.servers[k] == q.servers[k]
    requires Keeps(q.player.ases[i], q.servers[i], t.player.ases[i], t.servers[i])
    ensures Stopping(t, j, c, d)
  {
    assert forall k :: Listed(t.player, k) == Listed(q.player, k);
  }

  /** Only endpoints on the list move. */
  lemma MoverIsListed(q: Sys, j: nat, c: nat, d: Option<nat>, step: Step)
    requires Stopping(q, j, c, d) && IsDelivery(step) && Enabled(q, step)
    ensures Listed(q.player, step.i) && Quits(q.player.ases[step.i], q.servers[step.i])
  {
    assert AtRest(q.player.ases[step.i], q.servers[step.i]) || Listed(q.player, step.i);
  }

  lemma OperationKeepsStopping(q: Sys, j: nat, c: nat, d: Option<nat>, i: nat)
    requires Stopping(q, j, c, d) && Enabled(q, DeliverOperation(i))
    ensures Stopping(Next(q, DeliverOperation(i)), j, c, d)
  {
    MoverIsListed(q, j, c, d, DeliverOperation(i));
    if Outcome(q, i).Some? {
      AcceptedKeeps(q.player.ases[i], q.servers[i], Outcome(q, i).value);
    } else {
      RejectedKeeps(q.player.ases[i], q.servers[i]);
    }
    MoveKeepsStopping(q, j, c, d, i, Next(q, DeliverOperation(i)));
  }

  lemma ProgressKeepsStopping(q: Sys, j: nat, c: nat, d: Option<nat>, step: Step)
    requires Stopping(q, j, c, d) && Enabled(q, step) && (step.Establish? || step.FinishRelease?)
    ensures Stopping(Next(q, step), j, c, d)
  {
    MoverIsListed(q, j, c, d, step);
    if step.Establish? {
      EstablishKeeps(q.player.ases[step.i], q.servers[step.i]);
    } else {
      FinishKeeps(q.player.ases[step.i], q.servers[step.i]);
    }
    MoveKeepsStopping(q, j, c, d, step.i, Next(q, step));
  }

  /** The system with a report taken in, and nothing else. */
  function Seen(q: Sys, i: nat): Sys
    requires |q.servers| == |q.player.ases| && i < |q.servers| && q.servers[i].notifs != []
  {
    var a, r := q.player.ases[i], q.servers[i];
    q.(player := q.player.(ases := q.player.ases[i := a.(view := r.notifs[0])]),
       servers := q.servers[i := r.(notifs := r.notifs[1..])])
  }

  lemma SeenIsStopping(q: Sys, j: nat, c: nat, d: Option<nat>, i: nat)
    requires Stopping(q, j, c, d) && i < |q.servers| && q.servers[i].notifs != [] && Listed(q.player, i)
    ensures !q.servers[i].notifs[0].Disabling? && Stopping(Seen(q, i), j, c, d)
  {
    ReportKeeps(q.player.ases[i], q.servers[i]);
    MoveKeepsStopping(q, j, c, d, i, Seen(q, i));
  }

  /** The only report that ends a stop in order is the last Idle one, when all is done. */
  lemma OnlyIdleEnds(q: Sys, j: nat, c: nat, d: Option<nat>, state: AseState)
    requires Stopping(q, j, c, d) && AllListedIn(q.player, state) && Counts(state)
    ensures state.Idle? && d.None? && AllAtRest(q.player, q.servers)
  {
    ListedInMeansEach(q.player, state, j);
    ListedInMeansEach(q.player, state, c);
    if d.Some? { ListedInMeansEach(q.player, state, d.value); }
    forall i | 0 <= i < |q.servers|
      ensures AtRest(q.player.ases[i], q.servers[i])
    {
      if Listed(q.player, i) { ListedInMeansEach(q.player, state, i); }
    }
  }

  lemma StopEnds(q: Sys, w: State, servers: seq<Server>, ch: Choice)
    requires AllAtRest(w, servers) && Valid(w) && Finishing(w) && (w.ringing ==> q.inband)
    requires GoodChoice(w, ch) && ch.inband == q.inband
    ensures Inv(Sys(ReleaseCompleted(w, ch), servers, false, q.inband))
  {
    ReleaseKeepsModes(w, ch);
    ReleaseCompletes(w, servers, q.inband, ch);
  }

  lemma ReportKeepsStopping(q: Sys, j: nat, c: nat, d: Option<nat>, i: nat, report: Report, ch: Choice)
    requires Stopping(q, j, c, d) && Enabled(q, DeliverReport(i, report, ch))
    ensures var t := Next(q, DeliverReport(i, report, ch)); Stopping(t, j, c, d) || Inv(t)
  {
    MoverIsListed(q, j, c, d, DeliverReport(i, report, ch));
    SeenIsStopping(q, j, c, d, i);
    var state, v, t := q.servers[i].notifs[0], Seen(q, i), Next(q, DeliverReport(i, report, ch));
    AnsweredWhileReleasing(q.player, i, state, report);
    assert Answered(q.player, i, state, report) == v.player;
    if Counts(state) && AllListedIn(v.player, state) {
      OnlyIdleEnds(v, j, c, d, state);
      LastIdleForm(q, i, report, ch);
      StopEnds(v, v.player, v.servers, ch);
    } else {
      OtherReportForm(q, i, report, ch);
    }
  }

  lemma LastIdleForm(q: Sys, i: nat, report: Report, ch: Choice)
    requires Enabled(q, DeliverReport(i, report, ch)) && q.servers[i].notifs[0].Idle?
    requires q.player.current.InTransit? && q.player.releasing && AllListedIn(Seen(q, i).player, Idle)
    ensures var v := Seen(q, i);
            Next(q, DeliverReport(i, report, ch)) == Sys(ReleaseCompleted(v.player, ch), v.servers, false, q.inband)
  {
    AnsweredWhileReleasing(q.player, i, Idle, report);
    ReleaseStops(Seen(q, i).player, ch);
  }

  lemma DeliveryKeepsStopping(q: Sys, j: nat, c: nat, d: Option<nat>, step: Step)
    requires Stopping(q, j, c, d) && IsDelivery(step) && Enabled(q, step)
    ensures Stopping(Next(q, step), j, c, d) || Inv(Next(q, step))
  {
    match step
    case DeliverOperation(i) => OperationKeepsStopping(q, j, c, d, i);
    case DeliverReport(i, report, ch) => ReportKeepsStopping(q, j, c, d, i, report, ch);
    case _ => ProgressKeepsStopping(q, j, c, d, step);
  }

  lemma {:induction false} StoppingRunIsOrderly(q: Sys, j: nat, c: nat, d: Option<nat>, steps: seq<Step>, t: Sys)
    requires Stopping(q, j, c, d) && Deliveries(steps) && Run(q, steps, t)
    ensures Orderly(t)
    decreases |steps|
  {
    if steps == [] {
      StoppingIsOrderly(q, j, c, d);
    } else {
      var m := Next(q, steps[0]);
      DeliveryKeepsStopping(q, j, c, d, steps[0]);
      if Inv(m) {
        DeliveriesAreBounded(m, steps[1..], t);
        InvIsOrderly(t);
      } else {
        StoppingRunIsOrderly(m, j, c, d, steps[1..], t);
      }
    }
  }

  // ---- The exact condition ----

  /** `q` is `s` with a stop requested. */
  ghost predicate StopBegins(s: Sys, q: Sys) {
    && |s.servers| == |s.player.ases| == |q.player.ases|
    && q.servers == s.servers && q.inband == s.inband && q.cigUp && q.player.slots == s.player.slots
    && Valid(q.player) && Finishing(q.player) && (q.player.ringing ==> q.inband)
    && forall i :: 0 <= i < |s.servers| ==>
         q.player.ases[i] == if Listed(s.player, i) then s.player.ases[i].(outbox := s.player.ases[i].outbox + [Release])
                             else s.player.ases[i]
  }

  lemma EndFinishes(s: Sys, e: Event)
    requires Inv(s) && PhaseOf(s.player).Live? && Enabled(s, Request(e)) && Ends(s.player, e)
    ensures var t := Next(s, Request(e)).player; Finishing(t) && (t.ringing ==> s.player.ringing)
  {
    EndIsStop(s, e);
    MovedOnForm(s.player, NoMode, None);
    CallStoppedForm(s.player);
  }

  lemma PreemptionFinishes(s: Sys, e: Event)
    requires Inv(s) && PhaseOf(s.player).Live? && Enabled(s, Request(e)) && Preempts(s.player, e)
    ensures var t := Next(s, Request(e)).player; Finishing(t) && (t.ringing ==> s.player.ringing)
  {
    StartWhileLiveForm(s, e);
    MovedOnForm(s.player, AudioModeRuns.StartedMode(e), Some(AudioModeRuns.StartedConfig(e)));
  }

  lemma StopIsBegun(s: Sys, e: Event)
    requires Inv(s) && PhaseOf(s.player).Live? && Enabled(s, Request(e)) && (Ends(s.player, e) || Preempts(s.player, e))
    ensures StopBegins(s, Next(s, Request(e)))
  {
    StopForm(s, e);
    if Ends(s.player, e) { EndFinishes(s, e); } else { PreemptionFinishes(s, e); }
    StoppedForm(s.player);
  }

  lemma ListedIsStaged(s: Sys, q: Sys, i: nat)
    requires Inv(s) && PhaseOf(s.player).Live? && StopBegins(s, q) && i < |s.servers| && Listed(s.player, i)
    ensures var v, a, r := s.player.ases[i].view, q.player.ases[i], q.servers[i];
            && a.view == v
            && (v.Idle? ==> Stage(1, a, r) || Stage(2, a, r))
            && (v.CodecConfigured? ==> StagedIn(1, 5, a, r))
            && (!v.Idle? && !v.CodecConfigured? ==>
                  StagedIn(7, 12, a, r) && (v.QosConfigured? || v.Enabling? || v.Streaming?))
  {
    assert AseOk(s.player, i, s.servers[i]);
    StoppedIsStaged(s.player.ases[i], s.servers[i]);
  }

  lemma StagedCanShow(end: AseState, a: Ase, r: Server)
    requires IsReleaseTarget(end) && CanShow(end, a.view)
    requires a.view.Idle? ==> Stage(1, a, r) || Stage(2, a, r)
    requires a.view.CodecConfigured? ==> StagedIn(1, 5, a, r)
    ensures HoldsSome(end, a, r) && AbleSome(end, a, r)
  {
    var n: nat;
    if a.view.Idle? {
      n := if Stage(1, a, r) then 1 else 2;
    } else {
      n :| 1 <= n <= 5 && Stage(n, a, r);
    }
    assert Able(end, n, a, r) && Holds(end, n, a);
  }

  lemma StagedIsAble(end: AseState, a: Ase, r: Server, lo: nat, hi: nat)
    requires IsReleaseTarget(end) && Target(r) == end && StagedIn(lo, hi, a, r)
    ensures AbleSome(end, a, r)
  {
    var n :| lo <= n <= hi && Stage(n, a, r);
    assert Able(end, n, a, r);
  }

  lemma EachCanBeDriven(s: Sys, q: Sys, end: AseState, i: nat)
    requires Inv(s) && PhaseOf(s.player).Live? && StopBegins(s, q) && IsReleaseTarget(end)
    requires i < |s.servers| && Listed(s.player, i)
    requires CanShow(end, s.player.ases[i].view) || Target(s.servers[i]) == end
    ensures AbleSome(end, q.player.ases[i], q.servers[i])
    ensures CanShow(end, s.player.ases[i].view) ==> HoldsSome(end, q.player.ases[i], q.servers[i])
  {
    ListedIsStaged(s, q, i);
    if CanShow(end, s.player.ases[i].view) {
      StagedCanShow(end, q.player.ases[i], q.servers[i]);
    } else if s.player.ases[i].view.Idle? || s.player.ases[i].view.CodecConfigured? {
      assert StagedIn(1, 5, q.player.ases[i], q.servers[i]);
      StagedIsAble(end, q.player.ases[i], q.servers[i], 1, 5);
    } else {
      StagedIsAble(end, q.player.ases[i], q.servers[i], 7, 12);
    }
  }

  lemma EarlyEndDrives(s: Sys, q: Sys, end: AseState) returns (h: nat)
    requires Inv(s) && PhaseOf(s.player).Live? && HasOnAir(s) && StopBegins(s, q)
    requires IsReleaseTarget(end) && CanEndEarly(s, end)
    ensures Driving(end, q, h) && !AllListedIn(q.player, end)
  {
    h :| h < |s.servers| && Listed(s.player, h) && CanShow(end, s.player.ases[h].view);
    forall i | 0 <= i < |q.servers| && Listed(q.player, i)
      ensures AbleSome(end, q.player.ases[i], q.servers[i])
    {
      assert Listed(s.player, i);
      EachCanBeDriven(s, q, end, i);
    }
    EachCanBeDriven(s, q, end, h);
    var k :| 0 <= k < |s.servers| && Listed(s.player, k) && IsLive(s.player.ases[k], s.servers[k]);
    assert Listed(q.player, h) && Listed(q.player, k);
    NotAllIn(q.player, k, end);
  }

  lemma StreamingDrives(s: Sys, q: Sys) returns (h: nat)
    requires Inv(s) && PhaseOf(s.player).Live? && StopBegins(s, q)
    requires AllCanStream(s.player) && !AllListedIn(s.player, Streaming)
    ensures Driving(Streaming, q, h) && !AllListedIn(q.player, Streaming)
  {
    h := FirstListed(s);
    forall i | 0 <= i < |q.servers| && Listed(q.player, i)
      ensures AbleSome(Streaming, q.player.ases[i], q.servers[i])
      ensures HoldsSome(Streaming, q.player.ases[i], q.servers[i])
    {
      assert Listed(s.player, i);
      ListedIsStaged(s, q, i);
      var n :| 7 <= n <= 12 && Stage(n, q.player.ases[i], q.servers[i]);
      assert Able(Streaming, n, q.player.ases[i], q.servers[i]) && Holds(Streaming, n, q.player.ases[i]);
    }
    assert Listed(q.player, h);
    SameViewsSameAnswer(s.player, q.player, Streaming);
  }

  lemma UncleanStopLosesOrder(s: Sys, q: Sys) returns (steps: seq<Step>, t: Sys)
    requires Inv(s) && PhaseOf(s.player).Live? && HasOnAir(s) && StopBegins(s, q) && !StopsCleanly(s)
    ensures Deliveries(steps) && Run(q, steps, t) && !Orderly(t)
  {
    var h: nat;
    if AllCanStream(s.player) {
      h := StreamingDrives(s, q);
      steps, t := DriveLosesOrder(Streaming, q, h);
    } else {
      var end := if CanEndEarly(s, Idle) then Idle else CodecConfigured;
      h := EarlyEndDrives(s, q, end);
      steps, t := DriveLosesOrder(end, q, h);
    }
  }

  lemma StagedQuits(n: nat, a: Ase, r: Server)
    requires 1 <= n <= 12 && Stage(n, a, r)
    ensures Quits(a, r)
    ensures n <= 5 ==> NeverStreams(a, r)
    ensures n >= 7 && !r.caches ==> NeverShows(CodecConfigured, a, r)
    ensures !a.view.Idle? ==> IdleIsDone(a, r) && (r.caches ==> NeverShows(Idle, a, r))
  {
  }

  lemma ListedQuits(s: Sys, q: Sys, i: nat)
    requires Inv(s) && PhaseOf(s.player).Live? && StopBegins(s, q) && i < |s.servers| && Listed(s.player, i)
    ensures var v, a, r := s.player.ases[i].view, q.player.ases[i], q.servers[i];
            && Quits(a, r)
            && (v.Idle? || v.CodecConfigured? ==> NeverStreams(a, r))
            && (!v.Idle? && !v.CodecConfigured? && !r.caches ==> NeverShows(CodecConfigured, a, r))
            && (!v.Idle? ==> IdleIsDone(a, r) && (r.caches ==> NeverShows(Idle, a, r)))
  {
    ListedIsStaged(s, q, i);
    var a, r := q.player.ases[i], q.servers[i];
    var n: nat;
    if a.view.Idle? {
      n := if Stage(1, a, r) then 1 else 2;
    } else if a.view.CodecConfigured? {
      n :| 1 <= n <= 5 && Stage(n, a, r);
    } else {
      n :| 7 <= n <= 12 && Stage(n, a, r);
    }
    StagedQuits(n, a, r);
  }

  lemma CleanStopIsStopping(s: Sys, q: Sys) returns (j: nat, c: nat, d: Option<nat>)
    requires Inv(s) && PhaseOf(s.player).Live? && StopBegins(s, q) && !AllCanStream(s.player)
    requires !CanEndEarly(s, Idle) && !CanEndEarly(s, CodecConfigured)
    ensures Stopping(q, j, c, d)
  {
    j :| j < |s.servers| && Listed(s.player, j) && (s.player.ases[j].view.Idle? || s.player.ases[j].view.CodecConfigured?);
    assert CanShow(CodecConfigured, s.player.ases[j].view);
    c :| c < |s.servers| && Listed(s.player, c)
         && !CanShow(CodecConfigured, s.player.ases[c].view) && Target(s.servers[c]) != CodecConfigured;
    d := None;
    if h :| 0 <= h < |s.servers| && Listed(s.player, h) && CanShow(Idle, s.player.ases[h].view) {
      var i: nat :| i < |s.servers| && Listed(s.player, i)
                    && !CanShow(Idle, s.player.ases[i].view) && Target(s.servers[i]) != Idle;
      d := Some(i);
    }
    forall i | 0 <= i < |q.servers|
      ensures if Listed(q.player, i) then Quits(q.player.ases[i], q.servers[i])
              else AtRest(q.player.ases[i], q.servers[i])
      ensures Listed(q.player, i) && d.None? ==> IdleIsDone(q.player.ases[i], q.servers[i])
    {
      assert Listed(q.player, i) == Listed(s.player, i);
      assert AseOk(s.player, i, s.servers[i]);
      if Listed(s.player, i) { ListedQuits(s, q, i); }
    }
    ListedQuits(s, q, j);
    ListedQuits(s, q, c);
    if d.Some? { ListedQuits(s, q, d.value); }
    assert Listed(q.player, j) && Listed(q.player, c) && (d.Some? ==> Listed(q.player, d.value));
  }

  lemma CleanStopStaysOrderly(s: Sys, e: Event)
    requires Inv(s) && PhaseOf(s.player).Live? && StopsCleanly(s)
    requires Enabled(s, Request(e)) && (Ends(s.player, e) || Preempts(s.player, e))
    ensures StaysOrderly(Next(s, Request(e)))
  {
    var q := Next(s, Request(e));
    if AllListedIn(s.player, Streaming) {
      StopForm(s, e);
      RequestKeepsInv(s, e);
      InvStaysOrderly(q);
    } else {
      StopIsBegun(s, e);
      var j, c, d := CleanStopIsStopping(s, q);
      forall steps, t | Deliveries(steps) && Run(q, steps, t)
        ensures Orderly(t)
      {
        StoppingRunIsOrderly(q, j, c, d, steps, t);
      }
    }
  }

  /** The exact condition for a stop or a pre-emption in any live state, by what the player has
      seen of the listed endpoints and where they end a release: whatever is delivered, a Release
      on its way belongs to a release that the player is in transit for and to an endpoint on its
      list, if and only if the state stops cleanly. */
  lemma StopIsOrderlyIff(s: Sys, e: Event)
    requires Inv(s) && PhaseOf(s.player).Live? && HasOnAir(s)
    requires Enabled(s, Request(e)) && (Ends(s.player, e) || Preempts(s.player, e))
    ensures StaysOrderly(Next(s, Request(e))) <==> StopsCleanly(s)
  {
    if StopsCleanly(s) {
      CleanStopStaysOrderly(s, e);
    } else {
      StopIsBegun(s, e);
      var steps, t := UncleanStopLosesOrder(s, Next(s, Request(e)));
      assert Deliveries(steps) && Run(Next(s, Request(e)), steps, t) && !Orderly(t);
    }
  }

  /** With no endpoint joining, a state stops cleanly exactly if all endpoints stream. */
  lemma NoneJoiningStopsCleanlyIff(s: Sys)
    requires Inv(s) && PhaseOf(s.player).Live? && NoneJoining(s)
    ensures HasOnAir(s) && (StopsCleanly(s) <==> AllListedIn(s.player, Streaming))
  {
    var i := FirstListed(s);
    assert IsLive(s.player.ases[i], s.servers[i]);
    forall i | 0 <= i < |s.player.ases| && Listed(s.player, i)
      ensures !s.player.ases[i].view.Idle? && !s.player.ases[i].view.CodecConfigured?
    {
      assert IsLive(s.player.ases[i], s.servers[i]);
    }
  }

  // ---- Some endpoint is on air on every run ----

  ghost predicate OnAirIfLive(s: Sys) {
    PhaseOf(s.player).Live? ==> HasOnAir(s)
  }

  lemma SameEndpointStaysOnAir(s: Sys, t: Sys, i: nat)
    requires |s.servers| == |s.player.ases| == |t.servers| == |t.player.ases| && i < |s.servers|
    requires Listed(s.player, i) ==> Listed(t.player, i)
    requires Listed(s.player, i) && IsLive(s.player.ases[i], s.servers[i])
    requires IsLive(t.player.ases[i], t.servers[i])
    ensures HasOnAir(t)
  {
  }

  lemma LiveDeliveryKeepsOnAir(s: Sys, step: Step)
    requires Inv(s) && PhaseOf(s.player).Live? && HasOnAir(s) && IsDelivery(step) && Enabled(s, step)
    ensures HasOnAir(Next(s, step))
  {
    var t := Next(s, step);
    var i: nat :| i < |s.servers| && Listed(s.player, i) && IsLive(s.player.ases[i], s.servers[i]);
    if step.DeliverReport? {
      NoReportAtRest(s, step.i);
      ReportWhileLive(s, step.i, step.report, step.ch);
      assert AseOk(s.player, step.i, s.servers[step.i]);
      AnswerWhileLive(s.player, step.i, s.servers[step.i], step.report);
    } else if step.Establish? && step.i == i {
      assert [] + [Streaming] == [Streaming];
    }
    SameEndpointStaysOnAir(s, t, i);
  }

  lemma DeliveryKeepsOnAir(s: Sys, step: Step)
    requires Inv(s) && OnAirIfLive(s) && IsDelivery(step) && Enabled(s, step)
    ensures OnAirIfLive(Next(s, step))
  {
    var t := Next(s, step);
    DeliveryKeepsInv(s, step);
    if PhaseOf(s.player).Live? {
      LiveDeliveryKeepsOnAir(s, step);
    } else if PhaseOf(t.player).Live? {
      LiveIsSettledByReport(s, step);
      NoneJoiningStopsCleanlyIff(t);
    }
  }

  lemma LiveIsSettledByReport(s: Sys, step: Step)
    requires Inv(s) && IsDelivery(step) && Enabled(s, step)
    requires !PhaseOf(s.player).Live? && PhaseOf(Next(s, step).player).Live?
    ensures NoneJoining(Next(s, step))
  {
    if step.DeliverReport? {
      NoReportAtRest(s, step.i);
      match PhaseOf(s.player) {
        case Setup => SettledInSetup(s, step);
        case Closing => ClosingReportKeepsDestination(s, step.i, step.report, step.ch);
        case Stray => SettledReportIsSameJourney(s, step.i, step.report, step.ch);
      }
    } else {
      SamePhase(s.player, Next(s, step).player);
    }
  }

  predicate Unsettled(p: State) {
    p.current.NoMode? || p.current.InTransit?
  }

  lemma CallEndSettlesNothing(p: State, ch: Choice)
    requires Valid(p) && ValidPicks(p, ch.picks)
    ensures Unsettled(CallEnded(p, ch))
  {
  }

  lemma StartSettlesNothing(p: State, e: Event)
    requires Handles(p, e) && Unsettled(p) && (AudioModeRuns.IsStart(e) || AudioModeRuns.IsPlay(e))
    ensures Unsettled(Handled(p, e))
  {
  }

  /** No request settles a mode. */
  lemma RequestSettlesNothing(s: Sys, e: Event)
    requires Enabled(s, Request(e)) && Unsettled(s.player)
    ensures Unsettled(Next(s, Request(e)).player)
  {
    var p := s.player;
    if AudioModeRuns.IsStart(e) || AudioModeRuns.IsPlay(e) {
      StartSettlesNothing(p, e);
    } else if IsEnd(e) {
      CallEndSettlesNothing(p, e.ch);
    }
  }

  lemma AcceptLeavesListed(p: State, ch: Choice, i: nat)
    requires Valid(p) && Distinct(p) && Packed(p.slots) && GoodChoice(p, ch) && HasRoom(p, ch.picks)
    requires !(p.ringing && ch.inband) && NoneListed(p, ch.picks) && i < |p.ases| && Listed(p, i)
    ensures var t := CallAccepted(p, ch); Listed(t, i) && t.ases[i] == p.ases[i]
  {
    AcceptedForm(p, ch);
    ConfiguredForm(p, ch.picks);
    assert i !in ch.picks;
  }

  lemma AcceptKeepsOnAir(s: Sys, ch: Choice)
    requires Inv(s) && PhaseOf(s.player).Live? && HasOnAir(s) && Enabled(s, Request(AcceptCall(ch)))
    requires !Clashes(s.player, AcceptCall(ch))
    ensures HasOnAir(Next(s, Request(AcceptCall(ch))))
  {
    var t := Next(s, Request(AcceptCall(ch)));
    var i: nat :| i < |s.servers| && Listed(s.player, i) && IsLive(s.player.ases[i], s.servers[i]);
    assert t.player == CallAccepted(s.player, ch);
    if !(s.player.ringing && ch.inband) {
      AcceptLeavesListed(s.player, ch, i);
    }
    SameEndpointStaysOnAir(s, t, i);
  }

  lemma RequestKeepsOnAir(s: Sys, e: Event)
    requires Inv(s) && OnAirIfLive(s) && Enabled(s, Request(e)) && Calm(s.player, e)
    ensures OnAirIfLive(Next(s, Request(e)))
  {
    var p := s.player;
    if !PhaseOf(p).Live? {
      RequestSettlesNothing(s, e);
    } else if e.AcceptCall? {
      AcceptKeepsOnAir(s, e.ch);
    } else if AudioModeRuns.IsStart(e) {
      StartWhileLiveForm(s, e);
      MovedOnForm(p, AudioModeRuns.StartedMode(e), Some(AudioModeRuns.StartedConfig(e)));
    } else if IsEnd(e) {
      EndWhileLiveForm(s, e);
      CallStoppedForm(p);
    } else {
      StopWhileLiveForm(s, e);
      MovedOnForm(p, NoMode, None);
    }
  }

  lemma {:induction false} RunKeepsOnAir(s: Sys, steps: seq<Step>, t: Sys)
    requires Inv(s) && OnAirIfLive(s) && Run(s, steps, t) && Disciplined(s, steps)
    ensures Inv(t) && OnAirIfLive(t)
    decreases |steps|
  {
    if steps != [] {
      StepKeepsInv(s, steps[0]);
      if steps[0].Request? {
        RequestKeepsOnAir(s, steps[0].e);
      } else {
        DeliveryKeepsOnAir(s, steps[0]);
      }
      RunKeepsOnAir(Next(s, steps[0]), steps[1..], t);
    }
  }

  /** So the condition is exact in every live state that a disciplined run leads to. */
  lemma StopOnEveryRunIff(s: Sys, steps: seq<Step>, t: Sys, e: Event)
    requires Init(s) && Run(s, steps, t) && Disciplined(s, steps) && PhaseOf(t.player).Live?
    requires Enabled(t, Request(e)) && (Ends(t.player, e) || Preempts(t.player, e))
    ensures StaysOrderly(Next(t, Request(e))) <==> StopsCleanly(t)
  {
    InitHasInv(s);
    RunKeepsOnAir(s, steps, t);
    StopIsOrderlyIff(t, e);
  }
}
