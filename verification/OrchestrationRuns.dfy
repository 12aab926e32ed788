/** Set-up and release on whole runs: no operation is ever rejected, deliveries always come to
    an end, and where they end is known beforehand. */
module OrchestrationRuns {
  import opened Wrappers
  import opened QosNegotiation
  import opened AseControl
  import opened AudioMode
  import opened Orchestration
  import opened OrchestrationRequests

  ghost predicate Run(s: Sys, steps: seq<Step>, t: Sys)
    decreases |steps|
  {
    if steps == [] then s == t
    else Enabled(s, steps[0]) && Run(Next(s, steps[0]), steps[1..], t)
  }

  /** Every request of the run meets the discipline. */
  ghost predicate Disciplined(s: Sys, steps: seq<Step>)
    decreases |steps|
  {
    if steps == [] then true
    else
      && Enabled(s, steps[0])
      && (steps[0].Request? ==> Calm(s.player, steps[0].e))
      && Disciplined(Next(s, steps[0]), steps[1..])
  }

  predicate Deliveries(steps: seq<Step>) {
    forall k :: 0 <= k < |steps| ==> IsDelivery(steps[k])
  }

  lemma StepKeepsInv(s: Sys, step: Step)
    requires Inv(s) && Enabled(s, step) && (step.Request? ==> Calm(s.player, step.e))
    ensures Inv(Next(s, step))
  {
    if step.Request? {
      RequestKeepsInv(s, step.e);
    } else {
      DeliveryKeepsInv(s, step);
    }
  }

  lemma {:induction false} DisciplinedRunKeepsInv(s: Sys, steps: seq<Step>, t: Sys)
    requires Inv(s) && Run(s, steps, t) && Disciplined(s, steps)
    ensures Inv(t)
    decreases |steps|
  {
    if steps != [] {
      StepKeepsInv(s, steps[0]);
      DisciplinedRunKeepsInv(Next(s, steps[0]), steps[1..], t);
    }
  }

  /** Under the discipline no Config Codec, Config QoS, Enable or Release is rejected, whatever is
      requested, calls included, and however operations and reports interleave. */
  lemma NothingIsEverRejected(s: Sys, steps: seq<Step>, t: Sys, i: nat)
    requires Init(s) && Run(s, steps, t) && Disciplined(s, steps)
    requires Enabled(t, DeliverOperation(i))
    ensures Outcome(t, i).Some?
  {
    InitHasInv(s);
    DisciplinedRunKeepsInv(s, steps, t);
    NoRejection(t, i);
  }

  /** Under the discipline a paused mode never ranks above the mode that paused it. */
  lemma PausedNeverOutranks(s: Sys, steps: seq<Step>, t: Sys)
    requires Init(s) && Run(s, steps, t) && Disciplined(s, steps)
    ensures t.player.paused.NoMode? || Effective(t.player).NoMode?
            || Level(t.player.paused) <= Level(Effective(t.player))
  {
    InitHasInv(s);
    DisciplinedRunKeepsInv(s, steps, t);
  }

  // ---- Distance to rest ----

  function OperationWeight(opcode: AseOpcode): nat {
    match opcode
    case ConfigCodec => 8
    case ConfigQos => 6
    case Enable => 4
    case _ => 0
  }

  /** An endpoint that is established before its Enabling report is in has one step less to go. */
  function ReportWeight(notifs: seq<AseState>): nat
    requires notifs != []
  {
    match notifs[0]
    case CodecConfigured => 7
    case QosConfigured => 5
    case Enabling => if |notifs| == 1 then 3 else 2
    case Streaming => 1
    case _ => 0
  }

  /** How many deliveries one endpoint is from rest, at most. */
  function Weight(closing: bool, a: Ase, r: Server): nat {
    if closing then 4 * |a.outbox| + |r.notifs| + (if r.state.Releasing? then 2 else 0)
    else if a.outbox != [] then OperationWeight(a.outbox[0])
    else if r.notifs != [] then ReportWeight(r.notifs)
    else if r.state.Enabling? then 2
    else 0
  }

  function Total(closing: bool, ases: seq<Ase>, servers: seq<Server>): nat
    requires |ases| == |servers|
  {
    if ases == [] then 0 else Weight(closing, ases[0], servers[0]) + Total(closing, ases[1..], servers[1..])
  }

  lemma {:induction false} TotalDrops(closing: bool, ases: seq<Ase>, servers: seq<Server>,
                                      ases': seq<Ase>, servers': seq<Server>, i: nat)
    requires |ases| == |servers| == |ases'| == |servers'| && i < |ases|
    requires forall j :: 0 <= j < |ases| && j != i ==> ases'[j] == ases[j] && servers'[j] == servers[j]
    requires Weight(closing, ases'[i], servers'[i]) < Weight(closing, ases[i], servers[i])
    ensures Total(closing, ases', servers') < Total(closing, ases, servers)
    decreases i
  {
    if i == 0 {
      assert ases'[1..] == ases[1..] && servers'[1..] == servers[1..];
    } else {
      TotalDrops(closing, ases[1..], servers[1..], ases'[1..], servers'[1..], i - 1);
    }
  }

  lemma {:induction false} TotalIsBounded(ases: seq<Ase>, servers: seq<Server>)
    requires |ases| == |servers|
    ensures Total(false, ases, servers) <= 8 * |ases|
    decreases |ases|
  {
    if ases != [] {
      TotalIsBounded(ases[1..], servers[1..]);
    }
  }

  function Distance(s: Sys): nat
    requires |s.servers| == |s.player.ases|
  {
    var closing := PhaseOf(s.player).Closing?;
    (if closing then 8 * |s.servers| + 1 else 0) + Total(closing, s.player.ases, s.servers)
  }

  /** One endpoint moves, the others do not, and the release is no nearer to its start. */
  lemma MoveDecreases(s: Sys, t: Sys, i: nat)
    requires |s.servers| == |s.player.ases| == |t.servers| == |t.player.ases| && i < |s.servers|
    requires PhaseOf(s.player).Closing? == PhaseOf(t.player).Closing?
    requires forall j :: 0 <= j < |s.servers| && j != i ==>
               t.player.ases[j] == s.player.ases[j] && t.servers[j] == s.servers[j]
    requires var closing := PhaseOf(s.player).Closing?;
             Weight(closing, t.player.ases[i], t.servers[i]) < Weight(closing, s.player.ases[i], s.servers[i])
    ensures Distance(t) < Distance(s)
  {
    TotalDrops(PhaseOf(s.player).Closing?, s.player.ases, s.servers, t.player.ases, t.servers, i);
  }

  /** A report that is only answered. */
  lemma AnsweredDecreases(s: Sys, i: nat, report: Report, ch: Choice)
    requires |s.servers| == |s.player.ases| && Enabled(s, DeliverReport(i, report, ch))
    requires var p, r := s.player, s.servers[i];
             var w := Answered(p, i, r.notifs[0], report);
             && Next(s, DeliverReport(i, report, ch)).player == w && w == p.(ases := w.ases, stream := w.stream)
             && var closing := PhaseOf(p).Closing?;
                Weight(closing, w.ases[i], r.(notifs := r.notifs[1..])) < Weight(closing, p.ases[i], r)
    ensures Distance(Next(s, DeliverReport(i, report, ch))) < Distance(s)
  {
    SamePhase(s.player, Next(s, DeliverReport(i, report, ch)).player);
    MoveDecreases(s, Next(s, DeliverReport(i, report, ch)), i);
  }

  lemma AnswerInSetupWeighsLess(p: State, i: nat, r: Server, report: Report)
    requires i < |p.ases| && !p.releasing && InSetup(p.ases[i], r) && r.notifs != []
    ensures Weight(false, Answered(p, i, r.notifs[0], report).ases[i], r.(notifs := r.notifs[1..]))
            < Weight(false, p.ases[i], r)
  {
    assert r.notifs[1..] == [];
  }

  lemma LastReportInSetupDecreases(s: Sys, i: nat, report: Report, ch: Choice)
    requires Inv(s) && PhaseOf(s.player).Setup? && Enabled(s, DeliverReport(i, report, ch))
    requires AllListedIn(Answered(s.player, i, s.servers[i].notifs[0], report), Enabling)
    ensures Distance(Next(s, DeliverReport(i, report, ch))) < Distance(s)
  {
    var p, r := s.player, s.servers[i];
    assert AseOk(p, i, r) && Listed(p, i);
    AnswerInSetupWeighsLess(p, i, r, report);
    LastReportInSetup(s, i, report, ch);
    MoveDecreases(s, Next(s, DeliverReport(i, report, ch)), i);
  }

  lemma ReportInSetupDecreases(s: Sys, i: nat, report: Report, ch: Choice)
    requires Inv(s) && PhaseOf(s.player).Setup? && Enabled(s, DeliverReport(i, report, ch))
    ensures Distance(Next(s, DeliverReport(i, report, ch))) < Distance(s)
  {
    var p, r := s.player, s.servers[i];
    assert AseOk(p, i, r) && Listed(p, i);
    if AllListedIn(Answered(p, i, r.notifs[0], report), Enabling) {
      LastReportInSetupDecreases(s, i, report, ch);
    } else {
      AnswerInSetup(p, i, r, report);
      AnswerInSetupWeighsLess(p, i, r, report);
      EarlyReportInSetup(s, i, report, ch);
      AnsweredDecreases(s, i, report, ch);
    }
  }

  lemma AnswerWhileLiveWeighsLess(p: State, i: nat, r: Server, report: Report)
    requires i < |p.ases| && !p.releasing && (IsLive(p.ases[i], r) || IsJoining(p.ases[i], r)) && r.notifs != []
    ensures Weight(false, Answered(p, i, r.notifs[0], report).ases[i], r.(notifs := r.notifs[1..]))
            < Weight(false, p.ases[i], r)
  {
    assert [Enabling, Streaming][1..] == [Streaming];
    if InSetup(p.ases[i], r) { AnswerInSetupWeighsLess(p, i, r, report); }
  }

  lemma ReportWhileLiveDecreases(s: Sys, i: nat, report: Report, ch: Choice)
    requires Inv(s) && PhaseOf(s.player).Live? && Enabled(s, DeliverReport(i, report, ch))
    ensures Distance(Next(s, DeliverReport(i, report, ch))) < Distance(s)
  {
    var p, r := s.player, s.servers[i];
    assert AseOk(p, i, r) && Listed(p, i);
    AnswerWhileLive(p, i, r, report);
    AnswerWhileLiveWeighsLess(p, i, r, report);
    ReportWhileLive(s, i, report, ch);
    AnsweredDecreases(s, i, report, ch);
  }

  lemma ReportWhileStrayDecreases(s: Sys, i: nat, report: Report, ch: Choice)
    requires Inv(s) && PhaseOf(s.player).Stray? && Enabled(s, DeliverReport(i, report, ch))
    ensures Distance(Next(s, DeliverReport(i, report, ch))) < Distance(s)
  {
    var p, r := s.player, s.servers[i];
    assert AseOk(p, i, r) && Listed(p, i);
    AnswerInSetup(p, i, r, report);
    AnswerInSetupWeighsLess(p, i, r, report);
    ReportWhileStray(s, i, report, ch);
    AnsweredDecreases(s, i, report, ch);
  }

  lemma AnswerInClosingWeighsLess(p: State, i: nat, r: Server, report: Report)
    requires i < |p.ases| && p.releasing && IsClosing(p.ases[i], r) && r.notifs != []
    ensures Weight(true, Answered(p, i, r.notifs[0], report).ases[i], r.(notifs := r.notifs[1..]))
            < Weight(true, p.ases[i], r)
  {
  }

  lemma LastReportWhileClosingDecreases(s: Sys, i: nat, report: Report, ch: Choice)
    requires Inv(s) && PhaseOf(s.player).Closing? && Enabled(s, DeliverReport(i, report, ch))
    requires IsReleaseTarget(s.servers[i].notifs[0])
    requires AllListedIn(Answered(s.player, i, s.servers[i].notifs[0], report), s.servers[i].notifs[0])
    ensures Distance(Next(s, DeliverReport(i, report, ch))) < Distance(s)
  {
    var t := Next(s, DeliverReport(i, report, ch));
    LastReportWhileClosing(s, i, report, ch);
    TotalIsBounded(t.player.ases, t.servers);
  }

  lemma ReportWhileClosingDecreases(s: Sys, i: nat, report: Report, ch: Choice)
    requires Inv(s) && PhaseOf(s.player).Closing? && Enabled(s, DeliverReport(i, report, ch))
    ensures Distance(Next(s, DeliverReport(i, report, ch))) < Distance(s)
  {
    var p, r := s.player, s.servers[i];
    assert AseOk(p, i, r) && Listed(p, i);
    if IsReleaseTarget(r.notifs[0]) && AllListedIn(Answered(p, i, r.notifs[0], report), r.notifs[0]) {
      LastReportWhileClosingDecreases(s, i, report, ch);
    } else {
      AnswerInClosing(p, i, r, report);
      AnswerInClosingWeighsLess(p, i, r, report);
      EarlyReportWhileClosing(s, i, report, ch);
      AnsweredDecreases(s, i, report, ch);
    }
  }

  lemma OperationWeighsLess(closing: bool, a: Ase, r: Server, state: AseState)
    requires a.outbox != [] && |a.outbox| == 1 && Transition(a.dir, r.state, a.outbox[0]) == Some(state)
    requires if closing then IsClosing(a, r) else InSetup(a, r)
    ensures Weight(closing, a.(outbox := a.outbox[1..]), Entered(r, state)) < Weight(closing, a, r)
  {
    assert [] + [state] == [state];
  }

  lemma OperationDecreases(s: Sys, i: nat)
    requires Inv(s) && Enabled(s, DeliverOperation(i))
    ensures Distance(Next(s, DeliverOperation(i))) < Distance(s)
  {
    var a, r, closing := s.player.ases[i], s.servers[i], PhaseOf(s.player).Closing?;
    assert AseOk(s.player, i, r);
    NoRejection(s, i);
    OperationWeighsLess(closing, a, r, Outcome(s, i).value);
    SamePhase(s.player, Next(s, DeliverOperation(i)).player);
    MoveDecreases(s, Next(s, DeliverOperation(i)), i);
  }

  lemma EnvironmentDecreases(s: Sys, step: Step)
    requires Inv(s) && Enabled(s, step) && (step.Establish? || step.FinishRelease?)
    ensures Distance(Next(s, step)) < Distance(s)
  {
    assert AseOk(s.player, step.i, s.servers[step.i]);
    assert [Enabling] + [Streaming] == [Enabling, Streaming];
    MoveDecreases(s, Next(s, step), step.i);
  }

  /** Every delivery brings the system nearer to rest. */
  lemma DeliveryDecreases(s: Sys, step: Step)
    requires Inv(s) && Enabled(s, step) && IsDelivery(step)
    ensures Distance(Next(s, step)) < Distance(s)
  {
    match step
    case DeliverReport(i, report, ch) =>
      match PhaseOf(s.player) {
        case Off => NoReportAtRest(s, i);
        case Waiting => NoReportAtRest(s, i);
        case Stray => ReportWhileStrayDecreases(s, i, report, ch);
        case Setup => ReportInSetupDecreases(s, i, report, ch);
        case Live => ReportWhileLiveDecreases(s, i, report, ch);
        case Closing => ReportWhileClosingDecreases(s, i, report, ch);
      }
    case DeliverOperation(i) => OperationDecreases(s, i);
    case _ => EnvironmentDecreases(s, step);
  }

  /** Left alone, the system makes at most `Distance(s)` deliveries. */
  lemma {:induction false} DeliveriesAreBounded(s: Sys, steps: seq<Step>, t: Sys)
    requires Inv(s) && Run(s, steps, t) && Deliveries(steps)
    ensures Inv(t)
    ensures |steps| + Distance(t) <= Distance(s)
    decreases |steps|
  {
    if steps != [] {
      DeliveryKeepsInv(s, steps[0]);
      DeliveryDecreases(s, steps[0]);
      DeliveriesAreBounded(Next(s, steps[0]), steps[1..], t);
    }
  }
}
