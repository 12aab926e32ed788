/** Answering a call. Acceptance looks at no endpoint and at no mode: exactly when that goes
    wrong, and where each answer leads. */
module OrchestrationCalls {
  import opened Wrappers
  import opened QosNegotiation
  import opened AseControl
  import opened AudioMode
  import opened Orchestration
  import opened OrchestrationRequests
  import opened OrchestrationRuns
  import opened OrchestrationOutcome
  import opened OrchestrationJourneys
  import AudioModeRuns

  const ANY_REPORT := Report(0, 0, 0, 0, 0, 0, 0)

  /** Deliveries alone can lead from `q` to an operation that its endpoint rejects. */
  ghost predicate CanBeRejected(q: Sys) {
    exists steps, t, i: nat :: Deliveries(steps) && Run(q, steps, t) && Rejects(t, i)
  }

  ghost predicate Rejects(t: Sys, i: nat) {
    Enabled(t, DeliverOperation(i)) && Outcome(t, i).None?
  }

  lemma InvIsNeverRejected(q: Sys)
    requires Inv(q)
    ensures !CanBeRejected(q)
  {
    forall steps, t, i: nat | Deliveries(steps) && Run(q, steps, t) && Enabled(t, DeliverOperation(i))
      ensures !Rejects(t, i)
    {
      DeliveriesAreBounded(q, steps, t);
      NoRejection(t, i);
    }
  }

  function JustOne(i: nat, inband: bool): Choice {
    Choice([i], Game, inband)
  }

  // ---- An endpoint that is configured once too often ----

  /** The player is settled and nothing is being released: reports are only answered. */
  ghost predicate Running(q: Sys, i: nat) {
    && |q.servers| == |q.player.ases| && i < |q.servers| && Valid(q.player)
    && !q.player.current.InTransit? && !q.player.releasing && q.player.slots != []
  }

  /** A second Config Codec, with `n` deliveries for the endpoint to go at most, until one of its
      operations is rejected. */
  predicate Doomed(n: nat, a: Ase, r: Server) {
    match n
    case 0 => a.outbox != [] && Transition(a.dir, r.state, a.outbox[0]).None?
    case 1 => a.outbox == [] && r.notifs == [QosConfigured, Enabling] && r.state.Enabling?
    case 2 => a.outbox == [Enable] && r.notifs == [QosConfigured] && r.state.QosConfigured?
    case 3 => a.outbox == [] && r.notifs == [QosConfigured, QosConfigured] && r.state.QosConfigured?
    case 4 => a.outbox == [ConfigQos] && r.notifs == [QosConfigured] && r.state.QosConfigured?
    case 5 => a.outbox == [] && r.notifs == [CodecConfigured, QosConfigured] && r.state.QosConfigured?
    case 6 => a.outbox == [ConfigQos] && r.notifs == [CodecConfigured] && r.state.CodecConfigured?
    case 7 => a.outbox == [] && r.notifs == [CodecConfigured, CodecConfigured] && r.state.CodecConfigured?
    case 8 => a.outbox == [ConfigCodec] && r.notifs == [CodecConfigured] && r.state.CodecConfigured?
    case 9 => a.outbox == [ConfigCodec, ConfigCodec] && r.notifs == [] && (r.state.Idle? || r.state.CodecConfigured?)
    case 10 => a.outbox == [] && r.notifs == [QosConfigured, CodecConfigured] && r.state.CodecConfigured?
    case 11 => a.outbox == [ConfigCodec] && r.notifs == [QosConfigured] && r.state.QosConfigured?
    case 12 => a.outbox == [ConfigQos, ConfigCodec] && r.notifs == [] && r.state.CodecConfigured?
    case 13 => a.outbox == [Enable, ConfigCodec] && r.notifs == [] && r.state.QosConfigured?
    case _ => false
  }

  /** Wherever an endpoint of a running stream is in its set-up, one more Config Codec dooms it. */
  lemma OneTooMany(a: Ase, r: Server) returns (n: nat)
    requires IsLive(a, r) || IsJoining(a, r)
    ensures Doomed(n, a.(outbox := a.outbox + [ConfigCodec]), r)
    ensures a.view.Streaming? ==> n == 0
  {
    assert [] + [ConfigCodec] == [ConfigCodec];
    if r.state.Enabling? || r.state.Streaming? {
      n := 0;
    } else if a.outbox == [] {
      n := if r.notifs == [CodecConfigured] then 8 else 11;
    } else {
      assert [ConfigCodec] + [ConfigCodec] == [ConfigCodec, ConfigCodec];
      assert [ConfigQos] + [ConfigCodec] == [ConfigQos, ConfigCodec];
      assert [Enable] + [ConfigCodec] == [Enable, ConfigCodec];
      n := if a.outbox[0].ConfigCodec? then 9 else if a.outbox[0].ConfigQos? then 12 else 13;
    }
  }

  lemma DoomedOperation(n: nat, a: Ase, r: Server) returns (m: nat)
    requires n > 0 && Doomed(n, a, r) && a.outbox != []
    ensures Transition(a.dir, r.state, a.outbox[0]).Some?
    ensures var state := Transition(a.dir, r.state, a.outbox[0]).value;
            m < n && Doomed(m, a.(outbox := a.outbox[1..]), Entered(r, state))
  {
    m := if n == 13 then 0 else n - 1;
    var state := Transition(a.dir, r.state, a.outbox[0]).value;
    assert [] + [state] == [state];
    if r.notifs != [] { assert [r.notifs[0]] + [state] == [r.notifs[0], state]; }
  }

  lemma DoomedReport(n: nat, p: State, i: nat, r: Server, report: Report) returns (m: nat)
    requires n > 0 && i < |p.ases| && !p.releasing && Doomed(n, p.ases[i], r) && p.ases[i].outbox == []
    ensures r.notifs != []
    ensures m < n && Doomed(m, Answered(p, i, r.notifs[0], report).ases[i], r.(notifs := r.notifs[1..]))
  {
    m := if n == 10 || n == 1 then 0 else n - 1;
    assert [] + [ConfigQos] == [ConfigQos] && [] + [Enable] == [Enable];
    assert |r.notifs| == 2 && r.notifs[1..] == [r.notifs[1]];
  }

  lemma DoomedStep(n: nat, q: Sys, i: nat) returns (step: Step, m: nat)
    requires n > 0 && Running(q, i) && Doomed(n, q.player.ases[i], q.servers[i])
    ensures IsDelivery(step) && Enabled(q, step) && Running(Next(q, step), i)
    ensures m < n && Doomed(m, Next(q, step).player.ases[i], Next(q, step).servers[i])
  {
    if q.player.ases[i].outbox != [] {
      step := DeliverOperation(i);
      m := DoomedOperation(n, q.player.ases[i], q.servers[i]);
    } else {
      m := DoomedReport(n, q.player, i, q.servers[i], ANY_REPORT);
      step := DeliverReport(i, ANY_REPORT, JustOne(i, q.inband));
      assert GoodChoice(q.player, JustOne(i, q.inband));
      SettledIsAnswered(q.player, i, q.servers[i].notifs[0], ANY_REPORT, JustOne(i, q.inband));
    }
  }

  lemma {:induction false} DoomedIsRejected(n: nat, q: Sys, i: nat) returns (steps: seq<Step>, t: Sys)
    requires Running(q, i) && Doomed(n, q.player.ases[i], q.servers[i])
    ensures Deliveries(steps) && Run(q, steps, t) && Rejects(t, i)
    decreases n
  {
    if n == 0 {
      return [], q;
    }
    var step, m := DoomedStep(n, q, i);
    var rest;
    rest, t := DoomedIsRejected(m, Next(q, step), i);
    steps := [step] + rest;
    assert steps[1..] == rest;
  }

  // ---- Accepting a call while a stream runs ----

  lemma {:induction false} ConfiguredKeepsRoom(p: State, picks: seq<nat>)
    requires ValidPicks(p, picks)
    ensures |AllConfigured(p, picks).slots| == |p.slots|
    decreases |picks|
  {
    if picks != [] {
      ConfiguredKeepsRoom(Configured(p, picks[0]), picks[1..]);
    }
  }

  lemma RunsOnAfterAccept(s: Sys, ch: Choice, i: nat)
    requires Inv(s) && PhaseOf(s.player).Live? && Enabled(s, Request(AcceptCall(ch)))
    requires !(s.player.ringing && ch.inband) && i < |s.servers|
    ensures Running(Next(s, Request(AcceptCall(ch))), i)
    ensures i in ch.picks ==>
              Next(s, Request(AcceptCall(ch))).player.ases[i]
              == s.player.ases[i].(outbox := s.player.ases[i].outbox + [ConfigCodec])
  {
    ConfiguredKeepsRoom(s.player, ch.picks);
    ConfiguredAses(s.player, ch.picks);
    AcceptedForm(s.player, ch);
    assert Next(s, Request(AcceptCall(ch))).player == CallAccepted(s.player, ch);
  }

  /** A Config Codec for an endpoint that is listed already. */
  lemma ClashDooms(s: Sys, ch: Choice, k: nat) returns (n: nat)
    requires Inv(s) && PhaseOf(s.player).Live? && Enabled(s, Request(AcceptCall(ch)))
    requires !(s.player.ringing && ch.inband) && k < |ch.picks| && Listed(s.player, ch.picks[k])
    ensures var i, q := ch.picks[k], Next(s, Request(AcceptCall(ch)));
            Running(q, i) && Doomed(n, q.player.ases[i], q.servers[i])
    ensures Quiet(s.player) ==> n == 0
  {
    var i := ch.picks[k];
    assert AseOk(s.player, i, s.servers[i]);
    assert i in ch.picks;
    RunsOnAfterAccept(s, ch, i);
    n := OneTooMany(s.player.ases[i], s.servers[i]);
    if Quiet(s.player) {
      ListedInMeansEach(s.player, Streaming, i);
    }
  }

  /** The exact condition for accepting a call while a stream runs, whether its endpoints stream
      yet, are still joining or have just settled: an operation can be rejected if and only if the
      call does not ring in-band and an endpoint picked for the conversation is listed already. */
  lemma AcceptIsRejectedIff(s: Sys, ch: Choice)
    requires Inv(s) && PhaseOf(s.player).Live? && Enabled(s, Request(AcceptCall(ch)))
    ensures CanBeRejected(Next(s, Request(AcceptCall(ch))))
            <==> !(s.player.ringing && ch.inband) && !NoneListed(s.player, ch.picks)
  {
    var q := Next(s, Request(AcceptCall(ch)));
    if Clashes(s.player, AcceptCall(ch)) {
      var k :| 0 <= k < |ch.picks| && Some(ch.picks[k]) in s.player.slots;
      var n := ClashDooms(s, ch, k);
      var steps, t := DoomedIsRejected(n, q, ch.picks[k]);
      assert Rejects(t, ch.picks[k]);
    } else {
      AcceptWhileLive(s, ch);
      InvIsNeverRejected(q);
    }
  }

  /** Media is started from the very beginning and left alone until it streams. */
  lemma MediaStreams(s: Sys, cfg: StreamConfig, ch: Choice) returns (rest: seq<Step>, t: Sys)
    requires Init(s) && GoodChoice(s.player, ch)
    ensures var e := Play(cfg, ch);
            && Enabled(s, Request(e)) && Calm(s.player, e)
            && Inv(Next(s, Request(e))) && GoesUp(Next(s, Request(e)).player)
            && Deliveries(rest) && Run(Next(s, Request(e)), rest, t) && Disciplined(Next(s, Request(e)), rest)
    ensures Inv(t) && StreamsIn(t, MediaMode, cfg) && PhaseOf(t.player).Live? && !t.player.ringing
  {
    InitHasInv(s);
    var e := Play(cfg, ch);
    RequestKeepsInv(s, e);
    rest, t := RestIsReached(Next(s, Request(e)));
    StartArrives(s, e, rest, t);
    StartRequestedAtRest(s, e);
    AudioModeRuns.ResumedKeepsModes(s.player, MediaMode, cfg, ch);
    DeliveriesGoUp(Next(s, Request(e)), rest, t);
    DeliveriesAreDisciplined(Next(s, Request(e)), rest, t);
  }

  lemma {:induction false} DeliveriesAreDisciplined(s: Sys, steps: seq<Step>, t: Sys)
    requires Run(s, steps, t) && Deliveries(steps)
    ensures Disciplined(s, steps)
    decreases |steps|
  {
    if steps != [] {
      DeliveriesAreDisciplined(Next(s, steps[0]), steps[1..], t);
    }
  }

  lemma FirstListed(s: Sys) returns (i: nat)
    requires Inv(s) && PhaseOf(s.player).Live?
    ensures i < |s.player.ases| && Listed(s.player, i)
  {
    var k :| 0 <= k < |s.player.slots| && s.player.slots[k].Some?;
    i := s.player.slots[k].value;
    assert s.player.slots[k] in s.player.slots;
  }

  lemma OneStreams(s: Sys, cfg: StreamConfig) returns (steps: seq<Step>, t: Sys)
    requires Init(s) && s.player.ases != [] && s.player.slots != []
    ensures Run(s, steps, t) && Disciplined(s, steps)
    ensures Inv(t) && Quiet(t.player) && PhaseOf(t.player).Live? && !t.player.ringing
  {
    var e := Play(cfg, JustOne(0, false));
    assert GoodChoice(s.player, JustOne(0, false));
    var rest;
    rest, t := MediaStreams(s, cfg, JustOne(0, false));
    steps := [Request(e)] + rest;
    assert steps[1..] == rest;
  }

  /** From every beginning: media streams, a call is accepted over one of its endpoints, and the
      Config Codec that this sends is rejected. */
  lemma AcceptCanBeRejected(s: Sys, cfg: StreamConfig) returns (steps: seq<Step>, t: Sys, ch: Choice, i: nat)
    requires Init(s) && s.player.ases != [] && s.player.slots != []
    ensures Run(s, steps, t) && Disciplined(s, steps) && Quiet(t.player)
    ensures Enabled(t, Request(AcceptCall(ch))) && Rejects(Next(t, Request(AcceptCall(ch))), i)
  {
    steps, t := OneStreams(s, cfg);
    i := FirstListed(t);
    ch := JustOne(i, true);
    assert ch.picks[0] == i && !NoneListed(t.player, ch.picks);
    var n := ClashDooms(t, ch, 0);
    assert n == 0;
  }

  // ---- Where an answer leads ----

  lemma AcceptRequestedWhileLive(s: Sys, ch: Choice)
    requires Inv(s) && Enabled(s, Request(AcceptCall(ch))) && PhaseOf(s.player).Live?
    requires !(s.player.ringing && ch.inband) && NoneListed(s.player, ch.picks)
    ensures var p, q := s.player, Next(s, Request(AcceptCall(ch))).player;
            && PhaseOf(q).Live? && q.final == p.final && q.cigs == p.cigs && SameUserConfig(q.stream, p.stream)
            && (forall i :: Some(i) in q.slots <==> Some(i) in p.slots || i in ch.picks)
  {
    ConfiguredForm(s.player, ch.picks);
    AcceptedForm(s.player, ch);
  }

  /** A call accepted over fresh endpoints: they join the running stream and come to stream like
      the others, in the mode and the group there are. */
  lemma AcceptedCallStreams(s: Sys, ch: Choice, steps: seq<Step>, t: Sys)
    requires After(s, AcceptCall(ch), steps, t) && PhaseOf(s.player).Live? && !(s.player.ringing && ch.inband)
    ensures StreamsIn(t, s.player.current, s.player.stream) && t.player.cigs == s.player.cigs
    ensures forall i :: Some(i) in t.player.slots <==> Some(i) in s.player.slots || i in ch.picks
  {
    var q := Next(s, Request(AcceptCall(ch)));
    RequestKeepsInv(s, AcceptCall(ch));
    AcceptRequestedWhileLive(s, ch);
    DeliveriesGoUp(q, steps, t);
    ComesToRest(q, steps, t);
  }

  /** A silent ring that is accepted arrives in call mode, with the configuration it rang with
      and one new group, exactly if the player does not support an in-band ringtone itself. If
      it does and only the peer does not, no stream is ever started. */
  lemma AcceptedRingArrivesIff(s: Sys, ch: Choice, steps: seq<Step>, t: Sys)
    requires After(s, AcceptCall(ch), steps, t) && RingsSilently(s.player)
    ensures StreamsIn(t, CallMode, s.player.stream) <==> !ch.inband
    ensures t.player.cigs == s.player.cigs + if ch.inband then 0 else 1
    ensures ch.inband ==> Stuck(t.player) && !SomeListed(t.player)
    ensures t.player.paused == s.player.paused
  {
    var q := Next(s, Request(AcceptCall(ch)));
    RequestKeepsInv(s, AcceptCall(ch));
    AcceptWhileRinging(s, ch);
    ComesToRest(q, steps, t);
    DeliveriesKeep(q, steps, t);
  }

  /** A call that the remote side ends while the player is in no mode leaves it in transit, with
      nothing to wait for. */
  lemma RemoteEndStrands(s: Sys, ch: Choice, steps: seq<Step>, t: Sys)
    requires After(s, RemoteEndCall(ch), steps, t) && PhaseOf(s.player).Off?
    ensures Stuck(t.player) && t.player.current.InTransit? && t.player.final.NoMode? && !SomeListed(t.player)
  {
    var q := Next(s, Request(RemoteEndCall(ch)));
    RemoteEndAtRest(s, ch);
    ComesToRest(q, steps, t);
    DeliveriesKeep(q, steps, t);
  }

  /** A call accepted while the player is in no mode sets up its endpoints for nothing: no group
      is created and no mode entered. */
  lemma AcceptStrands(s: Sys, ch: Choice, steps: seq<Step>, t: Sys)
    requires After(s, AcceptCall(ch), steps, t) && PhaseOf(s.player).Off? && !s.player.ringing
    ensures Stuck(t.player) && t.player.current.NoMode? && SomeListed(t.player) && t.player.cigs == s.player.cigs
  {
    var q := Next(s, Request(AcceptCall(ch)));
    AcceptAtRest(s, ch);
    ComesToRest(q, steps, t);
    DeliveriesKeep(q, steps, t);
  }
}
