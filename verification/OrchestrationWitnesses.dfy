/** Runs from the beginning to the states in which something goes wrong. */
module OrchestrationWitnesses {
  import opened Wrappers
  import opened QosNegotiation
  import opened AseControl
  import opened AudioMode
  import opened Orchestration
  import opened OrchestrationRequests
  import opened OrchestrationRuns
  import opened OrchestrationOutcome
  import opened OrchestrationCalls
  import opened OrchestrationStops

  /** Whether a release ends in Idle or in Codec Configured never changes. */
  lemma StepKeepsCaches(s: Sys, step: Step, i: nat)
    requires Enabled(s, step) && i < |s.servers|
    ensures Next(s, step).servers[i].caches == s.servers[i].caches
  {
  }

  ghost predicate SameCaches(s: Sys, t: Sys) {
    |t.servers| == |s.servers| && forall i :: 0 <= i < |s.servers| ==> t.servers[i].caches == s.servers[i].caches
  }

  lemma {:induction false} DeliveriesKeepCaches(s: Sys, steps: seq<Step>, t: Sys)
    requires Run(s, steps, t)
    ensures SameCaches(s, t)
    decreases |steps|
  {
    if steps != [] {
      forall i: nat | i < |s.servers|
        ensures Next(s, steps[0]).servers[i].caches == s.servers[i].caches
      {
        StepKeepsCaches(s, steps[0], i);
      }
      DeliveriesKeepCaches(Next(s, steps[0]), steps[1..], t);
    }
  }

  /** Play from the beginning lists the picks, in order from the front. */
  lemma PlayListsPicks(s: Sys, cfg: StreamConfig, ch: Choice)
    requires Init(s) && GoodChoice(s.player, ch)
    ensures var q := Next(s, Request(Play(cfg, ch))).player;
            && (forall i :: Listed(q, i) <==> i in ch.picks)
            && FirstFree(q.slots) == |ch.picks| && |q.slots| == |s.player.slots|
  {
    EmptyIsPacked(s.player.slots);
    assert forall j :: Some(j) !in s.player.slots;
    ConfiguredSlots(s.player, ch.picks, 0);
    PackedTo(AllConfigured(s.player, ch.picks).slots, |ch.picks|);
    ResumedForm(s.player, MediaMode, cfg, ch);
  }

  /** From every beginning with two endpoints that end a release in different states: media comes
      to stream on both, and no stop can complete. */
  lemma MixedIsReached(s: Sys, cfg: StreamConfig) returns (steps: seq<Step>, t: Sys)
    requires Init(s) && |s.servers| >= 2 && |s.player.slots| >= 2 && s.servers[0].caches != s.servers[1].caches
    ensures Run(s, steps, t) && Disciplined(s, steps)
    ensures Inv(t) && Quiet(t.player) && PhaseOf(t.player).Live? && Mixed(t)
  {
    var ch := Choice([0, 1], Game, false);
    assert GoodChoice(s.player, ch);
    var q := Next(s, Request(Play(cfg, ch)));
    assert 0 in ch.picks && 1 in ch.picks;
    PlayListsPicks(s, cfg, ch);
    var rest;
    rest, t := MediaStreams(s, cfg, ch);
    DeliveriesGoUp(q, rest, t);
    DeliveriesKeepCaches(q, rest, t);
    assert Listed(t.player, 0) && Listed(t.player, 1);
    steps := [Request(Play(cfg, ch))] + rest;
    assert steps[1..] == rest;
  }

  /** From every beginning without an in-band ringtone on both sides: a call rings, is accepted by
      a player that supports one itself, and gets no stream. */
  lemma LostCallIsReached(s: Sys, cfg: StreamConfig) returns (steps: seq<Step>, t: Sys)
    requires Init(s) && !s.inband && s.player.ases != [] && s.player.slots != []
    ensures Run(s, steps, t) && Disciplined(s, steps) && Inv(t) && Stuck(t.player) && !SomeListed(t.player)
  {
    InitHasInv(s);
    var call, accept := IncomingCall(cfg, JustOne(0, false)), AcceptCall(JustOne(0, true));
    assert GoodChoice(s.player, JustOne(0, false));
    RingingKeepsInv(s, cfg, JustOne(0, false));
    var m := Next(s, Request(call));
    EmptyIsPacked(m.player.slots);
    AcceptWhileRinging(m, JustOne(0, true));
    t := Next(m, Request(accept));
    steps := [Request(call), Request(accept)];
    assert steps[1..] == [Request(accept)] && steps[1..][1..] == [];
    assert Run(t, [], t) && Disciplined(t, []);
    assert Run(m, steps[1..], t) && Disciplined(m, steps[1..]);
  }

  lemma StreamsAlone(s: Sys, cfg: StreamConfig) returns (steps: seq<Step>, t: Sys)
    requires Init(s) && |s.servers| >= 2 && |s.player.slots| >= 2
    ensures Run(s, steps, t) && Disciplined(s, steps)
    ensures Inv(t) && Quiet(t.player) && PhaseOf(t.player).Live? && !t.player.ringing && SameCaches(s, t)
    ensures (forall i :: Listed(t.player, i) <==> i == 0) && FirstFree(t.player.slots) == 1
    ensures |t.player.slots| == |s.player.slots|
  {
    var ch := JustOne(0, false);
    assert GoodChoice(s.player, ch);
    var q := Next(s, Request(Play(cfg, ch)));
    PlayListsPicks(s, cfg, ch);
    var rest;
    rest, t := MediaStreams(s, cfg, ch);
    DeliveriesGoUp(q, rest, t);
    DeliveriesKeepCaches(q, rest, t);
    steps := [Request(Play(cfg, ch))] + rest;
    assert steps[1..] == rest;
  }

  /** One endpoint that ends in Codec Configured, and one that was only just configured. */
  lemma OneJoinsEarly(t: Sys)
    requires |t.servers| == |t.player.ases| >= 2 && (forall i :: Listed(t.player, i) <==> i == 0 || i == 1)
    requires t.servers[0].caches && (t.player.ases[1].view.Idle? || t.player.ases[1].view.CodecConfigured?)
    ensures CanEndEarly(t, CodecConfigured) && !AllCanStream(t.player) && !StopsCleanly(t)
  {
    assert Listed(t.player, 0) && Listed(t.player, 1);
    NotAllIn(t.player, 1, Streaming);
    assert CanShow(CodecConfigured, t.player.ases[1].view);
  }

  lemma SecondIsListed(m: Sys, ch: Choice)
    requires Inv(m) && !m.player.ringing && |m.servers| >= 2 && |m.player.slots| >= 2
    requires (forall i :: Listed(m.player, i) <==> i == 0) && FirstFree(m.player.slots) == 1
    requires ch == JustOne(1, true)
    ensures Enabled(m, Request(AcceptCall(ch))) && !Clashes(m.player, AcceptCall(ch))
    ensures var t := Next(m, Request(AcceptCall(ch)));
            && (forall i :: Listed(t.player, i) <==> i == 0 || i == 1) && t.servers == m.servers
            && t.player.ases[1].view == m.player.ases[1].view
  {
    assert GoodChoice(m.player, ch) && !Listed(m.player, 1) && NoneListed(m.player, ch.picks);
    ConfiguredForm(m.player, ch.picks);
    AcceptedForm(m.player, ch);
    var t := Next(m, Request(AcceptCall(ch)));
    assert t.player == CallAccepted(m.player, ch);
    forall i: nat
      ensures Listed(t.player, i) <==> i == 0 || i == 1
    {
      assert i in ch.picks <==> i == 1;
      assert Listed(t.player, i) <==> Listed(m.player, i) || i in ch.picks;
    }
  }

  /** From every beginning with two endpoints of which the first ends a release in Codec Configured:
      the first streams media, a call is accepted over the second, and at that moment a stop can
      end too early. */
  lemma EarlyEndIsReached(s: Sys, cfg: StreamConfig) returns (steps: seq<Step>, m: Sys, accept: Event)
    requires Init(s) && |s.servers| >= 2 && |s.player.slots| >= 2 && s.servers[0].caches
    ensures Run(s, steps, m) && Disciplined(s, steps) && Enabled(m, Request(accept)) && Calm(m.player, accept)
    ensures var t := Next(m, Request(accept));
            && Inv(t) && PhaseOf(t.player).Live? && HasOnAir(t)
            && CanEndEarly(t, CodecConfigured) && !AllCanStream(t.player) && !StopsCleanly(t)
  {
    steps, m := StreamsAlone(s, cfg);
    var ch := JustOne(1, true);
    accept := AcceptCall(ch);
    SecondIsListed(m, ch);
    AcceptWhileLive(m, ch);
    QuietIsOnAir(m);
    AcceptKeepsOnAir(m, ch);
    assert AseOk(m.player, 1, m.servers[1]);
    OneJoinsEarly(Next(m, Request(accept)));
  }

  lemma QuietIsOnAir(s: Sys)
    requires Inv(s) && PhaseOf(s.player).Live? && Quiet(s.player)
    ensures HasOnAir(s)
  {
    var i := FirstListed(s);
    assert AseOk(s.player, i, s.servers[i]);
    ListedInMeansEach(s.player, Streaming, i);
    assert IsLive(s.player.ases[i], s.servers[i]);
  }
}
