/** Quality-of-service negotiation: every stream endpoint that reports its preferences narrows
    one configuration that all endpoints of its direction share. */
module QosNegotiation {
  import opened Arith

  datatype Direction = SinkAse | SourceAse

  datatype Context =
    | Prohibited
    | Unspecified
    | Conversational
    | Media
    | Game
    | VoiceAssistants
    | Ringtone

  /** What the user asked for. Negotiation never touches it. */
  datatype AudioCore = AudioCore(
    samplingFrequency: nat,
    frameDuration: nat,
    sduInterval: nat,
    octetsPerCodecFrame: nat,
    channelCount: nat)

  /** What is negotiated. */
  datatype Qos = Qos(targetLatency: nat, phy: nat, latency: nat, retransmissions: nat, delay: nat)

  datatype AudioConfig = AudioConfig(core: AudioCore, qos: Qos)

  /** `sink` configures the outgoing stream (towards sink endpoints), `source` the incoming. */
  datatype StreamConfig = StreamConfig(context: Context, sink: AudioConfig, source: AudioConfig)

  /** The preferences in a Codec Configured report. A preferred bound of zero means none. */
  datatype Report = Report(
    delayMin: nat,
    delayMax: nat,
    preferredMin: nat,
    preferredMax: nat,
    latency: nat,
    retransmissions: nat,
    phy: nat)

  const LE_2M_PHY := 2
  const NO_AUDIO := AudioConfig(AudioCore(0, 0, 0, 0, 0), Qos(0, 0, 0, 0, 0))
  const NO_STREAM := StreamConfig(Prohibited, NO_AUDIO, NO_AUDIO)

  function Of(cfg: StreamConfig, dir: Direction): AudioConfig {
    if dir.SinkAse? then cfg.sink else cfg.source
  }

  function WithQos(cfg: StreamConfig, dir: Direction, q: Qos): StreamConfig {
    if dir.SinkAse? then cfg.(sink := cfg.sink.(qos := q)) else cfg.(source := cfg.source.(qos := q))
  }

  /** The values an endpoint starts from, chosen by the context of the stream. */
  function Prepared(cfg: StreamConfig, dir: Direction): StreamConfig {
    var a := Of(cfg, dir);
    var short := a.core.sduInterval == 7500;
    WithQos(cfg, dir,
      if cfg.context.Game? then
        Qos(1, a.qos.phy, if short then 15 else 20, 1, if dir.SinkAse? then 10000 else 60000)
      else
        Qos(2, a.qos.phy, if short then 75 else 100, 5, 40000))
  }

  /** The transport latency a stream starts from, in milliseconds, and the number of times a packet
      may be sent again. */
  function FirstLatency(context: Context, sduInterval: nat): nat {
    match (context.Game?, sduInterval == 7500)
    case (true, true) => 15
    case (true, false) => 20
    case (false, true) => 75
    case (false, false) => 100
  }

  /** Games start from the low latencies and one retransmission, towards a sink with 10 ms of
      presentation delay and from a source with 60 ms; everything else starts from five
      retransmissions and 40 ms both ways. The other direction and all that the user asked for
      stay as they are, and preparing a direction again, or the other one first, makes no
      difference. */
  lemma PreparedValues(cfg: StreamConfig, dir: Direction)
    ensures var (q, was) := (Of(Prepared(cfg, dir), dir).qos, Of(cfg, dir));
            && q.latency == FirstLatency(cfg.context, was.core.sduInterval) && q.phy == was.qos.phy
            && (cfg.context.Game? ==>
                  q.targetLatency == 1 && q.retransmissions == 1 && q.delay == (if dir.SinkAse? then 10000 else 60000))
            && (!cfg.context.Game? ==> q.targetLatency == 2 && q.retransmissions == 5 && q.delay == 40000)
    ensures Prepared(cfg, dir).context == cfg.context && Of(Prepared(cfg, dir), dir).core == Of(cfg, dir).core
    ensures Of(Prepared(cfg, dir), Opposite(dir)) == Of(cfg, Opposite(dir))
    ensures Prepared(Prepared(cfg, dir), dir) == Prepared(cfg, dir)
    ensures Prepared(Prepared(cfg, dir), Opposite(dir)) == Prepared(Prepared(cfg, Opposite(dir)), dir)
  {
  }

  function Opposite(dir: Direction): Direction {
    if dir.SinkAse? then SourceAse else SinkAse
  }

  function Selected(q: Qos, r: Report): Qos {
    var allowed := Min(r.delayMax, Max(r.delayMin, q.delay));
    var lowered := if r.preferredMax != 0 then Min(r.preferredMax, allowed) else allowed;
    var raised := if r.preferredMin != 0 then Max(r.preferredMin, lowered) else lowered;
    q.(delay := raised,
       latency := Max(5, Min(r.latency, q.latency)),
       retransmissions := Min(10, Max(r.retransmissions, q.retransmissions)),
       phy := if r.phy != 0 then r.phy else LE_2M_PHY)
  }

  /** The same narrowing of the shared configuration by one assignment after the other. */
  method SelectQosConfigParam(cfg: StreamConfig, dir: Direction, r: Report) returns (out: StreamConfig)
    ensures out == WithQos(cfg, dir, Selected(Of(cfg, dir).qos, r))
  {
    var q := Of(cfg, dir).qos;
    q := q.(delay := Min(r.delayMax, Max(r.delayMin, q.delay)));
    if r.preferredMax != 0 {
      q := q.(delay := Min(r.preferredMax, q.delay));
    }
    if r.preferredMin != 0 {
      q := q.(delay := Max(r.preferredMin, q.delay));
    }
    q := q.(latency := Max(5, Min(r.latency, q.latency)));
    q := q.(retransmissions := Min(10, Max(r.retransmissions, q.retransmissions)));
    q := q.(phy := if r.phy != 0 then r.phy else LE_2M_PHY);
    out := WithQos(cfg, dir, q);
  }

  // ---- One report ----

  function Low(r: Report): nat { if r.preferredMin != 0 then r.preferredMin else r.delayMin }

  function High(r: Report): nat { if r.preferredMax != 0 then r.preferredMax else r.delayMax }

  /** The preferred window is not empty and lies inside the allowed one. */
  predicate WellFormed(r: Report) {
    r.delayMin <= Low(r) <= High(r) <= r.delayMax
  }

  function Clamp(x: int, lo: int, hi: int): int {
    Max(lo, Min(hi, x))
  }

  lemma SelectedDelayIsClamped(q: Qos, r: Report)
    requires WellFormed(r)
    ensures Selected(q, r).delay == Clamp(q.delay, Low(r), High(r))
    ensures Low(r) <= Selected(q, r).delay <= High(r)
  {
  }

  // ---- Many reports ----

  function Folded(q: Qos, rs: seq<Report>): Qos
    decreases |rs|
  {
    if rs == [] then q else Folded(Selected(q, rs[0]), rs[1..])
  }

  function MaxLow(rs: seq<Report>): nat
    requires rs != []
  {
    if |rs| == 1 then Low(rs[0]) else Max(Low(rs[0]), MaxLow(rs[1..]))
  }

  function MinHigh(rs: seq<Report>): nat
    requires rs != []
  {
    if |rs| == 1 then High(rs[0]) else Min(High(rs[0]), MinHigh(rs[1..]))
  }

  function MinLatency(rs: seq<Report>): nat
    requires rs != []
  {
    if |rs| == 1 then rs[0].latency else Min(rs[0].latency, MinLatency(rs[1..]))
  }

  function MaxRetransmissions(rs: seq<Report>): nat
    requires rs != []
  {
    if |rs| == 1 then rs[0].retransmissions else Max(rs[0].retransmissions, MaxRetransmissions(rs[1..]))
  }

  predicate InWindow(d: nat, r: Report) {
    Low(r) <= d <= High(r)
  }

  predicate InAllWindows(d: nat, rs: seq<Report>) {
    forall i :: 0 <= i < |rs| ==> InWindow(d, rs[i])
  }

  ghost predicate ShareAPoint(rs: seq<Report>) {
    exists d: nat :: InAllWindows(d, rs)
  }

  predicate AllWellFormed(rs: seq<Report>) {
    forall i :: 0 <= i < |rs| ==> WellFormed(rs[i])
  }

  /** Latency, retransmissions and PHY have a closed form whatever the windows are. */
  lemma {:induction false} FoldedClosedForm(q: Qos, rs: seq<Report>)
    decreases |rs|
    requires rs != []
    ensures Folded(q, rs).latency == Max(5, Min(q.latency, MinLatency(rs)))
    ensures Folded(q, rs).retransmissions == Min(10, Max(q.retransmissions, MaxRetransmissions(rs)))
    ensures Folded(q, rs).phy == (var last := rs[|rs| - 1].phy; if last != 0 then last else LE_2M_PHY)
    ensures Folded(q, rs).targetLatency == q.targetLatency
  {
    if |rs| > 1 {
      FoldedClosedForm(Selected(q, rs[0]), rs[1..]);
    }
  }

  /** If the windows of all reporting endpoints share a point, the delay is the initial one
      clamped to their intersection. */
  lemma {:induction false} FoldedDelay(q: Qos, rs: seq<Report>)
    decreases |rs|
    requires rs != [] && AllWellFormed(rs) && MaxLow(rs) <= MinHigh(rs)
    ensures Folded(q, rs).delay == Clamp(q.delay, MaxLow(rs), MinHigh(rs))
  {
    SelectedDelayIsClamped(q, rs[0]);
    if |rs| > 1 {
      FoldedDelay(Selected(q, rs[0]), rs[1..]);
    } else {
      assert Folded(Selected(q, rs[0]), rs[1..]) == Selected(q, rs[0]);
    }
  }

  lemma {:induction false} Extremes(rs: seq<Report>) returns (a: nat, b: nat)
    requires rs != []
    ensures a < |rs| && Low(rs[a]) == MaxLow(rs)
    ensures b < |rs| && High(rs[b]) == MinHigh(rs)
    ensures forall i :: 0 <= i < |rs| ==> Low(rs[i]) <= MaxLow(rs) && MinHigh(rs) <= High(rs[i])
  {
    a, b := 0, 0;
    if |rs| > 1 {
      var a', b' := Extremes(rs[1..]);
      assert forall i :: 0 < i < |rs| ==> rs[i] == rs[1..][i - 1];
      a := if Low(rs[0]) == MaxLow(rs) then 0 else a' + 1;
      b := if High(rs[0]) == MinHigh(rs) then 0 else b' + 1;
    }
  }

  lemma SharedPointMeansOrderedBounds(rs: seq<Report>)
    requires rs != []
    ensures ShareAPoint(rs) <==> MaxLow(rs) <= MinHigh(rs)
  {
    var a, b := Extremes(rs);
    if MaxLow(rs) <= MinHigh(rs) {
      assert InAllWindows(MaxLow(rs), rs);
    }
    if ShareAPoint(rs) {
      var d: nat :| InAllWindows(d, rs);
      assert InWindow(d, rs[a]) && InWindow(d, rs[b]);
    }
  }

  lemma SameReportsSameBounds(rs: seq<Report>, ts: seq<Report>)
    requires rs != [] && multiset(rs) == multiset(ts)
    ensures ts != []
    ensures MaxLow(rs) == MaxLow(ts) && MinHigh(rs) == MinHigh(ts)
    ensures AllWellFormed(rs) ==> AllWellFormed(ts)
  {
    assert |multiset(rs)| == |rs| && |multiset(ts)| == |ts|;
    var a, b := Extremes(rs);
    var c, d := Extremes(ts);
    assert forall r :: r in rs <==> r in multiset(rs);
    assert forall r :: r in ts <==> r in multiset(ts);
    assert rs[a] in ts && rs[b] in ts && ts[c] in rs && ts[d] in rs;
    assert forall i :: 0 <= i < |ts| ==> ts[i] in rs;
  }

  lemma {:induction false} FoldedAppend(q: Qos, rs: seq<Report>, r: Report)
    decreases |rs|
    ensures Folded(q, rs + [r]) == Selected(Folded(q, rs), r)
  {
    if rs == [] {
      assert rs + [r] == [r];
    } else {
      assert (rs + [r])[1..] == rs[1..] + [r];
      FoldedAppend(Selected(q, rs[0]), rs[1..], r);
    }
  }

  /** The report at `k` moved to the end: it has the last word on the delay. */
  lemma LastWord(q: Qos, rs: seq<Report>, k: nat)
    requires k < |rs| && AllWellFormed(rs)
    ensures var ts := rs[..k] + rs[k + 1..] + [rs[k]];
            multiset(ts) == multiset(rs) && InWindow(Folded(q, ts).delay, rs[k])
  {
    var rest := rs[..k] + rs[k + 1..];
    FoldedAppend(q, rest, rs[k]);
    SelectedDelayIsClamped(Folded(q, rest), rs[k]);
    assert rs == rs[..k] + ([rs[k]] + rs[k + 1..]);
  }

  ghost predicate DelayIgnoresOrder(rs: seq<Report>) {
    forall q, ts :: multiset(ts) == multiset(rs) ==> Folded(q, ts).delay == Folded(q, rs).delay
  }

  /** The delay does not depend on the order of the reports exactly when the windows share a
      point. (Latency and retransmissions never do, the PHY is always the last report's.) */
  lemma OrderIsIrrelevantIffWindowsMeet(rs: seq<Report>)
    requires rs != [] && AllWellFormed(rs)
    ensures DelayIgnoresOrder(rs) <==> ShareAPoint(rs)
  {
    SharedPointMeansOrderedBounds(rs);
    if ShareAPoint(rs) {
      forall q, ts | multiset(ts) == multiset(rs)
        ensures Folded(q, ts).delay == Folded(q, rs).delay
      {
        SameReportsSameBounds(rs, ts);
        FoldedDelay(q, rs);
        FoldedDelay(q, ts);
      }
    } else {
      var a, b := Extremes(rs);
      var q := Qos(0, 0, 0, 0, 0);
      LastWord(q, rs, a);
      LastWord(q, rs, b);
    }
  }

  lemma LatencyAndRetransmissionsIgnoreOrder(q: Qos, rs: seq<Report>, ts: seq<Report>)
    requires rs != [] && multiset(rs) == multiset(ts)
    ensures Folded(q, rs).latency == Folded(q, ts).latency
    ensures Folded(q, rs).retransmissions == Folded(q, ts).retransmissions
  {
    assert |multiset(rs)| == |rs| && |multiset(ts)| == |ts|;
    FoldedClosedForm(q, rs);
    FoldedClosedForm(q, ts);
    var a, b := Slowest(rs);
    var c, d := Slowest(ts);
    assert forall r :: r in rs <==> r in multiset(rs);
    assert forall r :: r in ts <==> r in multiset(ts);
    assert rs[a] in ts && rs[b] in ts && ts[c] in rs && ts[d] in rs;
  }

  lemma {:induction false} Slowest(rs: seq<Report>) returns (a: nat, b: nat)
    requires rs != []
    ensures a < |rs| && rs[a].latency == MinLatency(rs)
    ensures b < |rs| && rs[b].retransmissions == MaxRetransmissions(rs)
    ensures forall r :: r in rs ==> MinLatency(rs) <= r.latency && r.retransmissions <= MaxRetransmissions(rs)
  {
    a, b := 0, 0;
    if |rs| > 1 {
      var a', b' := Slowest(rs[1..]);
      assert rs == [rs[0]] + rs[1..];
      a := if rs[0].latency == MinLatency(rs) then 0 else a' + 1;
      b := if rs[0].retransmissions == MaxRetransmissions(rs) then 0 else b' + 1;
    }
  }

  // ---- Both directions in one stream configuration ----

  function Narrowed(cfg: StreamConfig, reports: seq<(Direction, Report)>): StreamConfig
    decreases |reports|
  {
    if reports == [] then cfg
    else
      var (dir, r) := reports[0];
      Narrowed(WithQos(cfg, dir, Selected(Of(cfg, dir).qos, r)), reports[1..])
  }

  function Only(dir: Direction, reports: seq<(Direction, Report)>): seq<Report> {
    if reports == [] then []
    else if reports[0].0 == dir then [reports[0].1] + Only(dir, reports[1..])
    else Only(dir, reports[1..])
  }

  /** However the reports of the two directions interleave, each direction is narrowed by its
      own reports only, and what the user asked for stays. */
  lemma {:induction false} DirectionsDoNotInterfere(cfg: StreamConfig, reports: seq<(Direction, Report)>)
    decreases |reports|
    ensures Narrowed(cfg, reports) ==
            cfg.(sink := cfg.sink.(qos := Folded(cfg.sink.qos, Only(SinkAse, reports))),
                 source := cfg.source.(qos := Folded(cfg.source.qos, Only(SourceAse, reports))))
  {
    if reports != [] {
      var (dir, r) := reports[0];
      DirectionsDoNotInterfere(WithQos(cfg, dir, Selected(Of(cfg, dir).qos, r)), reports[1..]);
      assert Only(dir, reports)[1..] == Only(dir, reports[1..]);
    }
  }

  /** The range a server accepts in Config QoS. */
  predicate LatencyAccepted(latency: nat) {
    0x5 <= latency <= 0xFA0
  }

  /** Whatever the endpoints report, no latency the negotiator emits is out of that range. */
  lemma NegotiatedLatencyIsAccepted(cfg: StreamConfig, dir: Direction, rs: seq<Report>)
    ensures LatencyAccepted(Folded(Of(Prepared(cfg, dir), dir).qos, rs).latency)
    ensures Folded(Of(Prepared(cfg, dir), dir).qos, rs).latency <= 100
  {
    if rs != [] {
      FoldedClosedForm(Of(Prepared(cfg, dir), dir).qos, rs);
    }
  }
}
