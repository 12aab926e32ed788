/** The stream that the player holds is the one that its endpoints negotiate: every Codec
    Configured report narrows it by its preferences, and on every run of reports it is the fold
    of all of them. */
module AudioModeNegotiation {
  import opened Wrappers
  import opened Arith
  import opened QosNegotiation
  import opened AseControl
  import opened AudioMode
  import opened AudioModeRuns

  function Negotiated(s: State, i: nat): Qos
    requires i < |s.ases|
  {
    Of(s.stream, s.ases[i].dir).qos
  }

  // ---- One report ----

  /** Whatever a report brings about, its preferences narrow its endpoint's direction if it tells
      of Codec Configured and nothing is being released; otherwise the stream stays. */
  lemma ReportNarrows(s: State, i: nat, state: AseState, r: Report, ch: Choice)
    requires Handles(s, Reported(i, state, r, ch)) && !s.releasing
    ensures var (t, dir) := (Handled(s, Reported(i, state, r, ch)), s.ases[i].dir);
            && !t.releasing
            && t.stream == (if !state.CodecConfigured? then s.stream
                            else WithQos(s.stream, dir, Selected(Of(s.stream, dir).qos, r)))
            && forall j :: 0 <= j < |s.ases| ==> t.ases[j].dir == s.ases[j].dir
  {
    var w := Answered(s, i, state, r);
    assert !w.releasing;
    UpdateKeepsStream(w, state, ch);
  }

  lemma UpdateKeepsStream(s: State, state: AseState, ch: Choice)
    requires ValidPicks(s, ch.picks) && !s.releasing
    ensures var t := ModeUpdated(s, state, ch); t.stream == s.stream && t.ases == s.ases && !t.releasing
  {
  }

  /** After a Codec Configured report the direction meets that endpoint's own preferences: the
      delay lies in its window, the latency does not exceed what it allows, but for the least of
      5 ms, nor what it was. The other direction and what the user asked for stay. */
  lemma ReportIsMet(s: State, i: nat, r: Report, ch: Choice)
    requires Handles(s, Reported(i, CodecConfigured, r, ch)) && !s.releasing && WellFormed(r)
    ensures var t := Handled(s, Reported(i, CodecConfigured, r, ch));
            var (q, was) := (Negotiated(t, i), Negotiated(s, i));
            && Low(r) <= q.delay <= High(r)
            && (Low(r) <= was.delay <= High(r) ==> q.delay == was.delay)
            && 5 <= q.latency <= Max(5, Min(r.latency, was.latency))
            && q.retransmissions <= 10 && (r.retransmissions <= 10 ==> q.retransmissions >= r.retransmissions)
            && (r.phy != 0 ==> q.phy == r.phy)
    ensures var (t, dir) := (Handled(s, Reported(i, CodecConfigured, r, ch)), s.ases[i].dir);
            Of(t.stream, Opposite(dir)) == Of(s.stream, Opposite(dir)) && Of(t.stream, dir).core == Of(s.stream, dir).core
  {
    ReportNarrows(s, i, CodecConfigured, r, ch);
    SelectedDelayIsClamped(Negotiated(s, i), r);
  }

  // ---- Runs of reports ----

  /** Endpoints report, and connections are lost. */
  predicate OnlyReports(events: seq<Event>) {
    forall k :: 0 <= k < |events| ==> events[k].Reported? || events[k].MemberGone?
  }

  /** The preferences in a run, with their directions, in the order in which they are reported. */
  ghost function Preferences(s: State, events: seq<Event>): seq<(Direction, Report)>
    decreases |events|
  {
    if events == [] || !Handles(s, events[0]) then []
    else
      (if events[0].Reported? && events[0].state.CodecConfigured? then
         [(s.ases[events[0].i].dir, events[0].report)]
       else [])
      + Preferences(Handled(s, events[0]), events[1..])
  }

  lemma NarrowedStep(cfg: StreamConfig, dir: Direction, r: Report, rest: seq<(Direction, Report)>)
    ensures Narrowed(cfg, [(dir, r)] + rest) == Narrowed(WithQos(cfg, dir, Selected(Of(cfg, dir).qos, r)), rest)
  {
    assert ([(dir, r)] + rest)[1..] == rest;
  }

  /** On every run of reports the stream is the first one narrowed by all preferences reported. */
  lemma {:induction false} ReportsNarrow(s: State, events: seq<Event>, t: State)
    requires !s.releasing && Run(s, events, t) && OnlyReports(events)
    ensures !t.releasing && t.stream == Narrowed(s.stream, Preferences(s, events))
    decreases |events|
  {
    if events != [] {
      var (e, rest) := (events[0], events[1..]);
      var u := Handled(s, e);
      if e.Reported? {
        ReportNarrows(s, e.i, e.state, e.report, e.ch);
        NarrowedStep(s.stream, s.ases[e.i].dir, e.report, Preferences(u, rest));
      }
      assert [] + Preferences(u, rest) == Preferences(u, rest);
      ReportsNarrow(u, rest, t);
    }
  }

  /** What the endpoints of one direction have agreed on, out of `was`. */
  ghost predicate Agreed(q: Qos, was: Qos, rs: seq<Report>) {
    if rs == [] then q == was
    else
      && q.latency == Max(5, Min(was.latency, MinLatency(rs)))
      && q.retransmissions == Min(10, Max(was.retransmissions, MaxRetransmissions(rs)))
      && q.targetLatency == was.targetLatency
      && q.phy == (if rs[|rs| - 1].phy != 0 then rs[|rs| - 1].phy else LE_2M_PHY)
      && (AllWellFormed(rs) && ShareAPoint(rs) ==>
            q.delay == Clamp(was.delay, MaxLow(rs), MinHigh(rs)) && InAllWindows(q.delay, rs))
  }

  lemma FoldedIsAgreed(was: Qos, rs: seq<Report>)
    ensures Agreed(Folded(was, rs), was, rs)
  {
    if rs != [] {
      FoldedClosedForm(was, rs);
      if AllWellFormed(rs) && ShareAPoint(rs) {
        SharedPointMeansOrderedBounds(rs);
        FoldedDelay(was, rs);
        var _, _ := Extremes(rs);
      }
    }
  }

  lemma NarrowedIsAgreed(cfg: StreamConfig, reports: seq<(Direction, Report)>, dir: Direction)
    ensures Agreed(Of(Narrowed(cfg, reports), dir).qos, Of(cfg, dir).qos, Only(dir, reports))
    ensures Of(Narrowed(cfg, reports), dir).core == Of(cfg, dir).core && Narrowed(cfg, reports).context == cfg.context
  {
    DirectionsDoNotInterfere(cfg, reports);
    FoldedIsAgreed(Of(cfg, dir).qos, Only(dir, reports));
  }

  /** So at the end of every run of reports the player's stream is, in either direction, what the
      endpoints of that direction have agreed on: in the window of each of them, if their windows
      share a point. */
  lemma PlayerHoldsWhatWasAgreed(s: State, events: seq<Event>, t: State, dir: Direction)
    requires !s.releasing && Run(s, events, t) && OnlyReports(events)
    ensures Agreed(Of(t.stream, dir).qos, Of(s.stream, dir).qos, Only(dir, Preferences(s, events)))
    ensures Of(t.stream, dir).core == Of(s.stream, dir).core && t.stream.context == s.stream.context
  {
    ReportsNarrow(s, events, t);
    NarrowedIsAgreed(s.stream, Preferences(s, events), dir);
  }

  // ---- What a stream starts from ----

  predicate PicksDirection(ases: seq<Ase>, picks: seq<nat>, dir: Direction) {
    exists k :: 0 <= k < |picks| && picks[k] < |ases| && ases[picks[k]].dir == dir
  }

  /** A direction is prepared exactly if an endpoint of it is picked. */
  lemma {:induction false} PreparedIffPicked(ases: seq<Ase>, cfg: StreamConfig, picks: seq<nat>, dir: Direction)
    requires forall k :: 0 <= k < |picks| ==> picks[k] < |ases|
    ensures Of(AllPrepared(ases, cfg, picks), dir) ==
            Of(if PicksDirection(ases, picks, dir) then Prepared(cfg, dir) else cfg, dir)
    ensures AllPrepared(ases, cfg, picks).context == cfg.context
    decreases |picks|
  {
    if picks != [] {
      var (d, rest) := (ases[picks[0]].dir, picks[1..]);
      PreparedValues(cfg, d);
      PreparedValues(cfg, dir);
      PreparedIffPicked(ases, Prepared(cfg, d), rest, dir);
      if PicksDirection(ases, rest, dir) {
        var k :| 0 <= k < |rest| && ases[rest[k]].dir == dir;
        assert picks[k + 1] == rest[k];
      } else if PicksDirection(ases, picks, dir) {
        var k :| 0 <= k < |picks| && ases[picks[k]].dir == dir;
        assert k > 0 ==> picks[k] == rest[k - 1];
      }
    }
  }

  /** A resumed mode has its stream prepared in the mode's own context. */
  lemma ResumedWith(s: State, mode: Mode, cfg: StreamConfig, ch: Choice)
    requires ValidPicks(s, ch.picks) && (ch.bidirContext.Game? || ch.bidirContext.Conversational?)
    requires (mode.MediaMode? && !s.media.Playing?) || mode.MicMode? || mode.BidirMicMode? || (mode.CallMode? && ch.inband)
    ensures var (t, c) := Resumed(s, mode, cfg, ch);
            && t.ases == AllConfigured(s, ch.picks).ases && t.slots == AllConfigured(s, ch.picks).slots
            && c == AllPrepared(s.ases, cfg.(context := ContextFor(mode, ch)), ch.picks)
  {
    if mode.CallMode? { ConfiguredAlike(s.(ringing := true), s, ch.picks); }
  }

  /** A release with a mode to follow starts that mode's stream: the configuration it was asked
      for with, or was paused with, in the context of the mode, prepared for every pick, and not
      what was negotiated before. A call that cannot ring in-band only rings. */
  lemma ReleaseRestarts(s: State, ch: Choice)
    requires Valid(s) && ValidPicks(s, ch.picks) && s.current.InTransit? && s.releasing && !s.paused.NoMode?
    requires ch.bidirContext.Game? || ch.bidirContext.Conversational?
    requires var m := if s.final.NoMode? then s.paused else s.final;
             (m.MediaMode? && !s.media.Playing?) || m.MicMode? || m.BidirMicMode? || m.CallMode?
    ensures var t := ReleaseCompleted(s, ch);
            var m := if s.final.NoMode? then s.paused else s.final;
            var cfg := if s.final.NoMode? then s.pausedStream else s.stream;
            && t.final == m && t.current.InTransit? && !t.releasing
            && (if m.CallMode? && !ch.inband then t.stream == cfg && t.ases == s.ases
                else
                  var c := s.(slots := Cleared(s.slots));
                  && t.stream == AllPrepared(s.ases, cfg.(context := ContextFor(m, ch)), ch.picks)
                  && t.ases == AllConfigured(c, ch.picks).ases && t.slots == AllConfigured(c, ch.picks).slots)
            && (m.MediaMode? ==> t.media.Playing?) && (m.CallMode? ==> t.ringing)
            && (if s.final.NoMode? then t.paused.NoMode? && t.pausedStream == t.stream
                else t.paused == s.paused && t.pausedStream == s.pausedStream)
  {
    var c := s.(slots := Cleared(s.slots), releasing := false);
    var m := if s.final.NoMode? then s.paused else s.final;
    ResumedKeepsModes(c, m, if s.final.NoMode? then s.pausedStream else s.stream, ch);
    if !(m.CallMode? && !ch.inband) {
      ResumedWith(c, m, if s.final.NoMode? then s.pausedStream else s.stream, ch);
      ConfiguredAlike(c, s.(slots := Cleared(s.slots)), ch.picks);
    }
  }

  /** What configuring does depends on endpoints and list alone. */
  lemma {:induction false} ConfiguredAlike(s: State, t: State, picks: seq<nat>)
    requires s.ases == t.ases && s.slots == t.slots && ValidPicks(s, picks)
    ensures AllConfigured(s, picks).ases == AllConfigured(t, picks).ases
    ensures AllConfigured(s, picks).slots == AllConfigured(t, picks).slots
    decreases |picks|
  {
    if picks != [] {
      ConfiguredAlike(Configured(s, picks[0]), Configured(t, picks[0]), picks[1..]);
    }
  }

  /** An accepted call ends the ring. Unless it rang in-band, it turns the stream into a
      conversation prepared for every pick. */
  lemma AcceptedCallConverses(s: State, ch: Choice)
    requires Handles(s, AcceptCall(ch))
    ensures var t := Handled(s, AcceptCall(ch));
            && !t.ringing && t.current == s.current && t.final == s.final && t.media == s.media
            && if s.ringing && ch.inband then t.stream == s.stream && t.ases == s.ases && t.slots == s.slots
               else
                 && t.stream == AllPrepared(s.ases, s.stream.(context := Conversational), ch.picks)
                 && t.ases == AllConfigured(s, ch.picks).ases && t.slots == AllConfigured(s, ch.picks).slots
  {
  }
}
