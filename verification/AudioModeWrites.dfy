/** What the player writes to the endpoints, and for which of them. */
module AudioModeWrites {
  import opened Wrappers
  import opened QosNegotiation
  import opened AseControl
  import opened AudioMode
  import opened AudioModeRuns

  predicate Lists(s: State, i: nat) {
    Some(i) in s.slots
  }

  function Repeat(opcode: AseOpcode, n: nat): (r: seq<AseOpcode>)
    ensures |r| == n && forall k :: 0 <= k < n ==> r[k] == opcode
  {
    seq(n, _ => opcode)
  }

  /** The same operation, `n` times more. */
  function Queued(a: Ase, opcode: AseOpcode, n: nat): Ase {
    a.(outbox := a.outbox + Repeat(opcode, n))
  }

  lemma QueuedOnce(a: Ase, opcode: AseOpcode, n: nat)
    ensures Queued(a, opcode, 0) == a && Queued(a, opcode, 1) == a.(outbox := a.outbox + [opcode])
    ensures Queued(a.(outbox := a.outbox + [opcode]), opcode, n) == Queued(a, opcode, n + 1)
  {
    assert a.outbox + Repeat(opcode, 0) == a.outbox && Repeat(opcode, 1) == [opcode];
    assert (a.outbox + [opcode]) + Repeat(opcode, n) == a.outbox + Repeat(opcode, n + 1);
  }

  // ---- Config Codec ----

  function Times(i: nat, picks: seq<nat>): nat {
    if picks == [] then 0 else (if picks[0] == i then 1 else 0) + Times(i, picks[1..])
  }

  /** Config Codec is written for an endpoint as often as it is picked. */
  lemma {:induction false} ConfigsAreWritten(s: State, picks: seq<nat>, i: nat)
    requires ValidPicks(s, picks) && i < |s.ases|
    ensures AllConfigured(s, picks).ases[i] == Queued(s.ases[i], ConfigCodec, Times(i, picks))
    decreases |picks|
  {
    QueuedOnce(s.ases[i], ConfigCodec, 0);
    if picks != [] {
      ConfigsAreWritten(Configured(s, picks[0]), picks[1..], i);
      QueuedOnce(s.ases[i], ConfigCodec, Times(i, picks[1..]));
    }
  }

  /** A member that comes back while a mode is settled joins the stream: its endpoints are
      configured in it, and prepared for it; in any other state it is left alone. */
  lemma ReconnectionJoins(s: State, ch: Choice, i: nat)
    requires Handles(s, MemberReconnected(ch)) && i < |s.ases|
    ensures var t := Handled(s, MemberReconnected(ch));
            if s.current.NoMode? || s.current.Broadcast? || s.current.InTransit? then t == s
            else
              && t.ases[i] == Queued(s.ases[i], ConfigCodec, Times(i, ch.picks))
              && t.stream == AllPrepared(s.ases, s.stream, ch.picks)
              && t.current == s.current && t.media == s.media && t.paused == s.paused
  {
    ConfigsAreWritten(s, ch.picks, i);
  }

  // ---- Release ----

  /** How many slots from `k` on list endpoint `i`. */
  function Listings(slots: seq<Option<nat>>, i: nat, k: nat): nat
    requires k <= |slots|
    decreases |slots| - k
  {
    if k == |slots| then 0 else (if slots[k] == Some(i) then 1 else 0) + Listings(slots, i, k + 1)
  }

  lemma {:induction false} ListedOnce(slots: seq<Option<nat>>, i: nat, k: nat)
    requires k <= |slots|
    requires forall j, m :: 0 <= j < m < |slots| && slots[j].Some? ==> slots[j] != slots[m]
    ensures Listings(slots, i, k) == if Some(i) in slots[k..] then 1 else 0
    decreases |slots| - k
  {
    if k < |slots| {
      ListedOnce(slots, i, k + 1);
      assert slots[k..] == [slots[k]] + slots[k + 1..];
    }
  }

  /** One Release is written for each slot that lists the endpoint, behind what is queued. */
  lemma {:induction false} ReleasesAreWritten(s: State, k: nat, i: nat)
    requires k <= |s.slots| && Valid(s) && i < |s.ases|
    ensures ReleasedFrom(s, k).ases[i] == Queued(s.ases[i], Release, Listings(s.slots, i, k))
    decreases |s.slots| - k
  {
    QueuedOnce(s.ases[i], Release, 0);
    if k < |s.slots| {
      if s.slots[k].None? {
        ReleasesAreWritten(s, k + 1, i);
      } else {
        ReleasesAreWritten(Written(s, s.slots[k].value, Release).(releasing := true), k + 1, i);
        QueuedOnce(s.ases[i], Release, Listings(s.slots, i, k + 1));
      }
    }
  }

  /** An error response in or on the way to a stream mode releases every listed endpoint, once if
      it is listed once, before the list is forgotten; only media that was paused already is not
      released again. */
  lemma ErrorReleasesAll(s: State, i: nat)
    requires Handles(s, ErrorResponse) && i < |s.ases|
    ensures var t := Handled(s, ErrorResponse);
            && t.ases[i] == Queued(s.ases[i], Release, if ErrorStops(s) then Listings(s.slots, i, 0) else 0)
            && t.media == (if s.final.MediaMode? then Paused else s.media)
            && t.current.NoMode? && t.final.NoMode? && t.paused.NoMode? && !t.releasing
            && forall k :: 0 <= k < |t.slots| ==> t.slots[k].None?
  {
    ReleasesAreWritten(s, 0, i);
    QueuedOnce(s.ases[i], Release, 0);
  }

  predicate ErrorStops(s: State) {
    && Streamable(s.stream.context)
    && (s.final.MicMode? || s.final.BidirMicMode? || s.final.CallMode? || (s.final.MediaMode? && !s.media.Paused?))
  }

  // ---- The list without a lost connection ----

  /** An endpoint stays listed exactly if its connection was not the one that was lost; slots
      keep their places. */
  lemma LostMembersLeaveTheList(s: State, gone: set<nat>, i: nat)
    requires Handles(s, MemberGone(gone))
    ensures Lists(Handled(s, MemberGone(gone)), i) <==> Lists(s, i) && i !in gone
    ensures Handled(s, MemberGone(gone)).ases == s.ases
    ensures Handled(s, MemberGone(gone)).current == s.current
  {
    var r := WithoutGone(s.slots, gone);
    if Some(i) in r {
      var k :| 0 <= k < |r| && r[k] == Some(i);
      assert s.slots[k] == Some(i);
    }
    if Some(i) in s.slots && i !in gone {
      var k :| 0 <= k < |s.slots| && s.slots[k] == Some(i);
      assert r[k] == Some(i);
    }
  }

  // ---- Answers to reports ----

  /** The operation that a report is answered with, if any. */
  function Answer(releasing: bool, state: AseState): Option<AseOpcode> {
    match state
    case Disabling => Some(ReceiverStopReady)
    case CodecConfigured => if releasing then None else Some(ConfigQos)
    case QosConfigured => if releasing then None else Some(Enable)
    case Idle => None
    case Enabling => None
    case Streaming => None
    case Releasing => None
  }

  /** Every answer is one that the endpoint's table allows in the state it reported, and takes it
      further: from Codec Configured to QoS Configured, from there to Enabling, and from
      Disabling back to QoS Configured. Nothing is written for any other endpoint. */
  lemma AnswersMoveOn(s: State, i: nat, state: AseState, report: Report)
    requires i < |s.ases|
    ensures var (t, answer) := (Answered(s, i, state, report), Answer(s.releasing, state));
            && t.ases[i] == Queued(s.ases[i].(view := state), if answer.Some? then answer.value else Release,
                                   if answer.Some? then 1 else 0)
            && forall j :: 0 <= j < |s.ases| && j != i ==> t.ases[j] == s.ases[j]
    ensures var answer := Answer(s.releasing, state);
            answer.Some? ==>
              Transition(s.ases[i].dir, state, answer.value) ==
              (if state.QosConfigured? then Some(Enabling) else Some(QosConfigured))
  {
    var a := s.ases[i].(view := state);
    QueuedOnce(a, Release, 0);
    QueuedOnce(a, ConfigQos, 0);
    QueuedOnce(a, Enable, 0);
    QueuedOnce(a, ReceiverStopReady, 0);
  }
}
