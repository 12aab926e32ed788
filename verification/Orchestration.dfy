/** Stream set-up and release end to end: the player of AudioMode, any number of remote
    endpoints that follow the endpoint state machine, and the operations and reports in
    flight between them. "CIS established" and "endpoint released" are steps of the
    environment. Requests concern media, microphone, conversation and calls. */
module Orchestration {
  import opened Wrappers
  import opened QosNegotiation
  import opened AseControl
  import opened AudioMode
  import AudioModeRuns

  /** `caches` says whether a release ends in Codec Configured rather than in Idle. */
  datatype Server = Server(state: AseState, caches: bool, notifs: seq<AseState>)

  /** `cigUp` tells that an isochronous group was created for the current stream, `inband` that
      both sides support an in-band ringtone. */
  datatype Sys = Sys(player: State, servers: seq<Server>, cigUp: bool, inband: bool)

  function Target(r: Server): AseState {
    if r.caches then CodecConfigured else Idle
  }

  datatype Step =
    | Request(e: Event)
    | DeliverOperation(i: nat)
    | DeliverReport(i: nat, report: Report, ch: Choice)
    | Establish(i: nat)
    | FinishRelease(i: nat)

  predicate IsDelivery(step: Step) {
    !step.Request?
  }

  /** The peers offer at least one endpoint, no endpoint twice, no more than the list holds,
      and a context that can be streamed. */
  predicate GoodChoice(p: State, ch: Choice) {
    && ValidPicks(p, ch.picks)
    && 0 < |ch.picks| <= |p.slots|
    && (forall j, k :: 0 <= j < k < |ch.picks| ==> ch.picks[j] != ch.picks[k])
    && (ch.bidirContext.Game? || ch.bidirContext.Conversational?)
  }

  predicate NoneListed(p: State, picks: seq<nat>) {
    forall k :: 0 <= k < |picks| ==> Some(picks[k]) !in p.slots
  }

  /** The list still has room for endpoints that are not in it yet. */
  predicate HasRoom(p: State, picks: seq<nat>) {
    NoneListed(p, picks) ==> FirstFree(p.slots) + |picks| <= |p.slots|
  }

  /** What may be requested, in any state. When a call is accepted only the player's own support
      of an in-band ringtone is looked at; when it begins and ends, that of the peer too. */
  predicate IsStreamRequest(s: Sys, e: Event) {
    match e
    case Play(_, ch) => GoodChoice(s.player, ch)
    case RemotePlay(ch) => GoodChoice(s.player, ch)
    case StartMic(_, ch) => GoodChoice(s.player, ch)
    case StartBidir(_, ch) => GoodChoice(s.player, ch)
    case IncomingCall(_, ch) => GoodChoice(s.player, ch) && ch.inband == s.inband
    case AcceptCall(ch) => GoodChoice(s.player, ch) && (s.inband ==> ch.inband) && HasRoom(s.player, ch.picks)
    case EndCall(ch) => GoodChoice(s.player, ch) && ch.inband == s.inband
    case RemoteEndCall(ch) => GoodChoice(s.player, ch) && ch.inband == s.inband
    case Pause => true
    case RemotePause => true
    case StopMic => true
    case StopBidir => true
    case Disconnect => true
    case _ => false
  }

  // ---- The discipline ----

  /** A settled mode, and every listed endpoint has reported Streaming. */
  predicate Quiet(p: State) {
    !p.current.InTransit? && AllListedIn(p, Streaming)
  }

  /** A call without an in-band ringtone rings: the player waits, with nothing listed. */
  predicate RingsSilently(p: State) {
    PhaseOf(p).Waiting? && p.ringing && p.final.CallMode?
  }

  predicate AnswersCall(e: Event) {
    e.AcceptCall? || e.EndCall? || e.RemoteEndCall?
  }

  /** Accepting a call that does not ring in-band configures its endpoints whatever they are
      doing: one of them is listed already. */
  predicate Clashes(p: State, e: Event) {
    e.AcceptCall? && !(p.ringing && e.ch.inband) && !NoneListed(p, e.ch.picks)
  }

  /** The discipline: requests arrive in a quiet player, or answer a call that rings silently, or
      accept a call while a stream runs; and no call is accepted over endpoints that are listed
      already. */
  predicate Calm(p: State, e: Event) {
    && (Quiet(p) || (RingsSilently(p) && AnswersCall(e)) || (PhaseOf(p).Live? && e.AcceptCall?))
    && !Clashes(p, e)
  }

  predicate Enabled(s: Sys, step: Step) {
    && |s.servers| == |s.player.ases|
    && Valid(s.player)
    && match step
       case Request(e) => IsStreamRequest(s, e)
       case DeliverOperation(i) => i < |s.servers| && s.player.ases[i].outbox != []
       case DeliverReport(i, _, ch) =>
         i < |s.servers| && s.servers[i].notifs != [] && GoodChoice(s.player, ch) && ch.inband == s.inband
       case Establish(i) => i < |s.servers| && s.servers[i].state.Enabling? && s.cigUp
       case FinishRelease(i) => i < |s.servers| && s.servers[i].state.Releasing?
  }

  function Entered(r: Server, state: AseState): Server {
    r.(state := state, notifs := r.notifs + [state])
  }

  /** What the endpoint's table says to the next operation in flight. */
  function Outcome(s: Sys, i: nat): Option<AseState>
    requires Enabled(s, DeliverOperation(i))
  {
    Transition(s.player.ases[i].dir, s.servers[i].state, s.player.ases[i].outbox[0])
  }

  function Next(s: Sys, step: Step): (t: Sys)
    requires Enabled(s, step)
    ensures |t.servers| == |s.servers| && |t.player.ases| == |s.player.ases| && Valid(t.player)
  {
    match step
    case Request(e) => s.(player := Handled(s.player, e))
    case DeliverOperation(i) =>
      var a, r := s.player.ases[i], s.servers[i];
      s.(player := s.player.(ases := s.player.ases[i := a.(outbox := a.outbox[1..])]),
         servers := s.servers[i := if Outcome(s, i).Some? then Entered(r, Outcome(s, i).value) else r])
    case DeliverReport(i, report, ch) =>
      var r := s.servers[i];
      var p := AfterReport(s.player, i, r.notifs[0], report, ch);
      Sys(p, s.servers[i := r.(notifs := r.notifs[1..])],
          if p.cigs > s.player.cigs then true
          else if s.player.releasing && !p.releasing then false
          else s.cigUp,
          s.inband)
    case Establish(i) => s.(servers := s.servers[i := Entered(s.servers[i], Streaming)])
    case FinishRelease(i) => s.(servers := s.servers[i := Entered(s.servers[i], Target(s.servers[i]))])
  }

  // ---- Where one endpoint can be ----

  predicate AtRest(a: Ase, r: Server) {
    && a.outbox == [] && r.notifs == [] && r.state == a.view
    && (r.state.Idle? || r.state.CodecConfigured?)
  }

  predicate InSetup(a: Ase, r: Server) {
    || (a.outbox == [ConfigCodec] && r.notifs == [] && r.state == a.view && (r.state.Idle? || r.state.CodecConfigured?))
    || (a.outbox == [] && r.notifs == [CodecConfigured] && r.state.CodecConfigured?
        && (a.view.Idle? || a.view.CodecConfigured?))
    || (a.outbox == [ConfigQos] && r.notifs == [] && r.state.CodecConfigured? && a.view.CodecConfigured?)
    || (a.outbox == [] && r.notifs == [QosConfigured] && r.state.QosConfigured? && a.view.CodecConfigured?)
    || (a.outbox == [Enable] && r.notifs == [] && r.state.QosConfigured? && a.view.QosConfigured?)
    || (a.outbox == [] && r.notifs == [Enabling] && r.state.Enabling? && a.view.QosConfigured?)
    || (a.outbox == [] && r.notifs == [] && r.state.Enabling? && a.view.Enabling?)
  }

  predicate IsLive(a: Ase, r: Server) {
    && a.outbox == []
    && OnAir(a.view, r)
  }

  /** An endpoint that an accepted call adds to a running stream: the group is up already, so it
      can be established before its Enabling report is in. */
  predicate IsJoining(a: Ase, r: Server) {
    || InSetup(a, r)
    || (a.outbox == [] && r.notifs == [Enabling, Streaming] && r.state.Streaming? && a.view.QosConfigured?)
  }

  predicate OnAir(view: AseState, r: Server) {
    || (r.notifs == [] && r.state.Enabling? && view.Enabling?)
    || (r.notifs == [Streaming] && r.state.Streaming? && view.Enabling?)
    || (r.notifs == [] && r.state.Streaming? && view.Streaming?)
  }

  predicate IsClosing(a: Ase, r: Server) {
    || (a.outbox == [Release] && r.notifs == [] && r.state.Streaming? && a.view.Streaming?)
    || (a.outbox == [] && r.notifs == [Releasing] && r.state.Releasing? && a.view.Streaming?)
    || (a.outbox == [] && r.notifs == [] && r.state.Releasing? && a.view.Releasing?)
    || (a.outbox == [] && r.notifs == [Releasing, Target(r)] && r.state == Target(r) && a.view.Streaming?)
    || (a.outbox == [] && r.notifs == [Target(r)] && r.state == Target(r) && a.view.Releasing?)
    || (a.outbox == [] && r.notifs == [] && r.state == Target(r) && a.view == Target(r))
  }

  // ---- The invariant ----

  /** `Stray`: endpoints are being set up in no mode. `Waiting`: in transit with nothing listed,
      while a call rings silently or for good. */
  datatype Phase = Off | Stray | Waiting | Setup | Live | Closing

  function PhaseOf(p: State): Phase {
    if p.current.InTransit? then (if p.releasing then Closing else if SomeListed(p) then Setup else Waiting)
    else if p.current.NoMode? then (if SomeListed(p) then Stray else Off)
    else Live
  }

  predicate Listed(p: State, i: nat) {
    Some(i) in p.slots
  }

  predicate SomeListed(p: State) {
    exists k :: 0 <= k < |p.slots| && p.slots[k].Some?
  }

  predicate Distinct(p: State) {
    forall j, k :: 0 <= j < k < |p.slots| && p.slots[j].Some? ==> p.slots[j] != p.slots[k]
  }

  predicate AseOk(p: State, i: nat, r: Server)
    requires i < |p.ases|
  {
    var a := p.ases[i];
    if !Listed(p, i) then AtRest(a, r)
    else
      match PhaseOf(p)
      case Off => false
      case Stray => InSetup(a, r)
      case Waiting => false
      case Setup => InSetup(a, r)
      case Live => IsLive(a, r) || IsJoining(a, r)
      case Closing => IsClosing(a, r)
  }

  predicate IsUserMode(m: Mode) {
    m.MediaMode? || m.MicMode? || m.BidirMicMode? || m.CallMode?
  }

  /** The first slots are taken, the rest are free. */
  predicate Packed(slots: seq<Option<nat>>) {
    FilledTo(slots, FirstFree(slots))
  }

  /** Media plays in media mode, and not while that is paused. (After a disturbing request it
      can also play in other modes.) */
  predicate MediaOk(p: State) {
    && (Effective(p).MediaMode? ==> p.media.Playing?)
    && (p.paused.MediaMode? ==> !p.media.Playing?)
  }

  predicate ModesOk(p: State) {
    && AudioModeRuns.Shape(p) && MediaOk(p)
    && (p.paused.NoMode? || IsUserMode(p.paused))
    && (p.final.NoMode? || IsUserMode(p.final))
    && (p.paused.NoMode? || p.final.NoMode? || Level(p.paused) <= Level(p.final))
  }

  predicate PlayerOk(p: State) {
    && Valid(p) && Distinct(p) && Packed(p.slots) && ModesOk(p)
    && match PhaseOf(p)
       case Off => p.paused.NoMode? && !p.releasing
       case Stray => p.paused.NoMode? && !p.releasing
       case Waiting => true
       case Setup => IsUserMode(p.final) && Streamable(p.stream.context) && !AllListedIn(p, Enabling)
       case Live => SomeListed(p) && Streamable(p.stream.context) && !p.releasing
       case Closing =>
         && SomeListed(p)
         && !AllListedIn(p, Idle) && !AllListedIn(p, CodecConfigured)
         && (!p.final.NoMode? ==> !p.paused.NoMode? && !p.final.MediaMode?)
  }

  /** Without in-band support a call rings while the player waits for its answer, and only then. */
  predicate RingsRightly(p: State, inband: bool) {
    && (p.ringing && !inband ==> RingsSilently(p))
    && (RingsSilently(p) ==> !inband)
  }

  ghost predicate Inv(s: Sys) {
    && |s.servers| == |s.player.ases|
    && PlayerOk(s.player)
    && RingsRightly(s.player, s.inband)
    && (s.cigUp <==> PhaseOf(s.player).Live? || PhaseOf(s.player).Closing?)
    && (forall i :: 0 <= i < |s.servers| ==> AseOk(s.player, i, s.servers[i]))
  }

  ghost predicate Init(s: Sys) {
    && |s.servers| == |s.player.ases|
    && AudioModeRuns.Init(s.player)
    && !s.player.ringing && !s.player.releasing
    && !SomeListed(s.player) && !s.cigUp
    && (forall i :: 0 <= i < |s.servers| ==> AtRest(s.player.ases[i], s.servers[i]))
  }

  lemma EmptyIsPacked(slots: seq<Option<nat>>)
    requires forall k :: 0 <= k < |slots| ==> slots[k].None?
    ensures Packed(slots) && FirstFree(slots) == 0
  {
  }

  lemma InitHasInv(s: Sys)
    requires Init(s)
    ensures Inv(s)
  {
    EmptyIsPacked(s.player.slots);
    forall i | 0 <= i < |s.servers|
      ensures AseOk(s.player, i, s.servers[i])
    {
      assert !Listed(s.player, i);
    }
  }

  // ---- Starting: Config Codec goes out to every pick ----

  lemma {:induction false} FirstFreeIs(slots: seq<Option<nat>>, m: nat)
    requires m < |slots| && slots[m].None?
    requires forall k :: 0 <= k < m ==> slots[k].Some?
    ensures FirstFree(slots) == m
  {
    if m > 0 {
      FirstFreeIs(slots[1..], m - 1);
    }
  }

  /** The first `m` slots are taken, the rest are free. */
  predicate FilledTo(slots: seq<Option<nat>>, m: nat) {
    && m <= |slots|
    && (forall k :: 0 <= k < m ==> slots[k].Some?)
    && (forall k :: m <= k < |slots| ==> slots[k].None?)
  }

  lemma TakenSlot(slots: seq<Option<nat>>, m: nat, v: nat)
    requires m < |slots| && slots[m].None?
    ensures forall i :: Some(i) in slots[m := Some(v)] <==> Some(i) in slots || i == v
  {
    var q := slots[m := Some(v)];
    assert q[m] == Some(v);
    forall i | Some(i) in slots
      ensures Some(i) in q
    {
      var k :| 0 <= k < |slots| && slots[k] == Some(i);
      assert q[k] == Some(i);
    }
  }

  lemma PackedTo(slots: seq<Option<nat>>, m: nat)
    requires FilledTo(slots, m)
    ensures FirstFree(slots) == m && Packed(slots)
  {
    if m < |slots| {
      FirstFreeIs(slots, m);
    }
  }

  lemma {:induction false} ConfiguredSlots(p: State, picks: seq<nat>, m: nat)
    requires ValidPicks(p, picks) && Valid(p) && Distinct(p)
    requires FilledTo(p.slots, m) && m + |picks| <= |p.slots|
    requires forall j, k :: 0 <= j < k < |picks| ==> picks[j] != picks[k]
    requires NoneListed(p, picks)
    ensures var t := AllConfigured(p, picks);
            && Distinct(t)
            && |t.slots| == |p.slots|
            && FilledTo(t.slots, m + |picks|)
            && (forall i :: Some(i) in t.slots <==> Some(i) in p.slots || i in picks)
    decreases |picks|
  {
    if picks != [] {
      FirstFreeIs(p.slots, m);
      var q := Configured(p, picks[0]);
      assert q.slots == p.slots[m := Some(picks[0])];
      assert q.slots[m] == Some(picks[0]);
      TakenSlot(p.slots, m, picks[0]);
      ConfiguredSlots(q, picks[1..], m + 1);
      assert forall i :: i in picks <==> i == picks[0] || i in picks[1..];
    }
  }

  /** Each pick is sent one Config Codec, whatever the list looks like. */
  lemma {:induction false} ConfiguredAses(p: State, picks: seq<nat>)
    requires ValidPicks(p, picks)
    requires forall j, k :: 0 <= j < k < |picks| ==> picks[j] != picks[k]
    ensures forall i :: 0 <= i < |p.ases| ==>
              AllConfigured(p, picks).ases[i] ==
                if i in picks then p.ases[i].(outbox := p.ases[i].outbox + [ConfigCodec]) else p.ases[i]
    decreases |picks|
  {
    if picks != [] {
      ConfiguredAses(Configured(p, picks[0]), picks[1..]);
      assert forall i :: i in picks <==> i == picks[0] || i in picks[1..];
    }
  }

  lemma ConfiguredForm(p: State, picks: seq<nat>)
    requires ValidPicks(p, picks) && Valid(p) && Distinct(p) && Packed(p.slots)
    requires FirstFree(p.slots) + |picks| <= |p.slots|
    requires forall j, k :: 0 <= j < k < |picks| ==> picks[j] != picks[k]
    requires NoneListed(p, picks)
    ensures var t := AllConfigured(p, picks);
            && Distinct(t) && Packed(t.slots)
            && |t.slots| == |p.slots|
            && (forall i :: Some(i) in t.slots <==> Some(i) in p.slots || i in picks)
            && (forall i :: 0 <= i < |p.ases| ==>
                  t.ases[i] == if i in picks then p.ases[i].(outbox := p.ases[i].outbox + [ConfigCodec]) else p.ases[i])
  {
    ConfiguredSlots(p, picks, FirstFree(p.slots));
    ConfiguredAses(p, picks);
    PackedTo(AllConfigured(p, picks).slots, FirstFree(p.slots) + |picks|);
  }

  // ---- Stopping: Release goes out to every listed endpoint ----

  predicate ListedFrom(p: State, k: nat, i: nat)
    requires k <= |p.slots|
  {
    exists l :: k <= l < |p.slots| && p.slots[l] == Some(i)
  }

  lemma {:induction false} ReleasedAt(p: State, k: nat, i: nat)
    requires Valid(p) && Distinct(p) && k <= |p.slots| && i < |p.ases|
    ensures ReleasedFrom(p, k).ases[i] ==
            if ListedFrom(p, k, i) then p.ases[i].(outbox := p.ases[i].outbox + [Release]) else p.ases[i]
    decreases |p.slots| - k
  {
    if k < |p.slots| {
      if p.slots[k].Some? {
        ReleasedAt(Written(p, p.slots[k].value, Release).(releasing := true), k + 1, i);
      } else {
        ReleasedAt(p, k + 1, i);
      }
    }
  }

  lemma {:induction false} ReleasedSets(p: State, k: nat)
    requires Valid(p) && k <= |p.slots|
    ensures ReleasedFrom(p, k).releasing == (p.releasing || exists l :: k <= l < |p.slots| && p.slots[l].Some?)
    decreases |p.slots| - k
  {
    if k < |p.slots| {
      if p.slots[k].Some? {
        ReleasedSets(Written(p, p.slots[k].value, Release).(releasing := true), k + 1);
      } else {
        ReleasedSets(p, k + 1);
      }
    }
  }

  lemma StoppedForm(p: State)
    requires Valid(p) && Distinct(p) && SomeListed(p) && Streamable(p.stream.context)
    ensures var t := Stopped(p);
            && t.releasing
            && (forall i :: 0 <= i < |p.ases| ==>
                  t.ases[i] == if Listed(p, i) then p.ases[i].(outbox := p.ases[i].outbox + [Release]) else p.ases[i])
  {
    ReleasedSets(p, 0);
    forall i | 0 <= i < |p.ases|
      ensures Stopped(p).ases[i] == if Listed(p, i) then p.ases[i].(outbox := p.ases[i].outbox + [Release]) else p.ases[i]
    {
      ReleasedAt(p, 0, i);
    }
  }

  // ---- Operations ----

  /** No operation in flight is ever rejected by the endpoint's table. */
  lemma NoRejection(s: Sys, i: nat)
    requires Inv(s) && Enabled(s, DeliverOperation(i))
    ensures Outcome(s, i).Some?
    ensures |s.player.ases[i].outbox| == 1
  {
    assert AseOk(s.player, i, s.servers[i]);
  }

  // ---- One endpoint moves ----

  /** All that a step for endpoint `i` changes is that endpoint and what is in flight for it. */
  ghost predicate OnlyMoves(s: Sys, t: Sys, i: nat) {
    && |t.servers| == |s.servers| && |t.player.ases| == |s.player.ases| == |s.servers| && i < |s.servers|
    && t.player == s.player.(ases := t.player.ases, stream := t.player.stream)
    && t.player.stream.context == s.player.stream.context
    && t.cigUp == s.cigUp && t.inband == s.inband
    && forall j :: 0 <= j < |s.servers| && j != i ==>
         t.player.ases[j] == s.player.ases[j] && t.servers[j] == s.servers[j]
  }

  /** The reports that would end a phase are not all in. */
  predicate Unfinished(p: State) {
    match PhaseOf(p)
    case Setup => !AllListedIn(p, Enabling)
    case Closing => !AllListedIn(p, Idle) && !AllListedIn(p, CodecConfigured)
    case _ => true
  }

  lemma SamePhase(p: State, q: State)
    requires q == p.(ases := q.ases, stream := q.stream)
    ensures PhaseOf(q) == PhaseOf(p)
  {
  }

  lemma PlayerMoves(p: State, q: State)
    requires PlayerOk(p) && q == p.(ases := q.ases, stream := q.stream) && |q.ases| == |p.ases|
    requires q.stream.context == p.stream.context && Unfinished(q)
    ensures PlayerOk(q)
  {
    SamePhase(p, q);
    SameSlotsSameList(p, q);
  }

  lemma MoveKeepsInv(s: Sys, t: Sys, i: nat)
    requires Inv(s) && OnlyMoves(s, t, i) && PlayerOk(t.player) && AseOk(t.player, i, t.servers[i])
    ensures Inv(t)
  {
    SamePhase(s.player, t.player);
    forall j | 0 <= j < |t.servers|
      ensures AseOk(t.player, j, t.servers[j])
    {
      assert AseOk(s.player, j, s.servers[j]);
    }
  }

  lemma SameViewsSameAnswer(p: State, q: State, state: AseState)
    requires q.slots == p.slots && |q.ases| == |p.ases|
    requires forall i :: 0 <= i < |p.ases| ==> q.ases[i].view == p.ases[i].view
    ensures AllListedIn(q, state) == AllListedIn(p, state)
  {
  }

  lemma SameSlotsSameList(p: State, q: State)
    requires q.slots == p.slots
    ensures SomeListed(q) == SomeListed(p)
  {
  }

  lemma ViewsUnchanged(p: State, q: State)
    requires q == p.(ases := q.ases, stream := q.stream) && |q.ases| == |p.ases|
    requires q.stream.context == p.stream.context
    requires forall i :: 0 <= i < |p.ases| ==> q.ases[i].view == p.ases[i].view
    requires PlayerOk(p)
    ensures PlayerOk(q)
  {
    SamePhase(p, q);
    SameViewsSameAnswer(p, q, Enabling);
    SameViewsSameAnswer(p, q, Idle);
    SameViewsSameAnswer(p, q, CodecConfigured);
    PlayerMoves(p, q);
  }

  lemma SetupMoves(a: Ase, r: Server, state: AseState)
    requires a.outbox != [] && InSetup(a, r) && Transition(a.dir, r.state, a.outbox[0]) == Some(state)
    ensures InSetup(a.(outbox := a.outbox[1..]), Entered(r, state))
  {
    assert [] + [state] == [state];
  }

  lemma ClosingMoves(a: Ase, r: Server, state: AseState)
    requires a.outbox != [] && IsClosing(a, r) && Transition(a.dir, r.state, a.outbox[0]) == Some(state)
    ensures IsClosing(a.(outbox := a.outbox[1..]), Entered(r, state))
  {
    assert [] + [state] == [state];
  }

  lemma OperationMoves(p: State, i: nat, a: Ase, r: Server, state: AseState)
    requires i < |p.ases| && p.ases[i] == a && a.outbox != [] && AseOk(p, i, r)
    requires Transition(a.dir, r.state, a.outbox[0]) == Some(state)
    ensures var q := p.(ases := p.ases[i := a.(outbox := a.outbox[1..])]); AseOk(q, i, Entered(r, state))
  {
    var q := p.(ases := p.ases[i := a.(outbox := a.outbox[1..])]);
    SamePhase(p, q);
    if PhaseOf(p).Closing? {
      ClosingMoves(a, r, state);
    } else {
      SetupMoves(a, r, state);
    }
  }

  lemma OperationKeepsInv(s: Sys, i: nat)
    requires Inv(s) && Enabled(s, DeliverOperation(i))
    ensures Inv(Next(s, DeliverOperation(i)))
  {
    NoRejection(s, i);
    var t := Next(s, DeliverOperation(i));
    assert AseOk(s.player, i, s.servers[i]);
    OperationMoves(s.player, i, s.player.ases[i], s.servers[i], Outcome(s, i).value);
    ViewsUnchanged(s.player, t.player);
    MoveKeepsInv(s, t, i);
  }

  lemma EstablishMoves(s: Sys, i: nat)
    requires Inv(s) && Enabled(s, Establish(i))
    ensures AseOk(s.player, i, Next(s, Establish(i)).servers[i])
  {
    assert AseOk(s.player, i, s.servers[i]);
    EstablishedIsLive(s.player.ases[i], s.servers[i]);
  }

  lemma EstablishedIsLive(a: Ase, r: Server)
    requires r.state.Enabling? && (IsLive(a, r) || IsJoining(a, r))
    ensures IsLive(a, Entered(r, Streaming)) || IsJoining(a, Entered(r, Streaming))
  {
    assert [] + [Streaming] == [Streaming] && [Enabling] + [Streaming] == [Enabling, Streaming];
  }

  lemma FinishMoves(s: Sys, i: nat)
    requires Inv(s) && Enabled(s, FinishRelease(i))
    ensures AseOk(s.player, i, Next(s, FinishRelease(i)).servers[i])
  {
    assert AseOk(s.player, i, s.servers[i]);
    var target := Target(s.servers[i]);
    assert [] + [target] == [target] && [Releasing] + [target] == [Releasing, target];
  }

  lemma EnvironmentKeepsInv(s: Sys, step: Step)
    requires Inv(s) && Enabled(s, step) && (step.Establish? || step.FinishRelease?)
    ensures Inv(Next(s, step))
  {
    if step.Establish? { EstablishMoves(s, step.i); } else { FinishMoves(s, step.i); }
    MoveKeepsInv(s, Next(s, step), step.i);
  }

  // ---- Reports ----

  ghost predicate AllAtRest(p: State, servers: seq<Server>) {
    && |servers| == |p.ases|
    && forall i :: 0 <= i < |servers| ==> AtRest(p.ases[i], servers[i])
  }

  lemma SomeoneIsListed(p: State, i: nat)
    requires Listed(p, i)
    ensures SomeListed(p)
  {
    var k :| 0 <= k < |p.slots| && p.slots[k] == Some(i);
    assert p.slots[k].Some?;
  }

  lemma NotAllIn(p: State, i: nat, state: AseState)
    requires Listed(p, i) && i < |p.ases| && p.ases[i].view != state
    ensures !AllListedIn(p, state)
  {
    var k :| 0 <= k < |p.slots| && p.slots[k] == Some(i);
  }

  /** Endpoints at rest and an empty list: configuring the picks puts exactly them in set-up. */
  lemma ConfiguredIsSetup(p: State, servers: seq<Server>, ch: Choice)
    requires Valid(p) && !SomeListed(p) && AllAtRest(p, servers) && GoodChoice(p, ch)
    ensures var t := AllConfigured(p, ch.picks);
            && Distinct(t) && Packed(t.slots) && SomeListed(t) && !AllListedIn(t, Enabling) && |t.slots| == |p.slots|
            && forall i :: 0 <= i < |servers| ==>
                 if Listed(t, i) then InSetup(t.ases[i], servers[i]) else AtRest(t.ases[i], servers[i])
  {
    EmptyIsPacked(p.slots);
    assert forall i :: Some(i) !in p.slots;
    ConfiguredForm(p, ch.picks);
    var t := AllConfigured(p, ch.picks);
    var i := ch.picks[0];
    assert i in ch.picks && t.ases[i].view == p.ases[i].view;
    SomeoneIsListed(t, i);
    NotAllIn(t, i, Enabling);
    assert [] + [ConfigCodec] == [ConfigCodec];
  }

  predicate SameUserConfig(a: StreamConfig, b: StreamConfig) {
    a.sink.core == b.sink.core && a.source.core == b.source.core
  }

  lemma {:induction false} PreparedKeeps(ases: seq<Ase>, cfg: StreamConfig, picks: seq<nat>)
    requires forall k :: 0 <= k < |picks| ==> picks[k] < |ases|
    ensures AllPrepared(ases, cfg, picks).context == cfg.context
    ensures SameUserConfig(AllPrepared(ases, cfg, picks), cfg)
    decreases |picks|
  {
    if picks != [] {
      PreparedKeeps(ases, Prepared(cfg, ases[picks[0]].dir), picks[1..]);
    }
  }

  lemma ResumedForm(p: State, mode: Mode, cfg: StreamConfig, ch: Choice)
    requires ValidPicks(p, ch.picks) && (ch.bidirContext.Game? || ch.bidirContext.Conversational?)
    requires IsUserMode(mode) && (mode.MediaMode? ==> !p.media.Playing?) && (mode.CallMode? ==> ch.inband)
    ensures var (t, c) := Resumed(p, mode, cfg, ch);
            var r := AllConfigured(if mode.CallMode? then p.(ringing := true) else p, ch.picks);
            && Streamable(c.context) && SameUserConfig(c, cfg)
            && t == AudioModeRuns.Announcing(p, mode).(ases := r.ases, slots := r.slots)
  {
    PreparedKeeps(p.ases, cfg.(context := AudioModeRuns.ContextFor(mode, ch)), ch.picks);
  }

  /** The stream the player wants next starts from rest. */
  lemma ResumedIsSetup(p: State, servers: seq<Server>, mode: Mode, cfg: StreamConfig, ch: Choice)
    requires Valid(p) && !SomeListed(p) && AllAtRest(p, servers) && GoodChoice(p, ch)
    requires IsUserMode(mode) && (mode.MediaMode? ==> !p.media.Playing?) && (mode.CallMode? ==> ch.inband)
    ensures var (t, c) := Resumed(p, mode, cfg, ch);
            && Streamable(c.context) && SameUserConfig(c, cfg)
            && t == AudioModeRuns.Announcing(p, mode).(ases := t.ases, slots := t.slots)
            && Distinct(t) && Packed(t.slots) && SomeListed(t) && !AllListedIn(t, Enabling)
            && |t.slots| == |p.slots|
            && forall i :: 0 <= i < |servers| ==>
                 if Listed(t, i) then InSetup(t.ases[i], servers[i]) else AtRest(t.ases[i], servers[i])
  {
    var from := if mode.CallMode? then p.(ringing := true) else p;
    ConfiguredIsSetup(from, servers, ch);
    ResumedForm(p, mode, cfg, ch);
    var r, t := AllConfigured(from, ch.picks), Resumed(p, mode, cfg, ch).0;
    SameSlotsSameList(r, t);
    SameViewsSameAnswer(r, t, Enabling);
    assert forall i :: Listed(t, i) == Listed(r, i);
  }

  lemma ListedInMeansEach(p: State, state: AseState, i: nat)
    requires AllListedIn(p, state) && Listed(p, i) && i < |p.ases|
    ensures p.ases[i].view == state
  {
    var k :| 0 <= k < |p.slots| && p.slots[k] == Some(i);
  }

  /** An endpoint in set-up that reports gets its next operation and stays in set-up. */
  lemma AnswerInSetup(p: State, i: nat, r: Server, report: Report)
    requires i < |p.ases| && !p.releasing && InSetup(p.ases[i], r) && r.notifs != []
    ensures var state := r.notifs[0];
            var w := Answered(p, i, state, report);
            && (state.CodecConfigured? || state.QosConfigured? || state.Enabling?)
            && InSetup(w.ases[i], r.(notifs := r.notifs[1..]))
            && w == p.(ases := w.ases, stream := w.stream)
            && w.stream.context == p.stream.context
  {
    assert [] + [ConfigQos] == [ConfigQos] && [] + [Enable] == [Enable];
  }

  lemma InSetupIsLive(a: Ase, r: Server)
    requires InSetup(a, r) && a.view.Enabling?
    ensures IsLive(a, r)
  {
  }

  /** A report that ends nothing: the endpoint gets its answer, nothing else happens. */
  lemma ReportIsAnswered(s: Sys, i: nat, report: Report, ch: Choice)
    requires Inv(s) && Enabled(s, DeliverReport(i, report, ch))
    requires var w := Answered(s.player, i, s.servers[i].notifs[0], report);
             && w == s.player.(ases := w.ases, stream := w.stream) && w.stream.context == s.player.stream.context
             && Unfinished(w) && AfterReport(s.player, i, s.servers[i].notifs[0], report, ch) == w
             && AseOk(w, i, s.servers[i].(notifs := s.servers[i].notifs[1..]))
    ensures Inv(Next(s, DeliverReport(i, report, ch)))
    ensures Next(s, DeliverReport(i, report, ch)).player == Answered(s.player, i, s.servers[i].notifs[0], report)
  {
    var t := Next(s, DeliverReport(i, report, ch));
    PlayerMoves(s.player, t.player);
    MoveKeepsInv(s, t, i);
  }

  lemma SetupGoesOn(p: State, i: nat, report: Report, state: AseState, ch: Choice)
    requires PhaseOf(p).Setup? && i < |p.ases| && ValidPicks(p, ch.picks)
    requires state.CodecConfigured? || state.QosConfigured? || state.Enabling?
    requires Listed(p, i) && !AllListedIn(Answered(p, i, state, report), Enabling)
    ensures AfterReport(p, i, state, report, ch) == Answered(p, i, state, report)
  {
  }

  /** The report that completes the set-up: every listed endpoint is Enabling, the group is
      created and the mode settles. */
  lemma LastReportInSetup(s: Sys, i: nat, report: Report, ch: Choice)
    requires Inv(s) && PhaseOf(s.player).Setup? && Enabled(s, DeliverReport(i, report, ch))
    requires AllListedIn(Answered(s.player, i, s.servers[i].notifs[0], report), Enabling)
    ensures s.servers[i].notifs[0].Enabling?
    ensures Inv(Next(s, DeliverReport(i, report, ch)))
    ensures PhaseOf(Next(s, DeliverReport(i, report, ch)).player).Live?
    ensures !Next(s, DeliverReport(i, report, ch)).player.releasing
    ensures NoneJoining(Next(s, DeliverReport(i, report, ch)))
    ensures var w := Answered(s.player, i, Enabling, report);
            Next(s, DeliverReport(i, report, ch)).player == w.(current := w.final, cigs := w.cigs + 1)
  {
    var t := Next(s, DeliverReport(i, report, ch));
    SetupEnds(s, i, report, ch);
    SettledIsOk(s.player, t.player);
    AllSetUpAreLive(s, i, report, ch);
    assert forall j :: 0 <= j < |t.servers| ==> Listed(t.player, j) == Listed(s.player, j);
  }

  /** What that report does to everything but the endpoints. */
  lemma SetupEnds(s: Sys, i: nat, report: Report, ch: Choice)
    requires Inv(s) && PhaseOf(s.player).Setup? && Enabled(s, DeliverReport(i, report, ch))
    requires AllListedIn(Answered(s.player, i, s.servers[i].notifs[0], report), Enabling)
    ensures s.servers[i].notifs[0].Enabling?
    ensures var w, t := Answered(s.player, i, Enabling, report), Next(s, DeliverReport(i, report, ch));
            && w == s.player.(ases := w.ases, stream := w.stream) && w.stream.context == s.player.stream.context
            && t.player == w.(current := w.final, cigs := w.cigs + 1)
            && t.cigUp && t.inband == s.inband
  {
    var p, r := s.player, s.servers[i];
    assert AseOk(p, i, r) && Listed(p, i);
    AnswerInSetup(p, i, r, report);
    ListedInMeansEach(Answered(p, i, r.notifs[0], report), Enabling, i);
  }

  lemma SettledIsOk(p: State, q: State)
    requires PlayerOk(p) && PhaseOf(p).Setup?
    requires q == p.(ases := q.ases, stream := q.stream, current := p.final, cigs := p.cigs + 1)
    requires |q.ases| == |p.ases| && q.stream.context == p.stream.context
    ensures PlayerOk(q) && PhaseOf(q).Live?
  {
    SameSlotsSameList(p, q);
  }

  lemma AllSetUpAreLive(s: Sys, i: nat, report: Report, ch: Choice)
    requires Inv(s) && PhaseOf(s.player).Setup? && Enabled(s, DeliverReport(i, report, ch))
    requires AllListedIn(Answered(s.player, i, s.servers[i].notifs[0], report), Enabling)
    ensures var w, t := Answered(s.player, i, s.servers[i].notifs[0], report), Next(s, DeliverReport(i, report, ch));
            forall j :: 0 <= j < |t.servers| ==>
              if Listed(s.player, j) then IsLive(w.ases[j], t.servers[j]) else AtRest(w.ases[j], t.servers[j])
  {
    var p, r := s.player, s.servers[i];
    assert AseOk(p, i, r) && Listed(p, i);
    AnswerInSetup(p, i, r, report);
    var w, t := Answered(p, i, r.notifs[0], report), Next(s, DeliverReport(i, report, ch));
    forall j | 0 <= j < |t.servers|
      ensures if Listed(p, j) then IsLive(w.ases[j], t.servers[j]) else AtRest(w.ases[j], t.servers[j])
    {
      assert AseOk(p, j, s.servers[j]);
      if Listed(p, j) {
        ListedInMeansEach(w, Enabling, j);
        InSetupIsLive(w.ases[j], t.servers[j]);
      }
    }
  }

  /** Any other report leaves the set-up unfinished. */
  lemma EarlyReportInSetup(s: Sys, i: nat, report: Report, ch: Choice)
    requires Inv(s) && PhaseOf(s.player).Setup? && Enabled(s, DeliverReport(i, report, ch))
    requires !AllListedIn(Answered(s.player, i, s.servers[i].notifs[0], report), Enabling)
    ensures Inv(Next(s, DeliverReport(i, report, ch)))
    ensures Next(s, DeliverReport(i, report, ch)).player == Answered(s.player, i, s.servers[i].notifs[0], report)
  {
    var p, r := s.player, s.servers[i];
    assert AseOk(p, i, r) && Listed(p, i);
    AnswerInSetup(p, i, r, report);
    SetupGoesOn(p, i, report, r.notifs[0], ch);
    SamePhase(p, Answered(p, i, r.notifs[0], report));
    ReportIsAnswered(s, i, report, ch);
  }

  lemma ReportInSetup(s: Sys, i: nat, report: Report, ch: Choice)
    requires Inv(s) && PhaseOf(s.player).Setup? && Enabled(s, DeliverReport(i, report, ch))
    ensures Inv(Next(s, DeliverReport(i, report, ch)))
  {
    if AllListedIn(Answered(s.player, i, s.servers[i].notifs[0], report), Enabling) {
      LastReportInSetup(s, i, report, ch);
    } else {
      EarlyReportInSetup(s, i, report, ch);
    }
  }

  /** An endpoint of a running stream, or joining one, that reports. */
  lemma AnswerWhileLive(p: State, i: nat, r: Server, report: Report)
    requires i < |p.ases| && !p.releasing && (IsLive(p.ases[i], r) || IsJoining(p.ases[i], r)) && r.notifs != []
    ensures var w := Answered(p, i, r.notifs[0], report);
            && (IsLive(w.ases[i], r.(notifs := r.notifs[1..])) || IsJoining(w.ases[i], r.(notifs := r.notifs[1..])))
            && w == p.(ases := w.ases, stream := w.stream)
            && w.stream.context == p.stream.context
    ensures IsLive(p.ases[i], r) ==> IsLive(Answered(p, i, r.notifs[0], report).ases[i], r.(notifs := r.notifs[1..]))
  {
    assert [] + [ConfigQos] == [ConfigQos] && [] + [Enable] == [Enable];
    assert [Enabling, Streaming][1..] == [Streaming];
  }

  lemma SettledIsAnswered(p: State, i: nat, state: AseState, report: Report, ch: Choice)
    requires !p.current.InTransit? && i < |p.ases| && ValidPicks(p, ch.picks)
    ensures AfterReport(p, i, state, report, ch) == Answered(p, i, state, report)
  {
  }

  lemma ReportWhileLive(s: Sys, i: nat, report: Report, ch: Choice)
    requires Inv(s) && PhaseOf(s.player).Live? && Enabled(s, DeliverReport(i, report, ch))
    ensures Inv(Next(s, DeliverReport(i, report, ch)))
    ensures Next(s, DeliverReport(i, report, ch)).player == Answered(s.player, i, s.servers[i].notifs[0], report)
  {
    var p, r := s.player, s.servers[i];
    assert AseOk(p, i, r) && Listed(p, i);
    AnswerWhileLive(p, i, r, report);
    SettledIsAnswered(p, i, r.notifs[0], report, ch);
    SamePhase(p, Answered(p, i, r.notifs[0], report));
    ReportIsAnswered(s, i, report, ch);
  }

  /** In no mode a set-up goes on until every endpoint is Enabling, and no further. */
  lemma ReportWhileStray(s: Sys, i: nat, report: Report, ch: Choice)
    requires Inv(s) && PhaseOf(s.player).Stray? && Enabled(s, DeliverReport(i, report, ch))
    ensures Inv(Next(s, DeliverReport(i, report, ch)))
    ensures Next(s, DeliverReport(i, report, ch)).player == Answered(s.player, i, s.servers[i].notifs[0], report)
  {
    var p, r := s.player, s.servers[i];
    assert AseOk(p, i, r) && Listed(p, i);
    AnswerInSetup(p, i, r, report);
    SettledIsAnswered(p, i, r.notifs[0], report, ch);
    SamePhase(p, Answered(p, i, r.notifs[0], report));
    ReportIsAnswered(s, i, report, ch);
  }

  /** The mode that follows a release, with its configuration. */
  function ModeAfterRelease(p: State): Mode {
    if p.final.NoMode? then p.paused else p.final
  }

  function ConfigAfterRelease(p: State): StreamConfig {
    if p.final.NoMode? then p.pausedStream else p.stream
  }

  function PhaseAfterRelease(p: State, inband: bool): Phase {
    if p.paused.NoMode? then Off else if ModeAfterRelease(p).CallMode? && !inband then Waiting else Setup
  }

  /** The player goes on from a completed release to the mode that follows. */
  lemma GoneOnForm(p: State, ch: Choice)
    requires p.current.InTransit? && p.releasing && !p.paused.NoMode? && ValidPicks(p, ch.picks)
    ensures var c := p.(slots := Cleared(p.slots), releasing := false);
            var (r, cfg) := Resumed(c, ModeAfterRelease(p), ConfigAfterRelease(p), ch);
            var t := ReleaseCompleted(p, ch);
            && t.slots == r.slots && t.ases == r.ases && t.media == r.media && t.ringing == r.ringing
            && t.stream == cfg && t.current.InTransit? && !t.releasing
            && t.final == ModeAfterRelease(p)
            && t.paused == (if p.final.NoMode? then NoMode else p.paused)
            && t.pausedStream == (if p.final.NoMode? then cfg else p.pausedStream)
  {
    var c := p.(slots := Cleared(p.slots), releasing := false);
    AudioModeRuns.ResumedKeepsModes(c, ModeAfterRelease(p), ConfigAfterRelease(p), ch);
  }

  ghost predicate Finishing(p: State) {
    && p.current.InTransit? && p.releasing && ModesOk(p)
    && (!p.final.NoMode? ==> !p.paused.NoMode? && !p.final.MediaMode?)
  }

  lemma NothingListed(p: State, i: nat)
    requires !SomeListed(p)
    ensures !Listed(p, i)
  {
  }

  /** With nothing paused the player is at rest. */
  lemma ReleaseEnds(p: State, servers: seq<Server>, inband: bool, ch: Choice)
    requires Valid(p) && AllAtRest(p, servers) && Finishing(p) && (p.ringing ==> inband) && p.paused.NoMode?
    requires ValidPicks(p, ch.picks)
    ensures Inv(Sys(ReleaseCompleted(p, ch), servers, false, inband)) && PhaseOf(ReleaseCompleted(p, ch)).Off?
  {
    var t := ReleaseCompleted(p, ch);
    assert t == p.(slots := Cleared(p.slots), releasing := false, current := p.final);
    EmptyIsPacked(t.slots);
    assert !SomeListed(t);
    forall i: nat | i < |servers|
      ensures AseOk(t, i, servers[i])
    {
      NothingListed(t, i);
    }
  }

  /** A call that rings without in-band support: the player waits. */
  lemma ReleaseEndsRinging(p: State, servers: seq<Server>, ch: Choice)
    requires Valid(p) && AllAtRest(p, servers) && Finishing(p) && !p.paused.NoMode?
    requires ModeAfterRelease(p).CallMode? && !ch.inband && ValidPicks(p, ch.picks)
    requires ModesOk(ReleaseCompleted(p, ch))
    ensures Inv(Sys(ReleaseCompleted(p, ch), servers, false, false)) && RingsSilently(ReleaseCompleted(p, ch))
  {
    var t := ReleaseCompleted(p, ch);
    GoneOnForm(p, ch);
    assert t.slots == Cleared(p.slots) && t.ases == p.ases && t.ringing;
    EmptyIsPacked(t.slots);
    assert !SomeListed(t);
    forall i: nat | i < |servers|
      ensures AseOk(t, i, servers[i])
    {
      NothingListed(t, i);
    }
  }

  /** Any other mode is set up. */
  lemma ReleaseGoesOn(p: State, servers: seq<Server>, inband: bool, ch: Choice)
    requires Valid(p) && AllAtRest(p, servers) && Finishing(p) && (p.ringing ==> inband) && !p.paused.NoMode?
    requires GoodChoice(p, ch) && ch.inband == inband && (ModeAfterRelease(p).CallMode? ==> inband)
    requires ModesOk(ReleaseCompleted(p, ch))
    ensures Inv(Sys(ReleaseCompleted(p, ch), servers, false, inband)) && PhaseOf(ReleaseCompleted(p, ch)).Setup?
  {
    var c, t := p.(slots := Cleared(p.slots), releasing := false), ReleaseCompleted(p, ch);
    GoneOnForm(p, ch);
    assert !SomeListed(c) && AllAtRest(c, servers);
    ResumedIsSetup(c, servers, ModeAfterRelease(p), ConfigAfterRelease(p), ch);
    var r := Resumed(c, ModeAfterRelease(p), ConfigAfterRelease(p), ch).0;
    SameViewsSameAnswer(r, t, Enabling);
    SameSlotsSameList(r, t);
    forall i: nat | i < |servers|
      ensures AseOk(t, i, servers[i])
    {
      assert Listed(t, i) == Listed(r, i);
    }
  }

  /** The last report of a release: everything is at rest, and the player moves on. */
  lemma ReleaseCompletes(p: State, servers: seq<Server>, inband: bool, ch: Choice)
    requires Valid(p) && AllAtRest(p, servers) && Finishing(p) && (p.ringing ==> inband)
    requires GoodChoice(p, ch) && ch.inband == inband
    requires ModesOk(ReleaseCompleted(p, ch))
    ensures Inv(Sys(ReleaseCompleted(p, ch), servers, false, inband))
    ensures PhaseOf(ReleaseCompleted(p, ch)) == PhaseAfterRelease(p, inband)
    ensures PhaseAfterRelease(p, inband).Waiting? ==> RingsSilently(ReleaseCompleted(p, ch))
  {
    if p.paused.NoMode? {
      ReleaseEnds(p, servers, inband, ch);
    } else if ModeAfterRelease(p).CallMode? && !inband {
      ReleaseEndsRinging(p, servers, ch);
    } else {
      ReleaseGoesOn(p, servers, inband, ch);
    }
  }

  lemma ReleaseKeepsModes(p: State, ch: Choice)
    requires Finishing(p) && ValidPicks(p, ch.picks)
    ensures ModesOk(ReleaseCompleted(p, ch))
  {
    AudioModeRuns.ReleaseCompletedKeepsShape(p, ch);
    if !p.paused.NoMode? {
      GoneOnForm(p, ch);
    }
  }

  /** An endpoint that is being released reports Releasing or its target. */
  lemma AnswerInClosing(p: State, i: nat, r: Server, report: Report)
    requires i < |p.ases| && p.releasing && IsClosing(p.ases[i], r) && r.notifs != []
    ensures var state := r.notifs[0];
            var w := Answered(p, i, state, report);
            && (state.Releasing? || state == Target(r))
            && IsClosing(w.ases[i], r.(notifs := r.notifs[1..]))
            && w == p.(ases := w.ases)
  {
    assert r.notifs[1..] == [] || r.notifs[1..] == [Target(r)];
  }

  predicate IsReleaseTarget(state: AseState) {
    state.Idle? || state.CodecConfigured?
  }

  lemma ClosedIsAtRest(a: Ase, r: Server)
    requires IsClosing(a, r) && IsReleaseTarget(a.view)
    ensures AtRest(a, r)
  {
  }

  /** The report that completes a release. */
  lemma LastReportWhileClosing(s: Sys, i: nat, report: Report, ch: Choice)
    requires Inv(s) && PhaseOf(s.player).Closing? && Enabled(s, DeliverReport(i, report, ch))
    requires IsReleaseTarget(s.servers[i].notifs[0])
    requires AllListedIn(Answered(s.player, i, s.servers[i].notifs[0], report), s.servers[i].notifs[0])
    ensures Inv(Next(s, DeliverReport(i, report, ch)))
    ensures Next(s, DeliverReport(i, report, ch)).player ==
            ReleaseCompleted(Answered(s.player, i, s.servers[i].notifs[0], report), ch)
    ensures var t := Next(s, DeliverReport(i, report, ch)).player;
            && PhaseOf(t) == PhaseAfterRelease(s.player, s.inband)
            && (PhaseOf(t).Waiting? ==> RingsSilently(t))
  {
    var w := Answered(s.player, i, s.servers[i].notifs[0], report);
    var t := Next(s, DeliverReport(i, report, ch));
    ClosedForm(s, i, report, ch);
    AllClosedAtRest(s, i, report, ch);
    ReleaseKeepsModes(w, ch);
    ReleaseCompletes(w, t.servers, s.inband, ch);
  }

  lemma ClosedForm(s: Sys, i: nat, report: Report, ch: Choice)
    requires Inv(s) && PhaseOf(s.player).Closing? && Enabled(s, DeliverReport(i, report, ch))
    requires IsReleaseTarget(s.servers[i].notifs[0])
    requires AllListedIn(Answered(s.player, i, s.servers[i].notifs[0], report), s.servers[i].notifs[0])
    ensures var w, t := Answered(s.player, i, s.servers[i].notifs[0], report), Next(s, DeliverReport(i, report, ch));
            && w == s.player.(ases := w.ases) && Finishing(w) && Valid(w)
            && t == Sys(ReleaseCompleted(w, ch), t.servers, false, s.inband)
  {
    var p, r := s.player, s.servers[i];
    assert AseOk(p, i, r) && Listed(p, i);
    AnswerInClosing(p, i, r, report);
    ReleaseStops(Answered(p, i, r.notifs[0], report), ch);
  }

  lemma ReleaseStops(p: State, ch: Choice)
    requires p.current.InTransit? && p.releasing && ValidPicks(p, ch.picks)
    ensures var t := ReleaseCompleted(p, ch); !t.releasing && t.cigs == p.cigs
  {
    var c := p.(slots := Cleared(p.slots), releasing := false);
    AudioModeRuns.ResumedKeepsModes(c, c.final, c.stream, ch);
    AudioModeRuns.ResumedKeepsModes(c, c.paused, c.pausedStream, ch);
  }

  lemma AllClosedAtRest(s: Sys, i: nat, report: Report, ch: Choice)
    requires Inv(s) && PhaseOf(s.player).Closing? && Enabled(s, DeliverReport(i, report, ch))
    requires IsReleaseTarget(s.servers[i].notifs[0])
    requires AllListedIn(Answered(s.player, i, s.servers[i].notifs[0], report), s.servers[i].notifs[0])
    ensures AllAtRest(Answered(s.player, i, s.servers[i].notifs[0], report), Next(s, DeliverReport(i, report, ch)).servers)
  {
    var p, r := s.player, s.servers[i];
    var state := r.notifs[0];
    assert AseOk(p, i, r) && Listed(p, i);
    AnswerInClosing(p, i, r, report);
    var w := Answered(p, i, state, report);
    var t := Next(s, DeliverReport(i, report, ch));
    forall j | 0 <= j < |t.servers|
      ensures AtRest(w.ases[j], t.servers[j])
    {
      assert AseOk(p, j, s.servers[j]);
      if Listed(p, j) {
        ListedInMeansEach(w, state, j);
        ClosedIsAtRest(w.ases[j], t.servers[j]);
      }
    }
  }

  lemma ReleaseTakesLonger(p: State, i: nat, report: Report, state: AseState, ch: Choice)
    requires PhaseOf(p).Closing? && i < |p.ases| && ValidPicks(p, ch.picks) && Listed(p, i)
    requires state.Releasing? || (IsReleaseTarget(state) && !AllListedIn(Answered(p, i, state, report), state))
    ensures AfterReport(p, i, state, report, ch) == Answered(p, i, state, report)
    ensures !AllListedIn(Answered(p, i, state, report), Idle)
    ensures !AllListedIn(Answered(p, i, state, report), CodecConfigured)
  {
    var w := Answered(p, i, state, report);
    if state != Idle { NotAllIn(w, i, Idle); }
    if state != CodecConfigured { NotAllIn(w, i, CodecConfigured); }
  }

  /** Any other report leaves the release unfinished. */
  lemma EarlyReportWhileClosing(s: Sys, i: nat, report: Report, ch: Choice)
    requires Inv(s) && PhaseOf(s.player).Closing? && Enabled(s, DeliverReport(i, report, ch))
    requires IsReleaseTarget(s.servers[i].notifs[0]) ==>
               !AllListedIn(Answered(s.player, i, s.servers[i].notifs[0], report), s.servers[i].notifs[0])
    ensures Inv(Next(s, DeliverReport(i, report, ch)))
    ensures Next(s, DeliverReport(i, report, ch)).player == Answered(s.player, i, s.servers[i].notifs[0], report)
  {
    var p, r := s.player, s.servers[i];
    assert AseOk(p, i, r) && Listed(p, i);
    AnswerInClosing(p, i, r, report);
    ReleaseTakesLonger(p, i, report, r.notifs[0], ch);
    SamePhase(p, Answered(p, i, r.notifs[0], report));
    ReportIsAnswered(s, i, report, ch);
  }

  lemma ReportWhileClosing(s: Sys, i: nat, report: Report, ch: Choice)
    requires Inv(s) && PhaseOf(s.player).Closing? && Enabled(s, DeliverReport(i, report, ch))
    ensures Inv(Next(s, DeliverReport(i, report, ch)))
  {
    var state := s.servers[i].notifs[0];
    if IsReleaseTarget(state) && AllListedIn(Answered(s.player, i, state, report), state) {
      LastReportWhileClosing(s, i, report, ch);
    } else {
      EarlyReportWhileClosing(s, i, report, ch);
    }
  }

  /** With nothing listed nothing is in flight. */
  lemma NoReportAtRest(s: Sys, i: nat)
    requires Inv(s) && i < |s.servers| && s.servers[i].notifs != []
    ensures Listed(s.player, i) && !PhaseOf(s.player).Off? && !PhaseOf(s.player).Waiting?
  {
    assert AseOk(s.player, i, s.servers[i]);
  }

  lemma ReportKeepsInv(s: Sys, i: nat, report: Report, ch: Choice)
    requires Inv(s) && Enabled(s, DeliverReport(i, report, ch))
    ensures Inv(Next(s, DeliverReport(i, report, ch)))
  {
    NoReportAtRest(s, i);
    match PhaseOf(s.player)
    case Stray => ReportWhileStray(s, i, report, ch);
    case Setup => ReportInSetup(s, i, report, ch);
    case Live => ReportWhileLive(s, i, report, ch);
    case Closing => ReportWhileClosing(s, i, report, ch);
  }

  lemma DeliveryKeepsInv(s: Sys, step: Step)
    requires Inv(s) && Enabled(s, step) && IsDelivery(step)
    ensures Inv(Next(s, step))
  {
    match step
    case DeliverOperation(i) => OperationKeepsInv(s, i);
    case DeliverReport(i, report, ch) => ReportKeepsInv(s, i, report, ch);
    case _ => EnvironmentKeepsInv(s, step);
  }

  // ---- Endpoints that join a running stream ----

  /** No accepted call is still adding endpoints to a running stream. */
  predicate NoneJoining(s: Sys) {
    |s.servers| == |s.player.ases| &&
    forall i :: 0 <= i < |s.servers| && Listed(s.player, i) ==> IsLive(s.player.ases[i], s.servers[i])
  }
}
