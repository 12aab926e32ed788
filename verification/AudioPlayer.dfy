/** The player itself: the same handlers as in AudioMode, performed on fields and lists in
    place. Every method's contract equates the new state with the handler's function; `Handle`
    takes any event and keeps what AudioModeRuns proves. */
module AudioPlayer {
  import opened Wrappers
  import opened QosNegotiation
  import opened AseControl
  import opened AudioMode
  import AudioModeRuns
  import AudioModeRanks

  class Player {
    var current: Mode
    var paused: Mode
    var final: Mode
    var releasing: bool
    var media: MediaState
    var ringing: bool
    var bigUp: bool
    var stream: StreamConfig
    var pausedStream: StreamConfig
    const slots: array<Option<nat>>
    const ases: array<Ase>
    ghost var changes: nat
    ghost var cigs: nat

    ghost function View(): State
      reads this, slots, ases
    {
      State(current, paused, final, releasing, media, ringing, bigUp, stream, pausedStream,
            slots[..], ases[..], changes, cigs)
    }

    constructor (endpoints: seq<Ase>, capacity: nat)
      ensures View() == State(NoMode, NoMode, NoMode, false, Inactive, false, false, NO_STREAM, NO_STREAM,
                              seq(capacity, _ => None), endpoints, 0, 0)
      ensures AudioModeRuns.Init(View()) && AudioModeRuns.Shape(View()) && AudioModeRuns.MediaMatches(View())
      ensures fresh(slots) && fresh(ases)
    {
      current, paused, final := NoMode, NoMode, NoMode;
      releasing, media, ringing, bigUp := false, Inactive, false, false;
      stream, pausedStream := NO_STREAM, NO_STREAM;
      slots := new Option<nat>[capacity](_ => None);
      ases := new Ase[|endpoints|](i requires 0 <= i < |endpoints| => endpoints[i]);
      changes, cigs := 0, 0;
    }

    // ---- The endpoint list ----

    method AssignAseToBeConfigured(i: nat)
      modifies slots
      ensures slots[..] == Assigned(old(slots[..]), i)
    {
      var k := 0;
      while k < slots.Length
        invariant k <= slots.Length
        invariant slots[..] == old(slots[..])
        invariant FirstFree(slots[..]) == k + FirstFree(slots[k..])
      {
        if slots[k].None? {
          assert slots[..] == old(slots[..]);
          slots[k] := Some(i);
          return;
        }
        assert slots[k..][1..] == slots[k + 1..];
        k := k + 1;
      }
    }

    method Write(i: nat, opcode: AseOpcode)
      requires i < ases.Length
      modifies ases
      ensures View() == Written(old(View()), i, opcode)
    {
      var a := ases[i];
      ases[i] := a.(outbox := a.outbox + [opcode]);
      assert slots[..] == old(slots[..]);
    }

    method ConfigureAse(i: nat)
      requires i < ases.Length
      modifies slots, ases
      ensures View() == Configured(old(View()), i)
      ensures ases[i].dir == old(ases[i].dir)
      ensures forall j :: 0 <= j < ases.Length && j != i ==> ases[j] == old(ases[j])
    {
      Write(i, ConfigCodec);
      label written:
      assert ases[..] == View().ases;
      AssignAseToBeConfigured(i);
      assert ases[..] == old@written(ases[..]);
    }

    method ConfigureAndEnable(cfg: StreamConfig, picks: seq<nat>) returns (out: StreamConfig)
      requires ValidPicks(View(), picks)
      modifies slots, ases
      ensures View() == AllConfigured(old(View()), picks)
      ensures out == AllPrepared(old(ases[..]), cfg, picks)
    {
      out := cfg;
      var rest := picks;
      while rest != []
        invariant ValidPicks(View(), rest)
        invariant AllConfigured(View(), rest) == AllConfigured(old(View()), picks)
        invariant forall j :: 0 <= j < ases.Length ==> ases[j].dir == old(ases[j].dir)
        invariant AllPrepared(old(ases[..]), out, rest) == AllPrepared(old(ases[..]), cfg, picks)
        decreases |rest|
      {
        out := Prepared(out, ases[rest[0]].dir);
        ConfigureAse(rest[0]);
        rest := rest[1..];
      }
    }

    method ReleaseConfiguredAses()
      requires Valid(View())
      modifies this`releasing, ases
      ensures View() == ReleasedFrom(old(View()), 0)
    {
      for k := 0 to slots.Length
        invariant slots[..] == old(slots[..]) && Valid(View())
        invariant ReleasedFrom(View(), k) == ReleasedFrom(old(View()), 0)
      {
        if slots[k].Some? {
          Write(slots[k].value, Release);
          releasing := true;
        }
      }
    }

    method IfAseStateChanged(state: AseState) returns (all: bool)
      requires Valid(View())
      ensures all == AllListedIn(View(), state)
    {
      for k := 0 to slots.Length
        invariant forall j :: 0 <= j < k && slots[j].Some? ==> ases[slots[j].value].view == state
      {
        if slots[k].Some? && ases[slots[k].value].view != state {
          assert View().slots[k].Some?;
          return false;
        }
      }
      return true;
    }

    method ClearSlots()
      modifies slots
      ensures slots[..] == Cleared(old(slots[..]))
    {
      for k := 0 to slots.Length
        invariant forall j :: 0 <= j < k ==> slots[j] == None
      {
        slots[k] := None;
      }
    }

    // ---- Starting and stopping ----

    method StartStreaming(cfg: StreamConfig, picks: seq<nat>) returns (out: StreamConfig)
      requires ValidPicks(View(), picks)
      modifies slots, ases
      ensures (View(), out) == Started(old(View()), cfg, picks)
    {
      out := cfg;
      match cfg.context {
        case Prohibited =>
        case Unspecified =>
        case _ => out := ConfigureAndEnable(cfg, picks);
      }
    }

    method StopStreaming()
      requires Valid(View())
      modifies this`releasing, ases
      ensures View() == Stopped(old(View()))
    {
      match stream.context {
        case Prohibited =>
        case Unspecified =>
        case _ => ReleaseConfiguredAses();
      }
    }

    method McsPlay(cfg: StreamConfig, picks: seq<nat>) returns (out: StreamConfig)
      requires ValidPicks(View(), picks)
      modifies this`media, slots, ases
      ensures (View(), out) == McsPlayed(old(View()), cfg, picks)
    {
      out := cfg;
      if media != Playing {
        out := StartStreaming(cfg.(context := Media), picks);
      }
      media := Playing;
    }

    method McsPause()
      requires Valid(View())
      modifies this`media, this`releasing, ases
      ensures View() == McsPaused(old(View()))
    {
      if media != Paused {
        StopStreaming();
      }
      media := Paused;
    }

    // ---- Mode changes ----

    method SetNextAudioMode(mode: Mode, cfg: Option<StreamConfig>)
      modifies this
      ensures View() == NextMode(old(View()), mode, cfg)
    {
      KeepCurrentMode(mode);
      stream := if cfg.Some? then cfg.value else NO_STREAM;
      final := mode;
      current := InTransit;
      changes := changes + 1;
    }

    /** What is kept of the mode that ends: it is paused for another one, and media leaves its
        configuration behind in any case. */
    method KeepCurrentMode(mode: Mode)
      modifies this`media, this`paused, this`pausedStream
      ensures var t := NextMode(old(View()), mode, None);
              media == t.media && paused == t.paused && pausedStream == t.pausedStream
    {
      if mode != NoMode {
        if current != NoMode && current != InTransit {
          if paused == MediaMode && mode != MediaMode {
            media := Inactive;
          }
          paused := current;
          pausedStream := stream;
        }
      } else if current == MediaMode {
        pausedStream := stream;
      }
    }

    method ResumeStreaming(mode: Mode, cfg: StreamConfig, ch: Choice) returns (out: StreamConfig)
      requires ValidPicks(View(), ch.picks)
      modifies this, slots, ases
      ensures (View(), out) == Resumed(old(View()), mode, cfg, ch)
    {
      out := cfg;
      match mode {
        case MediaMode => out := McsPlay(cfg, ch.picks);
        case CallMode =>
          ringing := true;
          if ch.inband {
            out := StartStreaming(cfg.(context := Ringtone), ch.picks);
          }
        case MicMode => out := StartStreaming(cfg.(context := VoiceAssistants), ch.picks);
        case BidirMicMode => out := StartStreaming(cfg.(context := ch.bidirContext), ch.picks);
        case _ =>
      }
    }

    method ResumePausedMode(ch: Choice)
      requires ValidPicks(View(), ch.picks)
      modifies this, slots, ases
      ensures View() == ResumedPaused(old(View()), ch)
    {
      var c := ResumeStreaming(paused, pausedStream, ch);
      assert View().paused == old(View()).paused;
      pausedStream := c;
      assert View() == Resumed(old(View()), old(paused), old(pausedStream), ch).0.(pausedStream := c);
      SetNextAudioMode(paused, Some(c));
      paused := NoMode;
    }

    method UpdateAudioMode(state: AseState, ch: Choice)
      requires ValidPicks(View(), ch.picks)
      modifies this, slots, ases
      ensures View() == ModeUpdated(old(View()), state, ch)
    {
      if current != InTransit {
        return;
      }
      match state {
        case Idle => CompleteRelease(ch);
        case CodecConfigured => CompleteRelease(ch);
        case Enabling =>
          cigs := cigs + 1;
          current := final;
        case Streaming =>
          ClearSlots();
          if !ringing {
            current := final;
          }
        case _ =>
      }
    }

    method CompleteRelease(ch: Choice)
      requires ValidPicks(View(), ch.picks)
      modifies this, slots, ases
      ensures View() == ReleaseCompleted(old(View()), ch)
    {
      if !releasing {
        return;
      }
      ClearSlots();
      releasing := false;
      if paused == NoMode {
        current := final;
      } else if final != NoMode {
        stream := ResumeStreaming(final, stream, ch);
      } else {
        ResumePausedMode(ch);
      }
    }

    // ---- Endpoint reports ----

    method AscsStateUpdate(i: nat, state: AseState, report: Report, ch: Choice)
      requires Valid(View()) && i < ases.Length && ValidPicks(View(), ch.picks)
      modifies this, slots, ases
      ensures View() == AfterReport(old(View()), i, state, report, ch)
    {
      ases[i] := ases[i].(view := state);
      if state == Disabling {
        Write(i, ReceiverStopReady);
      }
      if !releasing {
        match state {
          case CodecConfigured =>
            stream := SelectQosConfigParam(stream, ases[i].dir, report);
            Write(i, ConfigQos);
          case QosConfigured => Write(i, Enable);
          case _ =>
        }
      }
      assert View() == Answered(old(View()), i, state, report);
      var all := IfAseStateChanged(state);
      if all {
        UpdateAudioMode(state, ch);
      }
    }

    // ---- Requests ----

    method StopStreamingFor(mode: Mode, next: Mode) returns (ok: bool)
      requires Valid(View())
      modifies this, ases
      ensures (ok, View()) == StoppedFor(old(View()), mode, next)
    {
      var m := if mode == InTransit then final else mode;
      if next != NoMode && Level(m) > Level(next) {
        return false;
      }
      match m {
        case MediaMode => McsPause();
        case MicMode => StopStreaming();
        case CallMode => StopStreaming();
        case BidirMicMode => StopStreaming();
        case _ => return false;
      }
      if next == NoMode {
        SetNextAudioMode(NoMode, None);
      }
      return true;
    }

    method HandlePlay(cfg: StreamConfig, ch: Choice)
      requires Handles(View(), Play(cfg, ch))
      modifies this, slots, ases
      ensures View() == Handled(old(View()), Play(cfg, ch))
    {
      if current != NoMode {
        return;
      }
      var c := McsPlay(cfg, ch.picks);
      SetNextAudioMode(MediaMode, Some(c));
    }

    method HandlePause()
      requires Handles(View(), Pause)
      modifies this, ases
      ensures View() == Handled(old(View()), Pause)
    {
      if current != MediaMode && final != MediaMode {
        return;
      }
      McsPause();
      SetNextAudioMode(NoMode, None);
    }

    method HandleRemotePlay(ch: Choice)
      requires Handles(View(), RemotePlay(ch))
      modifies this, slots, ases
      ensures View() == Handled(old(View()), RemotePlay(ch))
    {
      if media == Inactive || current != NoMode {
        return;
      }
      pausedStream := McsPlay(pausedStream, ch.picks);
      SetNextAudioMode(MediaMode, Some(pausedStream));
    }

    method HandleRemotePause()
      requires Handles(View(), RemotePause)
      modifies this, ases
      ensures View() == Handled(old(View()), RemotePause)
    {
      var mode := if current == InTransit then final else current;
      if media == Inactive || mode != MediaMode {
        return;
      }
      McsPause();
      SetNextAudioMode(NoMode, None);
    }

    method HandleStartMic(cfg: StreamConfig, ch: Choice)
      requires Handles(View(), StartMic(cfg, ch))
      modifies this, slots, ases
      ensures View() == Handled(old(View()), StartMic(cfg, ch))
    {
      var c := cfg;
      if current == NoMode {
        c := StartStreaming(cfg.(context := VoiceAssistants), ch.picks);
      } else {
        var ok := StopStreamingFor(current, MicMode);
        if !ok {
          return;
        }
      }
      SetNextAudioMode(MicMode, Some(c));
    }

    method HandleStopMic()
      requires Handles(View(), StopMic)
      modifies this, ases
      ensures View() == Handled(old(View()), StopMic)
    {
      if current != MicMode && final != MicMode {
        return;
      }
      StopStreaming();
      SetNextAudioMode(NoMode, None);
    }

    method HandleStartBidir(cfg: StreamConfig, ch: Choice)
      requires Handles(View(), StartBidir(cfg, ch))
      modifies this, slots, ases
      ensures View() == Handled(old(View()), StartBidir(cfg, ch))
    {
      var c := cfg.(context := Game);
      if current == NoMode {
        c := StartStreaming(c.(context := ch.bidirContext), ch.picks);
      } else {
        var ok := StopStreamingFor(current, BidirMicMode);
        if !ok {
          return;
        }
      }
      SetNextAudioMode(BidirMicMode, Some(c));
    }

    method HandleStopBidir()
      requires Handles(View(), StopBidir)
      modifies this, ases
      ensures View() == Handled(old(View()), StopBidir)
    {
      if current != BidirMicMode && final != BidirMicMode {
        return;
      }
      StopStreaming();
      SetNextAudioMode(NoMode, None);
    }

    method HandleBroadcast(start: bool)
      requires Valid(View())
      modifies this
      ensures View() == Handled(old(View()), if start then StartBroadcast else StopBroadcast)
    {
      if start {
        if current != NoMode {
          return;
        }
        SetNextAudioMode(Broadcast, None);
        bigUp := true;
        current := Broadcast;
      } else if bigUp {
        SetNextAudioMode(NoMode, None);
        bigUp := false;
        current := NoMode;
      }
    }

    method HandleIncomingCall(cfg: StreamConfig, ch: Choice)
      requires Handles(View(), IncomingCall(cfg, ch))
      modifies this, slots, ases
      ensures View() == Handled(old(View()), IncomingCall(cfg, ch))
    {
      var c := cfg;
      if current == NoMode {
        c := ResumeStreaming(CallMode, cfg, ch);
      } else {
        var ok := StopStreamingFor(current, CallMode);
        if !ok {
          return;
        }
      }
      SetNextAudioMode(CallMode, Some(c));
    }

    method HandleAcceptCall(ch: Choice)
      requires Handles(View(), AcceptCall(ch))
      modifies this, slots, ases
      ensures View() == Handled(old(View()), AcceptCall(ch))
    {
      if !(ringing && ch.inband) {
        stream := StartStreaming(stream.(context := Conversational), ch.picks);
      }
      ringing := false;
    }

    method HandleEndCall(ch: Choice)
      requires Handles(View(), EndCall(ch))
      modifies this, slots, ases
      ensures View() == Handled(old(View()), EndCall(ch))
    {
      if current == CallMode || final == CallMode {
        TerminateCall(ch);
      }
    }

    method HandleDisconnect()
      requires Handles(View(), Disconnect)
      modifies this, ases
      ensures View() == Handled(old(View()), Disconnect)
    {
      if Level(current) > Level(Broadcast) {
        var _ := StopStreamingFor(current, NoMode);
      }
    }

    method HandleSetDisconnection()
      requires Handles(View(), SetGone)
      modifies this, slots
      ensures View() == Handled(old(View()), SetGone)
    {
      media := Paused;
      ResetAudioState();
    }

    method HandleMemberReconnection(ch: Choice)
      requires Handles(View(), MemberReconnected(ch))
      modifies this, slots, ases
      ensures View() == Handled(old(View()), MemberReconnected(ch))
    {
      if current == NoMode || current == Broadcast || current == InTransit {
        return;
      }
      stream := ConfigureAndEnable(stream, ch.picks);
    }

    method CleanupAses(gone: set<nat>)
      requires Handles(View(), MemberGone(gone))
      modifies slots
      ensures View() == Handled(old(View()), MemberGone(gone))
    {
      var k := 0;
      while k < slots.Length
        invariant 0 <= k <= slots.Length
        invariant forall j :: 0 <= j < k ==> slots[j] == WithoutGone(old(slots[..]), gone)[j]
        invariant forall j :: k <= j < slots.Length ==> slots[j] == old(slots[j])
      {
        if slots[k].Some? && slots[k].value in gone {
          slots[k] := None;
        }
        k := k + 1;
      }
      assert slots[..] == WithoutGone(old(slots[..]), gone);
    }

    method TerminateCall(ch: Choice)
      requires Handles(View(), RemoteEndCall(ch))
      modifies this, slots, ases
      ensures View() == Handled(old(View()), RemoteEndCall(ch))
    {
      StopStreaming();
      SetNextAudioMode(NoMode, None);
      if ringing && !ch.inband {
        current := NoMode;
        if paused != NoMode {
          ResumePausedMode(ch);
        }
      }
      ringing := false;
    }

    method HandleErrorResponse()
      requires Handles(View(), ErrorResponse)
      modifies this, slots, ases
      ensures View() == Handled(old(View()), ErrorResponse)
    {
      match final {
        case MediaMode => McsPause();
        case CallMode => StopStreaming();
        case BidirMicMode => StopStreaming();
        case MicMode => StopStreaming();
        case _ =>
      }
      ResetAudioState();
    }

    method ResetAudioState()
      modifies this, slots
      ensures View() == ResetState(old(View()))
    {
      ClearSlots();
      assert ases[..] == old(ases[..]);
      current, paused, final := NoMode, NoMode, NoMode;
      releasing, stream, pausedStream := false, NO_STREAM, NO_STREAM;
    }

    // ---- Any event ----

    /** Requests of the user and of remote control points. */
    method HandleRequest(e: Event)
      requires Handles(View(), e) && !e.Reported? && !IsLoss(e)
      modifies this, slots, ases
      ensures View() == Handled(old(View()), e)
    {
      match e {
        case Play(cfg, ch) => HandlePlay(cfg, ch);
        case Pause => HandlePause();
        case RemotePlay(ch) => HandleRemotePlay(ch);
        case RemotePause => HandleRemotePause();
        case StartMic(cfg, ch) => HandleStartMic(cfg, ch);
        case StopMic => HandleStopMic();
        case StartBidir(cfg, ch) => HandleStartBidir(cfg, ch);
        case StopBidir => HandleStopBidir();
        case IncomingCall(cfg, ch) => HandleIncomingCall(cfg, ch);
        case AcceptCall(ch) => HandleAcceptCall(ch);
        case EndCall(ch) => HandleEndCall(ch);
        case RemoteEndCall(ch) => TerminateCall(ch);
        case StartBroadcast => HandleBroadcast(true);
        case StopBroadcast => HandleBroadcast(false);
        case Disconnect => HandleDisconnect();
        case MemberReconnected(ch) => HandleMemberReconnection(ch);
      }
    }

    method Dispatch(e: Event)
      requires Handles(View(), e)
      modifies this, slots, ases
      ensures View() == Handled(old(View()), e)
    {
      match e {
        case Reported(i, state, report, ch) => AscsStateUpdate(i, state, report, ch);
        case SetGone => HandleSetDisconnection();
        case ErrorResponse => HandleErrorResponse();
        case MemberGone(gone) => CleanupAses(gone);
        case _ => HandleRequest(e);
      }
    }

    /** Whatever happens, in whatever state: the modes stay sound, the media service goes on
        playing exactly in media mode unless the event is one of the two that disturb it, and a
        paused mode ranks no higher than the one that follows unless the event starts below it. */
    method Handle(e: Event)
      requires Handles(View(), e)
      modifies this, slots, ases
      ensures View() == Handled(old(View()), e)
      ensures old(AudioModeRuns.Shape(View())) ==> AudioModeRuns.Shape(View())
      ensures old(AudioModeRuns.Shape(View()) && AudioModeRuns.MediaMatches(View())) ==>
                (AudioModeRuns.MediaMatches(View()) <==> !old(AudioModeRuns.Disturbs(View(), e)))
      ensures old(AudioModeRuns.Shape(View()) && AudioModeRanks.Ranked(View())) ==>
                (AudioModeRanks.Ranked(View()) <==> !old(AudioModeRanks.StartsBelow(View(), e)))
    {
      ghost var before := View();
      Dispatch(e);
      if AudioModeRuns.Shape(before) {
        AudioModeRuns.EventKeepsShape(before, e);
        if AudioModeRanks.Ranked(before) { AudioModeRanks.EventRanksIff(before, e); }
      }
    }
  }

  /** The events by which endpoints are lost. */
  predicate IsLoss(e: Event) {
    e.SetGone? || e.ErrorResponse? || e.MemberGone?
  }
}
