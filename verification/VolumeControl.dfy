/** Volume Control Service: what an opcode does on a volume renderer, and the check a
    volume controller makes on its cached copy before it sends that opcode. */
module VolumeControl {
  import opened Arith

  const MINIMUM_VOLUME := 0
  const MAXIMUM_VOLUME := 255
  const COUNTER_MODULUS := 256

  type Volume = v: int | MINIMUM_VOLUME <= v <= MAXIMUM_VOLUME
  type Counter = c: int | 0 <= c < COUNTER_MODULUS

  datatype Opcode =
    | RelativeVolumeDown
    | RelativeVolumeUp
    | UnmuteRelativeVolumeDown
    | UnmuteRelativeVolumeUp
    | SetAbsoluteVolume
    | Unmute
    | Mute
    | Unsupported

  datatype Setting = Setting(volume: Volume, muted: bool)

  /** A setting and the number of changes that led to it. Only `changes % 256` is ever sent
      or compared: that is the change counter of the service. Keeping the count unwrapped
      lets a proof say how old a command is. */
  datatype VolumeState = VolumeState(setting: Setting, changes: nat)

  /** A control-point write. `changes` is the count the controller had cached. */
  datatype Command = Command(opcode: Opcode, changes: nat, volume: Volume)

  function Wire(changes: nat): (c: Counter) {
    changes % COUNTER_MODULUS
  }

  /** The setting a renderer with relative step `step` computes for an opcode. */
  function Applied(opcode: Opcode, s: Setting, volume: Volume, step: nat): Setting {
    match opcode
    case RelativeVolumeDown => s.(volume := Max(s.volume - step, MINIMUM_VOLUME))
    case RelativeVolumeUp => s.(volume := Min(s.volume + step, MAXIMUM_VOLUME))
    case UnmuteRelativeVolumeDown => Setting(Max(s.volume - step, MINIMUM_VOLUME), false)
    case UnmuteRelativeVolumeUp => Setting(Min(s.volume + step, MAXIMUM_VOLUME), false)
    case SetAbsoluteVolume => s.(volume := volume)
    case Unmute => s.(muted := false)
    case Mute => s.(muted := true)
    case Unsupported => s
  }

  /** The controller's own check against its cached setting. */
  predicate PassesGate(opcode: Opcode, s: Setting, volume: Volume) {
    match opcode
    case RelativeVolumeDown => s.volume != MINIMUM_VOLUME
    case RelativeVolumeUp => s.volume != MAXIMUM_VOLUME
    case UnmuteRelativeVolumeDown => !(s.volume == MINIMUM_VOLUME && !s.muted)
    case UnmuteRelativeVolumeUp => !(s.volume == MAXIMUM_VOLUME && !s.muted)
    case SetAbsoluteVolume => s.volume != volume
    case Mute => !s.muted
    case Unmute => s.muted
    case Unsupported => false
  }

  /** The controller lets an opcode through exactly when a renderer holding the same setting
      would change it, whatever the renderer's step size, as long as that is positive. */
  lemma GateIsExact(opcode: Opcode, s: Setting, volume: Volume, step: nat)
    requires step >= 1
    ensures PassesGate(opcode, s, volume) <==> Applied(opcode, s, volume, step) != s
  {
    match opcode
    case UnmuteRelativeVolumeDown =>
      assert Max(s.volume - step, MINIMUM_VOLUME) == s.volume <==> s.volume == MINIMUM_VOLUME;
    case UnmuteRelativeVolumeUp =>
      assert Min(s.volume + step, MAXIMUM_VOLUME) == s.volume <==> s.volume == MAXIMUM_VOLUME;
    case _ =>
  }

  /** The controller's check agrees with a renderer whose relative step is `step`. */
  ghost predicate GateAgrees(step: nat) {
    forall opcode, s, volume :: PassesGate(opcode, s, volume) <==> Applied(opcode, s, volume, step) != s
  }

  /** It does exactly for a positive step; with a step of zero the controller would wait for a
      notification that never comes. */
  lemma GateNeedsAPositiveStep(step: nat)
    ensures GateAgrees(step) <==> step >= 1
  {
    if step >= 1 {
      forall opcode, s, volume
        ensures PassesGate(opcode, s, volume) <==> Applied(opcode, s, volume, step) != s
      {
        GateIsExact(opcode, s, volume, step);
      }
    } else {
      var s := Setting(7, false);
      assert PassesGate(RelativeVolumeUp, s, 0) && Applied(RelativeVolumeUp, s, 0, step) == s;
    }
  }

  // ---- How far an opcode goes ----

  /** A relative opcode keeps the mute state and moves the volume by the step, or by less only
      because it lands on the end of the range. */
  lemma RelativeStepIsExact(s: Setting, volume: Volume, step: nat)
    ensures var t := Applied(RelativeVolumeDown, s, volume, step);
            && t.muted == s.muted
            && (s.volume - t.volume == step || (t.volume == 0 && 0 <= s.volume - t.volume < step))
    ensures var t := Applied(RelativeVolumeUp, s, volume, step);
            && t.muted == s.muted
            && (t.volume - s.volume == step || (t.volume == 255 && 0 <= t.volume - s.volume < step))
  {
  }

  /** The unmuting opcodes are the relative ones followed by Unmute. */
  lemma UnmuteRelativeIsBoth(s: Setting, volume: Volume, step: nat)
    ensures Applied(UnmuteRelativeVolumeDown, s, volume, step)
            == Applied(Unmute, Applied(RelativeVolumeDown, s, volume, step), volume, step)
    ensures Applied(UnmuteRelativeVolumeUp, s, volume, step)
            == Applied(Unmute, Applied(RelativeVolumeUp, s, volume, step), volume, step)
  {
  }

  /** One step up takes back one step down exactly when the volume had that far to go, or was
      full and a step spans the whole range. */
  lemma UpUndoesDownIff(s: Setting, volume: Volume, step: nat)
    ensures Applied(RelativeVolumeUp, Applied(RelativeVolumeDown, s, volume, step), volume, step) == s
            <==> s.volume >= step || (s.volume == 255 && step >= 255)
  {
  }

  lemma DownUndoesUpIff(s: Setting, volume: Volume, step: nat)
    ensures Applied(RelativeVolumeDown, Applied(RelativeVolumeUp, s, volume, step), volume, step) == s
            <==> s.volume + step <= 255 || (s.volume == 0 && step >= 255)
  {
  }

  function Repeated(opcode: Opcode, s: Setting, step: nat, n: nat): Setting {
    if n == 0 then s else Applied(opcode, Repeated(opcode, s, step, n - 1), 0, step)
  }

  /** Any number of steps one way goes as far as that many times the step, within the range. */
  lemma {:induction false} RepeatedStepsAdd(s: Setting, step: nat, n: nat)
    ensures Repeated(RelativeVolumeDown, s, step, n) == s.(volume := Max(s.volume - n * step, 0))
    ensures Repeated(RelativeVolumeUp, s, step, n) == s.(volume := Min(s.volume + n * step, 255))
  {
    if n > 0 {
      RepeatedStepsAdd(s, step, n - 1);
      assert n * step == (n - 1) * step + step;
    }
  }

  /** An absolute write and a write of the mute state lead from any setting to any other, in
      either order, whatever the step. */
  lemma TwoWritesReachAny(s: Setting, t: Setting, step: nat)
    ensures var mute := if t.muted then Mute else Unmute;
            && Applied(mute, Applied(SetAbsoluteVolume, s, t.volume, step), 0, step) == t
            && Applied(SetAbsoluteVolume, Applied(mute, s, 0, step), t.volume, step) == t
            && Applied(mute, s, 0, step).volume == s.volume
            && Applied(SetAbsoluteVolume, s, t.volume, step).muted == s.muted
  {
  }

  /** What a renderer does with a control-point write: a stale counter is rejected, and a
      write that changes nothing is not announced. */
  predicate CounterMatches(c: Command, s: VolumeState) {
    Wire(c.changes) == Wire(s.changes)
  }

  predicate Accepted(c: Command, s: VolumeState, step: nat) {
    CounterMatches(c, s) && Applied(c.opcode, s.setting, c.volume, step) != s.setting
  }

  function AfterCommand(c: Command, s: VolumeState, step: nat): VolumeState {
    if Accepted(c, s, step) then
      VolumeState(Applied(c.opcode, s.setting, c.volume, step), s.changes + 1)
    else
      s
  }

  /** The renderer's state as the service library keeps it, updated in place. */
  class Renderer {
    var volume: Volume
    var muted: bool
    var changeCounter: Counter

    function Current(): Setting
      reads this
    {
      Setting(volume, muted)
    }

    constructor (s: Setting)
      ensures Current() == s && changeCounter == 0
    {
      volume, muted, changeCounter := s.volume, s.muted, 0;
    }

    /** Computes the new setting and stores it only when it differs. */
    method CheckVolumeStateValidity(opcode: Opcode, newVolume: Volume, step: nat) returns (changed: bool)
      modifies this`volume, this`muted
      ensures Current() == Applied(opcode, old(Current()), newVolume, step)
      ensures changed <==> Current() != old(Current())
    {
      var v, m := volume, muted;
      match opcode {
        case RelativeVolumeDown => v := Max(volume - step, MINIMUM_VOLUME);
        case RelativeVolumeUp => v := Min(volume + step, MAXIMUM_VOLUME);
        case UnmuteRelativeVolumeDown => v, m := Max(volume - step, MINIMUM_VOLUME), false;
        case UnmuteRelativeVolumeUp => v, m := Min(volume + step, MAXIMUM_VOLUME), false;
        case SetAbsoluteVolume => v := newVolume;
        case Unmute => m := false;
        case Mute => m := true;
        case Unsupported => return false;
      }
      if v != volume || m != muted {
        volume, muted := v, m;
        return true;
      }
      return false;
    }

    /** Steps the counter, wrapping at 255, and yields the three notified octets. */
    method NotifyVolumeState() returns (payload: seq<int>)
      modifies this`changeCounter
      ensures forall n: nat :: old(changeCounter) == Wire(n) ==> changeCounter == Wire(n + 1)
      ensures payload == [volume, if muted then 1 else 0, changeCounter]
    {
      if changeCounter == 255 {
        changeCounter := 0;
      } else {
        changeCounter := changeCounter + 1;
      }
      payload := [volume, if muted then 1 else 0, changeCounter];
    }

    /** A control-point write on the renderer, with the counter check that the service
        prescribes: it keeps the wire image of `AfterCommand`. */
    method WriteControlPoint(c: Command, step: nat, ghost s: VolumeState) returns (payload: seq<int>)
      requires Current() == s.setting && changeCounter == Wire(s.changes)
      modifies this
      ensures Current() == AfterCommand(c, s, step).setting
      ensures changeCounter == Wire(AfterCommand(c, s, step).changes)
      ensures payload == if Accepted(c, s, step) then [volume, if muted then 1 else 0, changeCounter] else []
    {
      payload := [];
      if Wire(c.changes) == changeCounter {
        var changed := CheckVolumeStateValidity(c.opcode, c.volume, step);
        if changed {
          payload := NotifyVolumeState();
        }
      }
    }
  }
}
