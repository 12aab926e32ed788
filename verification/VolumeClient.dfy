/** The volume controller's side of a coordinated set: the per-member cache and waiting
    flag, the writes it queues, and its reaction to a volume-state notification. */
module VolumeClient {
  import opened VolumeControl

  /** What the controller holds for one set member. `outbox` lists the control-point writes
      handed to the stack and not yet delivered, oldest first. */
  datatype Clcb = Clcb(used: bool, waiting: bool, cache: VolumeState, outbox: seq<Command>)

  function WriteIfValid(c: Clcb, opcode: Opcode, volume: Volume): Clcb {
    if PassesGate(opcode, c.cache.setting, volume) then
      c.(waiting := true, outbox := c.outbox + [Command(opcode, c.cache.changes, volume)])
    else
      c
  }

  function MuteOpcode(muted: bool): Opcode {
    if muted then Mute else Unmute
  }

  /** Brings a member towards `target`: the mute state first, otherwise the volume. */
  function Synced(c: Clcb, target: Setting): Clcb {
    if c.waiting then c
    else if c.cache.setting.muted != target.muted then WriteIfValid(c, MuteOpcode(target.muted), 0)
    else if c.cache.setting.volume != target.volume then WriteIfValid(c, SetAbsoluteVolume, target.volume)
    else c
  }

  /** The set after member `i` notified `v`. */
  function AfterNotification(cs: seq<Clcb>, i: nat, v: VolumeState): (r: seq<Clcb>)
    requires i < |cs|
    ensures |r| == |cs|
  {
    seq(|cs|, j requires 0 <= j < |cs| =>
      if j == i then cs[i].(cache := v, waiting := false)
      else if cs[j].used then Synced(cs[j], v.setting)
      else cs[j])
  }

  /** The set after the user asked for `opcode` on every member. */
  function AfterUserCommand(cs: seq<Clcb>, opcode: Opcode, volume: Volume): (r: seq<Clcb>)
    ensures |r| == |cs|
  {
    seq(|cs|, j requires 0 <= j < |cs| =>
      if cs[j].used then WriteIfValid(cs[j], opcode, volume) else cs[j])
  }

  /** A synchronising write is never held back by the controller's own gate: an idle member
      that differs from the target always gets exactly one write, tagged with its cached
      count, and is left waiting; an idle member that agrees is not touched. */
  lemma SyncAlwaysWrites(c: Clcb, target: Setting)
    requires !c.waiting
    ensures c.cache.setting == target ==> Synced(c, target) == c
    ensures c.cache.setting != target ==>
              && Synced(c, target).waiting
              && |Synced(c, target).outbox| == |c.outbox| + 1
              && Synced(c, target).outbox[..|c.outbox|] == c.outbox
              && var w := Synced(c, target).outbox[|c.outbox|];
                 w.changes == c.cache.changes && PassesGate(w.opcode, c.cache.setting, w.volume)
  {
  }

  /** A user command is written to exactly the connected members whose cached setting it would
      change: one write each, behind what is queued, with the cached count. Nobody else is
      touched. */
  lemma UserCommandReaches(cs: seq<Clcb>, opcode: Opcode, volume: Volume, step: nat, j: nat)
    requires j < |cs| && step >= 1
    ensures var c, d := cs[j], AfterUserCommand(cs, opcode, volume)[j];
            if c.used && Applied(opcode, c.cache.setting, volume, step) != c.cache.setting then
              && d.waiting && d.used && d.cache == c.cache
              && d.outbox == c.outbox + [Command(opcode, c.cache.changes, volume)]
            else d == c
  {
    GateIsExact(opcode, cs[j].cache.setting, volume, step);
  }

  /** The controller itself: control blocks in an array, and the set's shared state. */
  class Controller {
    const clcbs: array<Clcb>
    var setState: Setting

    constructor (members: seq<Clcb>, s: Setting)
      ensures clcbs[..] == members && setState == s && fresh(clcbs)
    {
      clcbs := new Clcb[|members|](i requires 0 <= i < |members| => members[i]);
      setState := s;
    }

    method SetVolume(i: nat, opcode: Opcode, volume: Volume) returns (ok: bool)
      requires i < clcbs.Length
      modifies clcbs
      ensures clcbs[..] == old(clcbs[..])[i := WriteIfValid(old(clcbs[i]), opcode, volume)]
      ensures ok == PassesGate(opcode, old(clcbs[i]).cache.setting, volume)
    {
      if !PassesGate(opcode, clcbs[i].cache.setting, volume) {
        return false;
      }
      var c := clcbs[i];
      var write := Command(opcode, c.cache.changes, volume);
      clcbs[i] := c.(outbox := c.outbox + [write], waiting := true);
      return true;
    }

    method SetMuteState(i: nat, muted: bool) returns (ok: bool)
      requires i < clcbs.Length
      modifies clcbs
      ensures clcbs[..] == old(clcbs[..])[i := WriteIfValid(old(clcbs[i]), MuteOpcode(muted), 0)]
    {
      ok := SetVolume(i, if muted then Mute else Unmute, 0);
    }

    method SyncVolumeState(i: nat, target: Setting)
      requires i < clcbs.Length
      modifies clcbs
      ensures clcbs[..] == old(clcbs[..])[i := Synced(old(clcbs[i]), target)]
    {
      if clcbs[i].waiting {
        return;
      }
      if clcbs[i].cache.setting.muted != target.muted {
        var _ := SetMuteState(i, target.muted);
      } else if clcbs[i].cache.setting.volume != target.volume {
        var _ := SetVolume(i, SetAbsoluteVolume, target.volume);
      }
    }

    /** A notification is cached, clears the waiting flag, becomes the set's state and is
        pushed to every other connected member. */
    method HandleNotification(i: nat, v: VolumeState)
      requires i < clcbs.Length
      modifies this, clcbs
      ensures clcbs[..] == AfterNotification(old(clcbs[..]), i, v)
      ensures setState == v.setting
    {
      ghost var before := clcbs[..];
      clcbs[i] := clcbs[i].(cache := v, waiting := false);
      setState := v.setting;
      for j := 0 to clcbs.Length
        invariant setState == v.setting
        invariant forall k :: 0 <= k < j ==> clcbs[k] == AfterNotification(before, i, v)[k]
        invariant forall k :: j <= k < clcbs.Length ==>
                    clcbs[k] == if k == i then before[i].(cache := v, waiting := false) else before[k]
      {
        ghost var was := clcbs[..];
        if clcbs[j].used && j != i {
          SyncVolumeState(j, setState);
        }
        assert forall k :: 0 <= k < clcbs.Length && k != j ==> clcbs[..][k] == was[k];
      }
    }

    /** A user command goes to every connected member of the set. */
    method SetVolumeOfSet(opcode: Opcode, volume: Volume)
      modifies clcbs
      ensures clcbs[..] == AfterUserCommand(old(clcbs[..]), opcode, volume)
    {
      ghost var before := clcbs[..];
      for j := 0 to clcbs.Length
        invariant forall k :: 0 <= k < j ==> clcbs[k] == AfterUserCommand(before, opcode, volume)[k]
        invariant forall k :: j <= k < clcbs.Length ==> clcbs[k] == before[k]
      {
        ghost var was := clcbs[..];
        if clcbs[j].used {
          var _ := SetVolume(j, opcode, volume);
        }
        assert forall k :: 0 <= k < clcbs.Length && k != j ==> clcbs[..][k] == was[k];
      }
    }
  }
}
