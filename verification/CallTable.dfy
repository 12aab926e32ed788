/** The telephone call table: a fixed number of slots, operated on by the client's call control
    and by the remote side. */
module CallTable {
  import opened Bytes

  datatype CallState =
    | Incoming
    | Dialing
    | Alerting
    | Active
    | LocallyHeld
    | RemotelyHeld
    | LocallyAndRemotelyHeld

  datatype Slot = Slot(id: Byte, state: CallState, inUse: bool)

  datatype Result =
    | Success
    | InvalidCallId
    | StateMismatch
    | LackOfResources
    | OperationNotPossible
    | InvalidUri

  /** The slots, the id given out last, and the number of calls. */
  datatype Table = Table(slots: seq<Slot>, current: Byte, numCalls: int)

  // ---- The operations, on the contents of the table ----

  function FindFrom(s: seq<Slot>, id: Byte, k: nat): (r: int)
    requires k <= |s|
    ensures r == -1 || k <= r < |s|
    ensures r == -1 <==> forall j :: k <= j < |s| ==> !(s[j].inUse && s[j].id == id)
    ensures r != -1 ==> s[r].inUse && s[r].id == id
    decreases |s| - k
  {
    if k == |s| then -1 else if s[k].inUse && s[k].id == id then k else FindFrom(s, id, k + 1)
  }

  /** The first slot in use with the id, or -1. */
  function Find(s: seq<Slot>, id: Byte): int {
    FindFrom(s, id, 0)
  }

  function Held(c: Slot, remoteToo: bool): Slot {
    if c.state.Active? then c.(state := LocallyHeld)
    else if c.state.RemotelyHeld? && remoteToo then c.(state := LocallyAndRemotelyHeld)
    else c
  }

  /** Every other call is put on hold; whether that includes calls held by the remote side
      depends on the operation. */
  function OthersHeld(s: seq<Slot>, id: Byte, remoteToo: bool): (r: seq<Slot>)
    ensures |r| == |s|
    ensures forall k :: 0 <= k < |s| ==> r[k] == if s[k].inUse && s[k].id != id then Held(s[k], remoteToo) else s[k]
  {
    seq(|s|, k requires 0 <= k < |s| => if s[k].inUse && s[k].id != id then Held(s[k], remoteToo) else s[k])
  }

  function Accepted(s: seq<Slot>, id: Byte): (r: (seq<Slot>, Result))
    ensures |r.0| == |s|
  {
    var k := Find(s, id);
    if k == -1 then (s, InvalidCallId)
    else if !s[k].state.Incoming? && !s[k].state.Dialing? then (s, StateMismatch)
    else (OthersHeld(s, id, true)[k := s[k].(state := Active)], Success)
  }

  function HeldLocally(s: seq<Slot>, id: Byte): (r: (seq<Slot>, Result))
    ensures |r.0| == |s|
  {
    var k := Find(s, id);
    if k == -1 then (s, InvalidCallId)
    else if s[k].state.Incoming? || s[k].state.Active? then (s[k := s[k].(state := LocallyHeld)], Success)
    else if s[k].state.RemotelyHeld? then (s[k := s[k].(state := LocallyAndRemotelyHeld)], Success)
    else (s, StateMismatch)
  }

  function Retrieved(s: seq<Slot>, id: Byte): (r: (seq<Slot>, Result))
    ensures |r.0| == |s|
  {
    var k := Find(s, id);
    if k == -1 then (s, InvalidCallId)
    else if s[k].state.LocallyHeld? then (OthersHeld(s, id, true)[k := s[k].(state := Active)], Success)
    else if s[k].state.LocallyAndRemotelyHeld? then (OthersHeld(s, id, true)[k := s[k].(state := RemotelyHeld)], Success)
    else (s, InvalidCallId)
  }

  function HeldRemotely(s: seq<Slot>, id: Byte): (r: (seq<Slot>, Result))
    ensures |r.0| == |s|
  {
    var k := Find(s, id);
    if k == -1 then (s, InvalidCallId)
    else if s[k].state.Alerting? || s[k].state.Dialing? then (s, StateMismatch)
    else
      var state := if s[k].state.LocallyHeld? then LocallyAndRemotelyHeld else RemotelyHeld;
      (s[k := s[k].(state := state)], Success)
  }

  function RetrievedRemotely(s: seq<Slot>, id: Byte): (r: (seq<Slot>, Result))
    ensures |r.0| == |s|
  {
    var k := Find(s, id);
    if k == -1 then (s, InvalidCallId)
    else if s[k].state.RemotelyHeld? then (OthersHeld(s, id, false)[k := s[k].(state := Active)], Success)
    else if s[k].state.LocallyAndRemotelyHeld? then (s[k := s[k].(state := LocallyHeld)], Success)
    else (s, InvalidCallId)
  }

  function FirstFreeFrom(s: seq<Slot>, k: nat): (r: nat)
    requires k <= |s|
    ensures k <= r <= |s|
    ensures r < |s| ==> !s[r].inUse
    ensures forall j :: k <= j < r ==> s[j].inUse
    decreases |s| - k
  {
    if k == |s| || !s[k].inUse then k else FirstFreeFrom(s, k + 1)
  }

  function FirstFree(s: seq<Slot>): (r: nat)
    ensures r <= |s|
    ensures r < |s| ==> !s[r].inUse
    ensures forall j :: 0 <= j < r ==> s[j].inUse
  {
    FirstFreeFrom(s, 0)
  }

  function NextId(current: Byte): Byte {
    if current == 255 then 1 else current + 1
  }

  /** The step that means to hold active calls after a call was placed looks at slots that are
      not in use. */
  function UnusedHeld(s: seq<Slot>): (r: seq<Slot>)
    ensures |r| == |s|
    ensures forall k :: 0 <= k < |s| ==> r[k] == if s[k].inUse then s[k] else Held(s[k], false)
  {
    seq(|s|, k requires 0 <= k < |s| => if s[k].inUse then s[k] else Held(s[k], false))
  }

  function Placed(t: Table, uriValid: bool): (r: (Table, Result))
    ensures |r.0.slots| == |t.slots|
  {
    var k := FirstFree(t.slots);
    if !uriValid then (t, InvalidUri)
    else if k == |t.slots| then (t.(slots := UnusedHeld(t.slots)), LackOfResources)
    else
      var id := NextId(t.current);
      (Table(UnusedHeld(t.slots[k := Slot(id, Dialing, true)]), id, t.numCalls + 1), Success)
  }

  /** An incoming call: the id is taken before a slot is looked for, and given back when there
      is none. */
  function Arrived(t: Table): (u: Table)
    ensures |u.slots| == |t.slots|
  {
    if t.numCalls >= |t.slots| then t
    else
      var id, k := NextId(t.current), FirstFree(t.slots);
      if k == |t.slots| then t.(current := id - 1)
      else Table(t.slots[k := Slot(id, Incoming, true)], id, t.numCalls + 1)
  }

  function Terminated(t: Table, id: Byte): (r: (Table, Result))
    ensures |r.0.slots| == |t.slots|
  {
    var k := Find(t.slots, id);
    if k == -1 then (t, InvalidCallId)
    else (t.(slots := t.slots[k := t.slots[k].(inUse := false)], numCalls := t.numCalls - 1), Success)
  }

  // ---- Joining ----

  predicate AllFound(s: seq<Slot>, ids: seq<Byte>) {
    forall i :: 0 <= i < |ids| ==> Find(s, ids[i]) != -1
  }

  predicate SomeIncoming(s: seq<Slot>, ids: seq<Byte>) {
    exists i :: 0 <= i < |ids| && Find(s, ids[i]) != -1 && s[Find(s, ids[i])].state.Incoming?
  }

  /** Active calls that are not joined are held, used slots or not. */
  function UnlistedHeld(s: seq<Slot>, ids: seq<Byte>): (r: seq<Slot>)
    ensures |r| == |s|
    ensures forall k :: 0 <= k < |s| ==> r[k] == if s[k].id in ids then s[k] else Held(s[k], false)
  {
    seq(|s|, k requires 0 <= k < |s| => if s[k].id in ids then s[k] else Held(s[k], false))
  }

  function Unheld(c: Slot): Slot {
    if c.state.LocallyHeld? then c.(state := Active)
    else if c.state.LocallyAndRemotelyHeld? then c.(state := RemotelyHeld)
    else c
  }

  /** The listed calls from `i` on leave the local hold. */
  function ListedUnheld(s: seq<Slot>, ids: seq<Byte>, i: nat): (r: (seq<Slot>, Result))
    requires i <= |ids|
    ensures |r.0| == |s|
    decreases |ids| - i
  {
    if i == |ids| then (s, Success)
    else if ids[i] == 0 then (s, InvalidCallId)
    else
      var k := Find(s, ids[i]);
      ListedUnheld(if k == -1 then s else s[k := Unheld(s[k])], ids, i + 1)
  }

  function Joined(s: seq<Slot>, ids: seq<Byte>): (r: (seq<Slot>, Result))
    ensures |r.0| == |s|
  {
    if |ids| < 2 then (s, OperationNotPossible)
    else if !AllFound(s, ids) then (s, InvalidCallId)
    else if SomeIncoming(s, ids) then (s, OperationNotPossible)
    else ListedUnheld(UnlistedHeld(s, ids), ids, 0)
  }

  // ---- The same, in place ----

  class Calls {
    const slots: array<Slot>
    var current: Byte
    var numCalls: int

    ghost function Contents(): Table
      reads this, slots
    {
      Table(slots[..], current, numCalls)
    }

    constructor (n: nat)
      ensures fresh(slots) && Contents() == Table(seq(n, _ => Slot(0, Incoming, false)), 0, 0)
    {
      slots := new Slot[n](_ => Slot(0, Incoming, false));
      current := 0;
      numCalls := 0;
    }

    method GetCallState(id: Byte) returns (k: int)
      ensures k == Find(slots[..], id)
    {
      k := 0;
      while k < slots.Length
        invariant 0 <= k <= slots.Length
        invariant Find(slots[..], id) == FindFrom(slots[..], id, k)
      {
        if slots[k].inUse && slots[k].id == id {
          return;
        }
        k := k + 1;
      }
      k := -1;
    }

    method HoldOthers(id: Byte, remoteToo: bool)
      modifies slots
      ensures slots[..] == OthersHeld(old(slots[..]), id, remoteToo)
    {
      var i := 0;
      while i < slots.Length
        invariant 0 <= i <= slots.Length
        invariant forall k :: 0 <= k < i ==> slots[k] == OthersHeld(old(slots[..]), id, remoteToo)[k]
        invariant forall k :: i <= k < slots.Length ==> slots[k] == old(slots[k])
      {
        if slots[i].inUse && slots[i].id != id {
          if slots[i].state.Active? {
            slots[i] := slots[i].(state := LocallyHeld);
          } else if slots[i].state.RemotelyHeld? && remoteToo {
            slots[i] := slots[i].(state := LocallyAndRemotelyHeld);
          }
        }
        i := i + 1;
      }
    }

    /** The other calls first, then the accepted one. */
    method Accept(id: Byte) returns (result: Result)
      modifies slots
      ensures (slots[..], result) == Accepted(old(slots[..]), id)
    {
      var k := GetCallState(id);
      if k == -1 {
        return InvalidCallId;
      }
      if !slots[k].state.Incoming? && !slots[k].state.Dialing? {
        return StateMismatch;
      }
      HoldOthers(id, true);
      slots[k] := slots[k].(state := Active);
      return Success;
    }

    method Hold(id: Byte) returns (result: Result)
      modifies slots
      ensures (slots[..], result) == HeldLocally(old(slots[..]), id)
    {
      var k := GetCallState(id);
      if k == -1 {
        return InvalidCallId;
      }
      if slots[k].state.Incoming? || slots[k].state.Active? {
        slots[k] := slots[k].(state := LocallyHeld);
      } else if slots[k].state.RemotelyHeld? {
        slots[k] := slots[k].(state := LocallyAndRemotelyHeld);
      } else {
        return StateMismatch;
      }
      return Success;
    }

    lemma OneThenOthers(s: seq<Slot>, k: nat, state: CallState, remoteToo: bool)
      requires k < |s| && s[k].inUse
      ensures OthersHeld(s[k := s[k].(state := state)], s[k].id, remoteToo)
              == OthersHeld(s, s[k].id, remoteToo)[k := s[k].(state := state)]
    {
    }

    /** The retrieved call first, then the others. */
    method Retrieve(id: Byte) returns (result: Result)
      modifies slots
      ensures (slots[..], result) == Retrieved(old(slots[..]), id)
    {
      var k := GetCallState(id);
      if k == -1 {
        return InvalidCallId;
      }
      if slots[k].state.LocallyHeld? {
        OneThenOthers(slots[..], k, Active, true);
        slots[k] := slots[k].(state := Active);
        HoldOthers(id, true);
        return Success;
      } else if slots[k].state.LocallyAndRemotelyHeld? {
        OneThenOthers(slots[..], k, RemotelyHeld, true);
        slots[k] := slots[k].(state := RemotelyHeld);
        HoldOthers(id, true);
        return Success;
      }
      return InvalidCallId;
    }

    method RemotelyHold(id: Byte) returns (result: Result)
      modifies slots
      ensures (slots[..], result) == HeldRemotely(old(slots[..]), id)
    {
      var k := GetCallState(id);
      if k == -1 {
        return InvalidCallId;
      }
      if slots[k].state.Alerting? || slots[k].state.Dialing? {
        return StateMismatch;
      }
      slots[k] := slots[k].(state := if slots[k].state.LocallyHeld? then LocallyAndRemotelyHeld else RemotelyHeld);
      return Success;
    }

    method RetrieveRemotelyHeld(id: Byte) returns (result: Result)
      modifies slots
      ensures (slots[..], result) == RetrievedRemotely(old(slots[..]), id)
    {
      var k := GetCallState(id);
      if k == -1 {
        return InvalidCallId;
      }
      if slots[k].state.RemotelyHeld? {
        OneThenOthers(slots[..], k, Active, false);
        slots[k] := slots[k].(state := Active);
        HoldOthers(id, false);
        return Success;
      } else if slots[k].state.LocallyAndRemotelyHeld? {
        slots[k] := slots[k].(state := LocallyHeld);
        return Success;
      }
      return InvalidCallId;
    }

    method FindFree() returns (k: nat)
      ensures k == FirstFree(slots[..])
    {
      k := 0;
      while k < slots.Length && slots[k].inUse
        invariant 0 <= k <= slots.Length
        invariant FirstFree(slots[..]) == FirstFreeFrom(slots[..], k)
      {
        k := k + 1;
      }
    }

    method HoldUnused()
      modifies slots
      ensures slots[..] == UnusedHeld(old(slots[..]))
    {
      var i := 0;
      while i < slots.Length
        invariant 0 <= i <= slots.Length
        invariant forall k :: 0 <= k < i ==> slots[k] == UnusedHeld(old(slots[..]))[k]
        invariant forall k :: i <= k < slots.Length ==> slots[k] == old(slots[k])
      {
        if !slots[i].inUse {
          if slots[i].state.Active? {
            slots[i] := slots[i].(state := LocallyHeld);
          }
        }
        i := i + 1;
      }
    }

    method Place(uriValid: bool) returns (result: Result)
      modifies this, slots
      ensures (Contents(), result) == Placed(old(Contents()), uriValid)
    {
      if !uriValid {
        return InvalidUri;
      }
      result := LackOfResources;
      var k := FindFree();
      if k < slots.Length {
        current := if current == 255 then 1 else current + 1;
        numCalls := numCalls + 1;
        slots[k] := Slot(current, Dialing, true);
        result := Success;
      }
      HoldUnused();
    }

    method SetIncoming()
      modifies this, slots
      ensures Contents() == Arrived(old(Contents()))
    {
      if numCalls >= slots.Length {
        return;
      }
      current := if current >= 255 then 1 else current + 1;
      var k := FindFree();
      if k == slots.Length {
        current := current - 1;
        return;
      }
      numCalls := numCalls + 1;
      slots[k] := Slot(current, Incoming, true);
    }

    method Terminate(id: Byte) returns (result: Result)
      modifies this, slots
      ensures (Contents(), result) == Terminated(old(Contents()), id)
    {
      var k := GetCallState(id);
      if k == -1 {
        return InvalidCallId;
      }
      slots[k] := slots[k].(inUse := false);
      numCalls := numCalls - 1;
      return Success;
    }

    method HoldUnlisted(ids: seq<Byte>)
      modifies slots
      ensures slots[..] == UnlistedHeld(old(slots[..]), ids)
    {
      var i := 0;
      while i < slots.Length
        invariant 0 <= i <= slots.Length
        invariant forall k :: 0 <= k < i ==> slots[k] == UnlistedHeld(old(slots[..]), ids)[k]
        invariant forall k :: i <= k < slots.Length ==> slots[k] == old(slots[k])
      {
        if slots[i].state.Active? {
          var j := 0;
          while j < |ids| && slots[i].id != ids[j]
            invariant 0 <= j <= |ids| && slots[i].id !in ids[..j]
          {
            j := j + 1;
          }
          assert j == |ids| ==> ids[..j] == ids;
          if j == |ids| {
            slots[i] := slots[i].(state := LocallyHeld);
          }
        }
        i := i + 1;
      }
    }

    method Join(ids: seq<Byte>) returns (result: Result)
      modifies slots
      ensures (slots[..], result) == Joined(old(slots[..]), ids)
    {
      if |ids| < 2 {
        return OperationNotPossible;
      }
      var i := 0;
      while i < |ids|
        invariant 0 <= i <= |ids| && slots[..] == old(slots[..])
        invariant forall j :: 0 <= j < i ==> Find(slots[..], ids[j]) != -1
      {
        var k := GetCallState(ids[i]);
        if k == -1 {
          return InvalidCallId;
        }
        i := i + 1;
      }
      i := 0;
      while i < |ids|
        invariant 0 <= i <= |ids| && slots[..] == old(slots[..])
        invariant forall j :: 0 <= j < i ==>
          Find(slots[..], ids[j]) == -1 || !slots[..][Find(slots[..], ids[j])].state.Incoming?
      {
        var k := GetCallState(ids[i]);
        if k != -1 && slots[k].state.Incoming? {
          return OperationNotPossible;
        }
        i := i + 1;
      }
      HoldUnlisted(ids);
      result := UnholdListed(ids);
    }

    method UnholdListed(ids: seq<Byte>) returns (result: Result)
      modifies slots
      ensures (slots[..], result) == ListedUnheld(old(slots[..]), ids, 0)
    {
      var i := 0;
      while i < |ids|
        invariant 0 <= i <= |ids|
        invariant ListedUnheld(slots[..], ids, i) == ListedUnheld(old(slots[..]), ids, 0)
      {
        if ids[i] == 0 {
          return InvalidCallId;
        }
        ghost var before := slots[..];
        var k := GetCallState(ids[i]);
        if k != -1 {
          if slots[k].state.LocallyHeld? {
            slots[k] := slots[k].(state := Active);
          } else if slots[k].state.LocallyAndRemotelyHeld? {
            slots[k] := slots[k].(state := RemotelyHeld);
          }
          assert slots[..] == before[k := Unheld(before[k])];
        }
        i := i + 1;
      }
      return Success;
    }
  }
}
