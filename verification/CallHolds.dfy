/** Hold and retrieve as the two ends of a call see them: a call can be held at this end, at the
    remote end, at both or at neither, and every operation moves one of the two. */
module CallHolds {
  import opened Bytes
  import opened CallTable
  import opened CallTableRuns

  predicate HeldHere(c: Slot) {
    c.state.LocallyHeld? || c.state.LocallyAndRemotelyHeld?
  }

  predicate HeldThere(c: Slot) {
    c.state.RemotelyHeld? || c.state.LocallyAndRemotelyHeld?
  }

  /** The call has been answered. */
  predicate Answered(c: Slot) {
    c.state.Active? || HeldHere(c) || HeldThere(c)
  }

  /** The two views tell the states of an answered call apart. */
  lemma ViewsTellStates(c: Slot, d: Slot)
    requires Answered(c) && Answered(d)
    ensures c.state == d.state <==> HeldHere(c) == HeldHere(d) && HeldThere(c) == HeldThere(d)
    ensures c.state.Active? <==> !HeldHere(c) && !HeldThere(c)
  {
  }

  predicate SameCall(c: Slot, d: Slot) {
    c.id == d.id && c.inUse == d.inUse
  }

  /** This end holds the call, and the remote end does what it did. */
  predicate NowHeldHere(c: Slot, d: Slot) {
    SameCall(c, d) && Answered(d) && HeldHere(d) && HeldThere(d) == HeldThere(c)
  }

  predicate NowRetrievedHere(c: Slot, d: Slot) {
    SameCall(c, d) && Answered(d) && !HeldHere(d) && HeldThere(d) == HeldThere(c)
  }

  predicate NowRetrievedThere(c: Slot, d: Slot) {
    SameCall(c, d) && Answered(d) && !HeldThere(d) && HeldHere(d) == HeldHere(c)
  }

  /** A call that another one pushes aside. */
  predicate Yields(c: Slot, id: Byte, remoteToo: bool) {
    c.inUse && c.id != id && (c.state.Active? || (remoteToo && c.state.RemotelyHeld?))
  }

  /** What an operation on slot `k` does to the others. */
  predicate OthersYield(s: seq<Slot>, t: seq<Slot>, k: nat, id: Byte, remoteToo: bool) {
    && |t| == |s|
    && forall j :: 0 <= j < |s| && j != k ==>
         if Yields(s[j], id, remoteToo) then NowHeldHere(s[j], t[j]) else t[j] == s[j]
  }

  predicate OthersStay(s: seq<Slot>, t: seq<Slot>, k: nat) {
    |t| == |s| && forall j :: 0 <= j < |s| && j != k ==> t[j] == s[j]
  }

  // ---- Each operation ----

  /** This end can hold a call that rings or is answered and not held here yet. */
  lemma HoldHoldsHere(s: seq<Slot>, id: Byte)
    ensures var (t, r) := HeldLocally(s, id);
            var k := Find(s, id);
            && (r == Success <==> k != -1 && !HeldHere(s[k]) && (Answered(s[k]) || s[k].state.Incoming?))
            && (r == InvalidCallId <==> k == -1)
            && (r == Success || r == InvalidCallId || r == StateMismatch)
            && (r == Success ==> NowHeldHere(s[k], t[k]) && OthersStay(s, t, k))
            && (r != Success ==> t == s)
  {
  }

  /** Retrieving takes this end's hold away, and the others yield. */
  lemma RetrieveReleasesHere(s: seq<Slot>, id: Byte)
    ensures var (t, r) := Retrieved(s, id);
            var k := Find(s, id);
            && (r == Success <==> k != -1 && HeldHere(s[k]))
            && (r == Success || r == InvalidCallId)
            && (r == Success ==> NowRetrievedHere(s[k], t[k]) && OthersYield(s, t, k, id, true))
            && (r != Success ==> t == s)
  {
  }

  /** The remote end can hold any call that is not being set up by this end. Its hold is added to
      this end's, except that a call held at both ends loses the hold at this end. */
  lemma RemoteHoldHoldsThere(s: seq<Slot>, id: Byte)
    ensures var (t, r) := HeldRemotely(s, id);
            var k := Find(s, id);
            && (r == Success <==> k != -1 && !s[k].state.Alerting? && !s[k].state.Dialing?)
            && (r == InvalidCallId <==> k == -1)
            && (r == Success || r == InvalidCallId || r == StateMismatch)
            && (r == Success ==>
                  && SameCall(s[k], t[k]) && HeldThere(t[k]) && OthersStay(s, t, k)
                  && (HeldHere(t[k]) == HeldHere(s[k]) <==> !s[k].state.LocallyAndRemotelyHeld?))
            && (r != Success ==> t == s)
  {
  }

  /** The remote end's retrieval takes its hold away; the others yield if the call is active then. */
  lemma RemoteRetrieveReleasesThere(s: seq<Slot>, id: Byte)
    ensures var (t, r) := RetrievedRemotely(s, id);
            var k := Find(s, id);
            && (r == Success <==> k != -1 && HeldThere(s[k]))
            && (r == Success || r == InvalidCallId)
            && (r == Success ==>
                  && NowRetrievedThere(s[k], t[k])
                  && if HeldHere(s[k]) then OthersStay(s, t, k) else OthersYield(s, t, k, id, false))
            && (r != Success ==> t == s)
  {
  }

  /** An accepted call is active, and every other call that is active or held by the remote end is
      now held here. */
  lemma AcceptHoldsTheOthers(s: seq<Slot>, id: Byte)
    ensures var (t, r) := Accepted(s, id);
            var k := Find(s, id);
            && (r == Success <==> k != -1 && (s[k].state.Incoming? || s[k].state.Dialing?))
            && (r == InvalidCallId <==> k == -1)
            && (r == Success || r == InvalidCallId || r == StateMismatch)
            && (r == Success ==> SameCall(s[k], t[k]) && t[k].state.Active? && OthersYield(s, t, k, id, true))
            && (r != Success ==> t == s)
  {
  }

  // ---- Operations that answer one another ----

  lemma {:induction false} SameCallsFrom(s: seq<Slot>, t: seq<Slot>, id: Byte, k: nat)
    requires |s| == |t| && k <= |s| && forall j :: 0 <= j < |s| ==> SameCall(s[j], t[j])
    ensures FindFrom(s, id, k) == FindFrom(t, id, k)
    decreases |s| - k
  {
    if k < |s| {
      SameCallsFrom(s, t, id, k + 1);
    }
  }

  /** No other call is in the way of an activation. */
  predicate Alone(s: seq<Slot>, id: Byte) {
    forall j :: 0 <= j < |s| ==> !Yields(s[j], id, true)
  }

  /** Holding an answered call and retrieving it succeeds and leaves it as it was; it leaves the
      whole table as it was exactly when no other call is active or held by the remote end. */
  lemma RetrieveUndoesHoldIff(s: seq<Slot>, id: Byte)
    requires Find(s, id) != -1 && Answered(s[Find(s, id)]) && !HeldHere(s[Find(s, id)])
    ensures var h := HeldLocally(s, id);
            var t := Retrieved(h.0, id);
            && h.1 == Success && t.1 == Success && Find(h.0, id) == Find(s, id)
            && t.0[Find(s, id)] == s[Find(s, id)]
            && (t.0 == s <==> Alone(s, id))
  {
    var k, h := Find(s, id), HeldLocally(s, id).0;
    SameCallsFrom(s, h, id, 0);
    var t := Retrieved(h, id).0;
    assert t[k].state == s[k].state;
    assert forall j :: 0 <= j < |s| && j != k ==> h[j] == s[j];
    if Alone(s, id) {
      assert forall j :: 0 <= j < |s| && j != k ==> t[j] == s[j];
      assert t == s;
    } else {
      var j :| 0 <= j < |s| && Yields(s[j], id, true);
      assert HeldHere(t[j]) && !HeldHere(s[j]);
    }
  }

  /** An incoming call that is held and retrieved has been answered by that. */
  lemma HoldThenRetrieveAnswers(s: seq<Slot>, id: Byte)
    requires Find(s, id) != -1 && s[Find(s, id)].state.Incoming?
    ensures var t := Retrieved(HeldLocally(s, id).0, id);
            t.1 == Success && t.0[Find(s, id)].state.Active?
  {
    SameCallsFrom(s, HeldLocally(s, id).0, id, 0);
  }

  /** So does the remote end with its own hold, unless the call was held at both ends. */
  lemma RemoteRetrieveUndoesHoldIff(s: seq<Slot>, id: Byte)
    requires Find(s, id) != -1 && Answered(s[Find(s, id)])
    ensures var (h, k) := (HeldRemotely(s, id), Find(s, id));
            var t := RetrievedRemotely(h.0, id);
            && h.1 == Success && t.1 == Success
            && HeldThere(h.0[k]) && !HeldThere(t.0[k])
            && (HeldHere(t.0[k]) == HeldHere(s[k]) <==> !s[k].state.LocallyAndRemotelyHeld?)
            && (t.0[k] == s[k] <==> !HeldThere(s[k]))
  {
    SameCallsFrom(s, HeldRemotely(s, id).0, id, 0);
  }

  /** Both ends may hold an active call, in either order. */
  lemma HoldsCommute(s: seq<Slot>, id: Byte)
    requires Find(s, id) != -1 && s[Find(s, id)].state.Active?
    ensures HeldRemotely(HeldLocally(s, id).0, id).0 == HeldLocally(HeldRemotely(s, id).0, id).0
    ensures var t := HeldLocally(HeldRemotely(s, id).0, id).0; HeldHere(t[Find(s, id)]) && HeldThere(t[Find(s, id)])
  {
    SameCallsFrom(s, HeldLocally(s, id).0, id, 0);
    SameCallsFrom(s, HeldRemotely(s, id).0, id, 0);
  }

  /** A second hold by the remote end loses this end's: from then on this end cannot retrieve the
      call. */
  lemma SecondRemoteHoldLosesOurs(s: seq<Slot>, id: Byte)
    requires Find(s, id) != -1 && s[Find(s, id)].state.LocallyAndRemotelyHeld?
    ensures Retrieved(s, id).1 == Success
    ensures var t := HeldRemotely(s, id).0; Retrieved(t, id).1 == InvalidCallId && Retrieved(t, id).0 == t
  {
    SameCallsFrom(s, HeldRemotely(s, id).0, id, 0);
  }

  // ---- Calls that come and go ----

  /** A placed call dials in the first free slot under the next id, and is not placed without a
      free slot. */
  lemma PlacedDials(t: Table, uriValid: bool)
    ensures var (u, r) := Placed(t, uriValid);
            var k := FirstFree(t.slots);
            && (r == Success <==> uriValid && k < |t.slots|)
            && (r == InvalidUri <==> !uriValid)
            && (r == Success || r == InvalidUri || r == LackOfResources)
            && (r == Success ==> u.slots[k] == Slot(NextId(t.current), Dialing, true) && u.current == NextId(t.current))
            && (r != Success ==> u.current == t.current && u.numCalls == t.numCalls)
  {
  }

  lemma ArrivedRings(t: Table)
    requires t.numCalls < |t.slots| && FirstFree(t.slots) < |t.slots|
    ensures var (u, k) := (Arrived(t), FirstFree(t.slots));
            && u.slots[k] == Slot(NextId(t.current), Incoming, true) && u.current == NextId(t.current)
            && OthersStay(t.slots, u.slots, k)
  {
  }

  /** After a termination the slot is free, and no call is found under the id unless another
      call has it. */
  lemma TerminatedIsGone(t: Table, id: Byte)
    ensures var (u, r) := Terminated(t, id);
            var k := Find(t.slots, id);
            && (r == Success <==> k != -1) && (r == Success || r == InvalidCallId)
            && (r == Success ==>
                  && !u.slots[k].inUse && OthersStay(t.slots, u.slots, k)
                  && (Find(u.slots, id) == -1 <==>
                        forall j :: 0 <= j < |t.slots| && j != k && t.slots[j].inUse ==> t.slots[j].id != id))
            && (r != Success ==> u == t)
  {
  }

  // ---- Joining ----

  lemma {:induction false} UnholdingKeepsThere(s: seq<Slot>, ids: seq<Byte>, i: nat, k: nat)
    requires i <= |ids| && k < |s|
    ensures HeldThere(ListedUnheld(s, ids, i).0[k]) == HeldThere(s[k])
    ensures SameCall(ListedUnheld(s, ids, i).0[k], s[k])
    decreases |ids| - i
  {
    if i < |ids| && ids[i] != 0 {
      var m := Find(s, ids[i]);
      UnholdingKeepsThere(if m == -1 then s else s[m := Unheld(s[m])], ids, i + 1, k);
    }
  }

  /** A join is this end's doing: what the remote end holds, it holds afterwards. */
  lemma JoinKeepsThere(s: seq<Slot>, ids: seq<Byte>, k: nat)
    requires k < |s|
    ensures HeldThere(Joined(s, ids).0[k]) == HeldThere(s[k])
    ensures SameCall(Joined(s, ids).0[k], s[k])
  {
    UnholdingKeepsThere(UnlistedHeld(s, ids), ids, 0, k);
  }

  // ---- On whole runs ----

  /** What the remote end last did to the call with the id, if anything. */
  function HeldThereAfter(was: bool, id: Byte, step: Step): bool {
    match step
    case RemotelyHold(i) => was || i == id
    case RemotelyRetrieve(i) => was && i != id
    case _ => was
  }

  function LastWord(was: bool, id: Byte, steps: seq<Step>): bool
    decreases |steps|
  {
    if steps == [] then was else LastWord(HeldThereAfter(was, id, steps[0]), id, steps[1..])
  }

  /** An answered call in use stays one, and the remote end's hold on it moves with the remote
      end's own operations only. */
  lemma StepMovesThere(t: Table, step: Step, k: nat)
    requires DistinctIds(t.slots) && k < |t.slots| && t.slots[k].inUse && Answered(t.slots[k])
    requires step != Terminate(t.slots[k].id)
    ensures var (c, d) := (t.slots[k], Next(t, step).slots[k]);
            && SameCall(c, d) && Answered(d)
            && HeldThere(d) == HeldThereAfter(HeldThere(c), c.id, step)
  {
    var s := t.slots;
    match step
    case Join(ids) =>
      JoinKeepsThere(s, ids, k);
      JoinKeepsAnswered(s, ids, k);
    case Accept(id) => AcceptHoldsTheOthers(s, id);
    case Hold(id) => HoldHoldsHere(s, id);
    case Retrieve(id) => RetrieveReleasesHere(s, id);
    case RemotelyHold(id) => RemoteHoldHoldsThere(s, id);
    case RemotelyRetrieve(id) => RemoteRetrieveReleasesThere(s, id);
    case Place(uriValid) => PlacingHoldsNothing(t, uriValid, k);
    case Arrive =>
    case Terminate(id) => TerminatedIsGone(t, id);
  }

  lemma {:induction false} UnholdingKeepsAnswered(s: seq<Slot>, ids: seq<Byte>, i: nat, k: nat)
    requires i <= |ids| && k < |s| && Answered(s[k])
    ensures Answered(ListedUnheld(s, ids, i).0[k])
    decreases |ids| - i
  {
    if i < |ids| && ids[i] != 0 {
      var m := Find(s, ids[i]);
      UnholdingKeepsAnswered(if m == -1 then s else s[m := Unheld(s[m])], ids, i + 1, k);
    }
  }

  lemma JoinKeepsAnswered(s: seq<Slot>, ids: seq<Byte>, k: nat)
    requires k < |s| && Answered(s[k])
    ensures Answered(Joined(s, ids).0[k])
  {
    UnholdingKeepsAnswered(UnlistedHeld(s, ids), ids, 0, k);
  }

  /** Along the whole run live calls stay fewer than 255 allocations apart. */
  ghost predicate Windowed(b: Ledger, steps: seq<Step>)
    requires |b.serials| == |b.table.slots|
    decreases |steps|
  {
    InWindow(b) && (steps != [] ==> Windowed(After(b, steps[0]), steps[1..]))
  }

  /** On every run, whatever is accepted, held, retrieved, placed and joined meanwhile: as long as
      an answered call is not terminated it stays answered under its id, and it is held by the
      remote end exactly if that is the remote end's last word on it. */
  lemma {:induction false} RemoteHoldIsTheRemoteEnds(b: Ledger, steps: seq<Step>, c: Ledger, k: nat)
    requires Kept(b) && Run(b, steps, c) && Windowed(b, steps)
    requires k < |b.table.slots| && b.table.slots[k].inUse && Answered(b.table.slots[k])
    requires Terminate(b.table.slots[k].id) !in steps
    ensures k < |c.table.slots| && SameCall(b.table.slots[k], c.table.slots[k]) && Answered(c.table.slots[k])
    ensures HeldThere(c.table.slots[k]) == LastWord(HeldThere(b.table.slots[k]), b.table.slots[k].id, steps)
    decreases |steps|
  {
    if steps != [] {
      WindowMeansDistinctIds(b);
      StepKept(b, steps[0]);
      StepMovesThere(b.table, steps[0], k);
      RemoteHoldIsTheRemoteEnds(After(b, steps[0]), steps[1..], c, k);
    }
  }
}
