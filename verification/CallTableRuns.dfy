/** The call table on whole runs: call ids, the number of calls, and who may be active. */
module CallTableRuns {
  import opened Bytes
  import opened CallTable

  // ---- Call ids ----

  /** The id of the `n`-th call ever allocated; 0 before the first. */
  function IdOf(n: nat): Byte {
    if n == 0 then 0 else (n - 1) % 255 + 1
  }

  lemma NextIdIsIdOfNext(n: nat)
    ensures NextId(IdOf(n)) == IdOf(n + 1)
    ensures n > 0 ==> 1 <= IdOf(n) <= 255
  {
    if n > 0 {
      var q, r := (n - 1) / 255, (n - 1) % 255;
      assert n - 1 == 255 * q + r;
      if r == 254 {
        assert n == 255 * (q + 1);
        assert n % 255 == 0;
      } else {
        assert n == 255 * q + (r + 1);
        assert n % 255 == r + 1;
      }
    }
  }

  lemma SameRemainderIff(a: nat, b: nat)
    requires a <= b
    ensures a % 255 == b % 255 <==> (b - a) % 255 == 0
  {
    var q, r, d := a / 255, b / 255, (b - a) / 255;
    assert a == 255 * q + a % 255 && b == 255 * r + b % 255;
    assert b - a == 255 * d + (b - a) % 255;
  }

  /** Two calls have the same id exactly if they are a multiple of 255 allocations apart. */
  lemma SameIdIff(m: nat, n: nat)
    requires 0 < m <= n
    ensures IdOf(m) == IdOf(n) <==> (n - m) % 255 == 0
  {
    SameRemainderIff(m - 1, n - 1);
  }

  /** So calls fewer than 255 allocations apart have different ids. */
  lemma NearIdsDiffer(m: nat, n: nat)
    requires 0 < m < n < m + 255
    ensures IdOf(m) != IdOf(n)
  {
    SameIdIff(m, n);
  }

  // ---- The table with its history ----

  /** `serials[k]` is the allocation that slot `k` holds or last held, `allocations` how many
      there were. */
  datatype Ledger = Ledger(table: Table, serials: seq<nat>, allocations: nat)

  function InUseCount(s: seq<Slot>): nat {
    if s == [] then 0 else (if s[0].inUse then 1 else 0) + InUseCount(s[1..])
  }

  lemma {:induction false} CountAfterUpdate(s: seq<Slot>, k: nat, c: Slot)
    requires k < |s|
    ensures InUseCount(s[k := c]) + (if s[k].inUse then 1 else 0) == InUseCount(s) + (if c.inUse then 1 else 0)
    decreases |s|
  {
    if k == 0 {
      assert s[k := c][1..] == s[1..];
    } else {
      CountAfterUpdate(s[1..], k - 1, c);
      assert s[k := c][1..] == s[1..][k - 1 := c];
    }
  }

  lemma {:induction false} SameUseSameCount(s: seq<Slot>, r: seq<Slot>)
    requires |s| == |r| && forall k :: 0 <= k < |s| ==> s[k].inUse == r[k].inUse
    ensures InUseCount(s) == InUseCount(r)
    decreases |s|
  {
    if s != [] {
      SameUseSameCount(s[1..], r[1..]);
    }
  }

  lemma {:induction false} CountBelowSizeMeansFree(s: seq<Slot>)
    ensures InUseCount(s) <= |s|
    ensures InUseCount(s) < |s| <==> exists k :: 0 <= k < |s| && !s[k].inUse
    decreases |s|
  {
    if s != [] {
      CountBelowSizeMeansFree(s[1..]);
      if s[0].inUse && InUseCount(s[1..]) < |s| - 1 {
        var k :| 0 <= k < |s| - 1 && !s[1..][k].inUse;
        assert !s[k + 1].inUse;
      }
      if k :| 0 <= k < |s| && !s[k].inUse {
        if k > 0 { assert !s[1..][k - 1].inUse; }
      }
    }
  }

  /** The book-keeping: the id given out last is that of the last allocation, every call has the
      id of its own, no two calls are the same allocation, and the count is right. */
  predicate Kept(b: Ledger) {
    && |b.serials| == |b.table.slots|
    && b.table.current == IdOf(b.allocations)
    && b.table.numCalls == InUseCount(b.table.slots)
    && (forall k :: 0 <= k < |b.serials| && b.table.slots[k].inUse ==>
          0 < b.serials[k] <= b.allocations && b.table.slots[k].id == IdOf(b.serials[k]))
    && (forall j, k :: 0 <= j < k < |b.serials| && b.table.slots[j].inUse && b.table.slots[k].inUse ==>
          b.serials[j] != b.serials[k])
  }

  /** Live calls are fewer than 255 allocations apart. */
  predicate InWindow(b: Ledger) {
    && |b.serials| == |b.table.slots|
    && forall j, k :: 0 <= j < |b.serials| && 0 <= k < |b.serials| && b.table.slots[j].inUse && b.table.slots[k].inUse ==>
         b.serials[j] < b.serials[k] + 255
  }

  predicate DistinctIds(s: seq<Slot>) {
    forall j, k :: 0 <= j < k < |s| && s[j].inUse && s[k].inUse ==> s[j].id != s[k].id
  }

  lemma WindowMeansDistinctIds(b: Ledger)
    requires Kept(b) && InWindow(b)
    ensures DistinctIds(b.table.slots)
  {
    forall j, k | 0 <= j < k < |b.serials| && b.table.slots[j].inUse && b.table.slots[k].inUse
      ensures b.table.slots[j].id != b.table.slots[k].id
    {
      if b.serials[j] < b.serials[k] {
        NearIdsDiffer(b.serials[j], b.serials[k]);
      } else {
        NearIdsDiffer(b.serials[k], b.serials[j]);
      }
    }
  }

  // ---- Steps ----

  datatype Step =
    | Accept(id: Byte)
    | Hold(id: Byte)
    | Retrieve(id: Byte)
    | RemotelyHold(id: Byte)
    | RemotelyRetrieve(id: Byte)
    | Place(uriValid: bool)
    | Arrive
    | Terminate(id: Byte)
    | Join(ids: seq<Byte>)

  function Next(t: Table, step: Step): (u: Table)
    ensures |u.slots| == |t.slots|
  {
    match step
    case Accept(id) => t.(slots := Accepted(t.slots, id).0)
    case Hold(id) => t.(slots := HeldLocally(t.slots, id).0)
    case Retrieve(id) => t.(slots := Retrieved(t.slots, id).0)
    case RemotelyHold(id) => t.(slots := HeldRemotely(t.slots, id).0)
    case RemotelyRetrieve(id) => t.(slots := RetrievedRemotely(t.slots, id).0)
    case Place(uriValid) => Placed(t, uriValid).0
    case Arrive => Arrived(t)
    case Terminate(id) => Terminated(t, id).0
    case Join(ids) => t.(slots := Joined(t.slots, ids).0)
  }

  /** The step gives a call an id. */
  predicate Allocates(t: Table, step: Step) {
    match step
    case Place(uriValid) => uriValid && FirstFree(t.slots) < |t.slots|
    case Arrive => t.numCalls < |t.slots| && FirstFree(t.slots) < |t.slots|
    case _ => false
  }

  function After(b: Ledger, step: Step): (c: Ledger)
    requires |b.serials| == |b.table.slots|
    ensures |c.serials| == |c.table.slots| == |b.table.slots|
  {
    var u := Next(b.table, step);
    if Allocates(b.table, step) then
      Ledger(u, b.serials[FirstFree(b.table.slots) := b.allocations + 1], b.allocations + 1)
    else Ledger(u, b.serials, b.allocations)
  }

  /** Only placing, arriving and terminating change who uses which slot under which id. */
  predicate SameCalls(s: seq<Slot>, r: seq<Slot>) {
    |s| == |r| && forall k :: 0 <= k < |s| ==> r[k].inUse == s[k].inUse && r[k].id == s[k].id
  }

  lemma {:induction false} UnholdingKeepsCalls(s: seq<Slot>, ids: seq<Byte>, i: nat)
    requires i <= |ids|
    ensures SameCalls(s, ListedUnheld(s, ids, i).0)
    decreases |ids| - i
  {
    if i < |ids| && ids[i] != 0 {
      var k := Find(s, ids[i]);
      UnholdingKeepsCalls(if k == -1 then s else s[k := Unheld(s[k])], ids, i + 1);
    }
  }

  lemma OthersKeepCalls(t: Table, step: Step)
    requires !step.Place? && !step.Arrive? && !step.Terminate?
    ensures SameCalls(t.slots, Next(t, step).slots)
    ensures Next(t, step).current == t.current && Next(t, step).numCalls == t.numCalls
  {
    if step.Join? {
      UnholdingKeepsCalls(UnlistedHeld(t.slots, step.ids), step.ids, 0);
    }
  }

  lemma SameCallsKept(b: Ledger, u: Table)
    requires Kept(b) && SameCalls(b.table.slots, u.slots) && u.current == b.table.current && u.numCalls == b.table.numCalls
    ensures Kept(b.(table := u))
  {
    SameUseSameCount(b.table.slots, u.slots);
  }

  lemma AllocationKept(b: Ledger, k: nat, state: CallState)
    requires Kept(b) && k < |b.serials| && !b.table.slots[k].inUse
    ensures var id := NextId(b.table.current);
            Kept(Ledger(Table(b.table.slots[k := Slot(id, state, true)], id, b.table.numCalls + 1),
                        b.serials[k := b.allocations + 1], b.allocations + 1))
  {
    NextIdIsIdOfNext(b.allocations);
    CountAfterUpdate(b.table.slots, k, Slot(NextId(b.table.current), state, true));
  }

  lemma PlaceKept(b: Ledger, uriValid: bool)
    requires Kept(b)
    ensures Kept(After(b, Place(uriValid)))
  {
    var k := FirstFree(b.table.slots);
    if uriValid {
      if k < |b.serials| {
        AllocationKept(b, k, Dialing);
        var id := NextId(b.table.current);
        UnusedHeldKept(Ledger(Table(b.table.slots[k := Slot(id, Dialing, true)], id, b.table.numCalls + 1),
                              b.serials[k := b.allocations + 1], b.allocations + 1));
      } else {
        UnusedHeldKept(b);
      }
    }
  }

  lemma UnusedHeldKept(b: Ledger)
    requires Kept(b)
    ensures Kept(b.(table := b.table.(slots := UnusedHeld(b.table.slots))))
  {
    SameCallsKept(b, b.table.(slots := UnusedHeld(b.table.slots)));
  }

  /** The branch that takes an id back is never reached: a count below the size means a free
      slot. */
  lemma RollBackIsUnreachable(b: Ledger)
    requires Kept(b) && b.table.numCalls < |b.table.slots|
    ensures FirstFree(b.table.slots) < |b.table.slots|
  {
    CountBelowSizeMeansFree(b.table.slots);
  }

  lemma ArriveKept(b: Ledger)
    requires Kept(b)
    ensures Kept(After(b, Arrive))
  {
    if b.table.numCalls < |b.table.slots| {
      RollBackIsUnreachable(b);
      AllocationKept(b, FirstFree(b.table.slots), Incoming);
    }
  }

  lemma TerminateKept(b: Ledger, id: Byte)
    requires Kept(b)
    ensures Kept(After(b, Terminate(id)))
  {
    var k := Find(b.table.slots, id);
    if k != -1 {
      CountAfterUpdate(b.table.slots, k, b.table.slots[k].(inUse := false));
    }
  }

  lemma StepKept(b: Ledger, step: Step)
    requires Kept(b)
    ensures Kept(After(b, step))
  {
    match step
    case Place(uriValid) => PlaceKept(b, uriValid);
    case Arrive => ArriveKept(b);
    case Terminate(id) => TerminateKept(b, id);
    case _ =>
      OthersKeepCalls(b.table, step);
      SameCallsKept(b, Next(b.table, step));
  }

  /** No call in the join list has id 0: the branch that looks for it is never reached. */
  lemma JoinSeesNoZero(b: Ledger, ids: seq<Byte>)
    requires Kept(b) && AllFound(b.table.slots, ids)
    ensures 0 !in ids
  {
    forall i | 0 <= i < |ids|
      ensures ids[i] != 0
    {
      assert Find(b.table.slots, ids[i]) != -1;
      NextIdIsIdOfNext(b.serials[Find(b.table.slots, ids[i])]);
    }
  }

  // ---- Who is active ----

  predicate OneActive(s: seq<Slot>) {
    forall j, k :: 0 <= j < k < |s| && s[j].inUse && s[k].inUse ==> !(s[j].state.Active? && s[k].state.Active?)
  }

  /** After an activation of the call in slot `k` the other calls are not active. */
  lemma ActivationIsExclusive(s: seq<Slot>, k: nat, state: CallState, remoteToo: bool)
    requires k < |s| && s[k].inUse && DistinctIds(s)
    ensures OneActive(OthersHeld(s, s[k].id, remoteToo)[k := s[k].(state := state)])
  {
  }

  /** The exact condition, duplicated ids or not: the activation leaves one active call if and
      only if no other active call has the same id. */
  lemma ActivationIsExclusiveIff(s: seq<Slot>, k: nat, remoteToo: bool)
    requires k < |s| && s[k].inUse && OneActive(s)
    ensures OneActive(OthersHeld(s, s[k].id, remoteToo)[k := s[k].(state := Active)])
            <==> forall j :: 0 <= j < |s| && j != k && s[j].inUse && s[j].id == s[k].id ==> !s[j].state.Active?
  {
    var r := OthersHeld(s, s[k].id, remoteToo)[k := s[k].(state := Active)];
    if j :| 0 <= j < |s| && j != k && s[j].inUse && s[j].id == s[k].id && s[j].state.Active? {
      assert r[j] == s[j];
      assert r[j].inUse && r[k].inUse && r[j].state.Active? && r[k].state.Active?;
      if j < k { assert !OneActive(r); } else { assert !OneActive(r); }
    } else {
      assert forall j :: 0 <= j < |s| && j != k && s[j].inUse ==> !r[j].state.Active?;
    }
  }

  lemma StepKeepsOneActive(t: Table, step: Step)
    requires OneActive(t.slots) && DistinctIds(t.slots) && !step.Join?
    ensures OneActive(Next(t, step).slots)
  {
    var s := t.slots;
    match step
    case Accept(id) => if Find(s, id) != -1 { ActivationIsExclusive(s, Find(s, id), Active, true); }
    case Retrieve(id) =>
      if Find(s, id) != -1 {
        ActivationIsExclusive(s, Find(s, id), Active, true);
        ActivationIsExclusive(s, Find(s, id), RemotelyHeld, true);
      }
    case RemotelyRetrieve(id) => if Find(s, id) != -1 { ActivationIsExclusive(s, Find(s, id), Active, false); }
    case _ =>
  }

  ghost predicate Run(b: Ledger, steps: seq<Step>, c: Ledger)
    requires |b.serials| == |b.table.slots|
    decreases |steps|
  {
    if steps == [] then b == c else Run(After(b, steps[0]), steps[1..], c)
  }

  /** Along the whole run no call is joined and live calls stay fewer than 255 allocations
      apart. */
  ghost predicate Unjoined(b: Ledger, steps: seq<Step>)
    requires |b.serials| == |b.table.slots|
    decreases |steps|
  {
    InWindow(b) && (steps != [] ==> !steps[0].Join? && Unjoined(After(b, steps[0]), steps[1..]))
  }

  predicate Init(b: Ledger) {
    && |b.serials| == |b.table.slots| && b.allocations == 0
    && b.table.current == 0 && b.table.numCalls == 0
    && forall k :: 0 <= k < |b.table.slots| ==> !b.table.slots[k].inUse
  }

  lemma InitIsKept(b: Ledger)
    requires Init(b)
    ensures Kept(b) && OneActive(b.table.slots)
  {
    CountBelowSizeMeansFree(b.table.slots);
    NoneInUse(b.table.slots);
  }

  lemma {:induction false} NoneInUse(s: seq<Slot>)
    requires forall k :: 0 <= k < |s| ==> !s[k].inUse
    ensures InUseCount(s) == 0
    decreases |s|
  {
    if s != [] {
      NoneInUse(s[1..]);
    }
  }

  /** On every run the count is that of the slots in use and the last id is that of the last
      allocation. */
  lemma {:induction false} BooksAreKept(b: Ledger, steps: seq<Step>, c: Ledger)
    requires Kept(b) && Run(b, steps, c)
    ensures Kept(c)
    decreases |steps|
  {
    if steps != [] {
      StepKept(b, steps[0]);
      BooksAreKept(After(b, steps[0]), steps[1..], c);
    }
  }

  lemma CountAndIdsOnEveryRun(b: Ledger, steps: seq<Step>, c: Ledger)
    requires Init(b) && Run(b, steps, c)
    ensures c.table.numCalls == InUseCount(c.table.slots)
    ensures c.allocations > 0 ==> c.table.current == (c.allocations - 1) % 255 + 1
    ensures InWindow(c) ==> DistinctIds(c.table.slots)
    ensures forall k :: 0 <= k < |c.table.slots| && c.table.slots[k].inUse ==> c.table.slots[k].id != 0
  {
    InitIsKept(b);
    BooksAreKept(b, steps, c);
    if InWindow(c) { WindowMeansDistinctIds(c); }
    forall k | 0 <= k < |c.table.slots| && c.table.slots[k].inUse
      ensures c.table.slots[k].id != 0
    {
      NextIdIsIdOfNext(c.serials[k]);
    }
  }

  lemma {:induction false} OneActiveOnRuns(b: Ledger, steps: seq<Step>, c: Ledger)
    requires Kept(b) && OneActive(b.table.slots) && Run(b, steps, c) && Unjoined(b, steps)
    ensures OneActive(c.table.slots)
    decreases |steps|
  {
    if steps != [] {
      WindowMeansDistinctIds(b);
      StepKeepsOneActive(b.table, steps[0]);
      StepKept(b, steps[0]);
      OneActiveOnRuns(After(b, steps[0]), steps[1..], c);
    }
  }

  /** At most one call in use is active, on every run without a join on which live calls are
      fewer than 255 allocations apart. */
  lemma AtMostOneActive(b: Ledger, steps: seq<Step>, c: Ledger)
    requires Init(b) && Run(b, steps, c) && Unjoined(b, steps)
    ensures OneActive(c.table.slots)
  {
    InitIsKept(b);
    OneActiveOnRuns(b, steps, c);
  }

  /** Listed calls may become active, no others. */
  predicate ActiveAreListed(s: seq<Slot>, ids: seq<Byte>) {
    forall k :: 0 <= k < |s| && s[k].state.Active? ==> s[k].id in ids
  }

  lemma {:induction false} UnholdingActivatesListed(s: seq<Slot>, ids: seq<Byte>, i: nat)
    requires i <= |ids| && ActiveAreListed(s, ids)
    ensures ActiveAreListed(ListedUnheld(s, ids, i).0, ids)
    decreases |ids| - i
  {
    if i < |ids| && ids[i] != 0 {
      var k := Find(s, ids[i]);
      UnholdingActivatesListed(if k == -1 then s else s[k := Unheld(s[k])], ids, i + 1);
    }
  }

  /** After a successful join every active call is in the join list. */
  lemma JoinedAreListed(s: seq<Slot>, ids: seq<Byte>)
    requires Joined(s, ids).1 == Success
    ensures ActiveAreListed(Joined(s, ids).0, ids)
  {
    UnholdingActivatesListed(UnlistedHeld(s, ids), ids, 0);
  }

  predicate OnHold(c: Slot) {
    c.state.LocallyHeld? || c.state.LocallyAndRemotelyHeld?
  }

  lemma UnheldKeepsDistinct(s: seq<Slot>, m: nat)
    requires m < |s| && DistinctIds(s)
    ensures DistinctIds(s[m := Unheld(s[m])])
  {
  }

  lemma {:induction false} UnholdingTakesAllOffHold(s: seq<Slot>, ids: seq<Byte>, i: nat, k: nat)
    requires i <= |ids| && 0 !in ids && DistinctIds(s) && k < |s| && s[k].inUse && (s[k].id in ids[i..] || !OnHold(s[k]))
    ensures !OnHold(ListedUnheld(s, ids, i).0[k])
    decreases |ids| - i
  {
    if i < |ids| {
      assert ids[i..] == [ids[i]] + ids[i + 1..];
      var m := Find(s, ids[i]);
      if m != -1 { UnheldKeepsDistinct(s, m); }
      UnholdingTakesAllOffHold(if m == -1 then s else s[m := Unheld(s[m])], ids, i + 1, k);
    }
  }

  lemma UnlistedHeldKeepsDistinct(s: seq<Slot>, ids: seq<Byte>)
    requires DistinctIds(s)
    ensures DistinctIds(UnlistedHeld(s, ids))
  {
  }

  lemma JoinTakesOffHold(s: seq<Slot>, ids: seq<Byte>, k: nat)
    requires DistinctIds(s) && 0 !in ids && |ids| >= 2 && AllFound(s, ids) && !SomeIncoming(s, ids)
    requires k < |s| && s[k].inUse && s[k].id in ids
    ensures Joined(s, ids).1 == Success && !OnHold(Joined(s, ids).0[k])
  {
    var u := UnlistedHeld(s, ids);
    UnlistedHeldKeepsDistinct(s, ids);
    UnholdingSucceeds(u, ids, 0);
    assert ids[0..] == ids;
    UnholdingTakesAllOffHold(u, ids, 0, k);
  }

  /** A join of at least two calls in use, none of them incoming, always succeeds, and no listed
      call is left on local hold. */
  lemma JoinSucceeds(b: Ledger, ids: seq<Byte>, k: nat)
    requires Kept(b) && InWindow(b) && |ids| >= 2 && AllFound(b.table.slots, ids) && !SomeIncoming(b.table.slots, ids)
    requires k < |b.table.slots| && b.table.slots[k].inUse && b.table.slots[k].id in ids
    ensures Joined(b.table.slots, ids).1 == Success
    ensures !OnHold(Joined(b.table.slots, ids).0[k])
  {
    WindowMeansDistinctIds(b);
    JoinSeesNoZero(b, ids);
    JoinTakesOffHold(b.table.slots, ids, k);
  }

  lemma {:induction false} UnholdingSucceeds(s: seq<Slot>, ids: seq<Byte>, i: nat)
    requires i <= |ids| && 0 !in ids
    ensures ListedUnheld(s, ids, i).1 == Success
    decreases |ids| - i
  {
    if i < |ids| {
      var k := Find(s, ids[i]);
      UnholdingSucceeds(if k == -1 then s else s[k := Unheld(s[k])], ids, i + 1);
    }
  }

  /** A join succeeds exactly for at least two ids, each of a call in use that is not incoming,
      however often ids are repeated; refused, it changes nothing. */
  lemma JoinSucceedsIff(b: Ledger, ids: seq<Byte>)
    requires Kept(b)
    ensures var s := b.table.slots;
            && (Joined(s, ids).1 == Success <==>
                  |ids| >= 2 && forall id :: id in ids ==> Find(s, id) != -1 && !s[Find(s, id)].state.Incoming?)
            && (Joined(s, ids).1 == InvalidCallId <==> |ids| >= 2 && exists id :: id in ids && Find(s, id) == -1)
            && (Joined(s, ids).1 != Success ==> Joined(s, ids).0 == s)
  {
    var s := b.table.slots;
    assert forall i :: 0 <= i < |ids| ==> ids[i] in ids;
    if AllFound(s, ids) {
      JoinSeesNoZero(b, ids);
      UnholdingSucceeds(UnlistedHeld(s, ids), ids, 0);
    }
  }

  /** Placing a call does not hold the active one: the step that means to do so looks at unused
      slots only, so everything in use stays as it was. */
  lemma PlacingHoldsNothing(t: Table, uriValid: bool, k: nat)
    requires k < |t.slots| && t.slots[k].inUse
    ensures Placed(t, uriValid).0.slots[k] == t.slots[k]
  {
  }

  // ---- Why the window is needed ----

  /** Two slots; the second holds an active call with id 2, the first is free. */
  predicate OneLong(b: Ledger) {
    && |b.table.slots| == |b.serials| == 2
    && b.table.slots[1] == Slot(2, Active, true) && !b.table.slots[0].inUse
    && b.table.current == IdOf(b.allocations)
  }

  predicate NoJoin(steps: seq<Step>) {
    forall k :: 0 <= k < |steps| ==> !steps[k].Join?
  }

  lemma Prepend(b: Ledger, step: Step, rest: seq<Step>, c: Ledger)
    requires |b.serials| == |b.table.slots| && Run(After(b, step), rest, c)
    ensures Run(b, [step] + rest, c)
  {
    assert ([step] + rest)[1..] == rest;
  }

  lemma ChurnOnce(b: Ledger)
    requires OneLong(b) && 2 <= b.allocations < 256
    ensures OneLong(After(After(b, Place(true)), Terminate(IdOf(b.allocations + 1))))
    ensures After(After(b, Place(true)), Terminate(IdOf(b.allocations + 1))).allocations == b.allocations + 1
  {
    NextIdIsIdOfNext(b.allocations);
    assert FirstFree(b.table.slots) == 0;
    var p := After(b, Place(true));
    assert p.table.slots[0] == Slot(IdOf(b.allocations + 1), Dialing, true) && p.table.slots[1] == b.table.slots[1];
    assert Find(p.table.slots, IdOf(b.allocations + 1)) == 0;
  }

  lemma {:induction false} Churn(b: Ledger) returns (steps: seq<Step>, c: Ledger)
    requires OneLong(b) && 2 <= b.allocations <= 256
    ensures Run(b, steps, c) && NoJoin(steps) && OneLong(c) && c.allocations == 256
    decreases 256 - b.allocations
  {
    if b.allocations == 256 {
      steps, c := [], b;
    } else {
      ChurnOnce(b);
      var id := IdOf(b.allocations + 1);
      var p := After(b, Place(true));
      var rest;
      rest, c := Churn(After(p, Terminate(id)));
      Prepend(p, Terminate(id), rest, c);
      Prepend(b, Place(true), [Terminate(id)] + rest, c);
      steps := [Place(true)] + ([Terminate(id)] + rest);
    }
  }

  lemma LongCallStarts() returns (b: Ledger, steps: seq<Step>, c: Ledger)
    ensures Init(b) && Run(b, steps, c) && NoJoin(steps) && OneLong(c) && c.allocations == 2
  {
    var free := Slot(0, Incoming, false);
    b := Ledger(Table([free, free], 0, 0), [0, 0], 0);
    var b1 := After(b, Arrive);
    assert b1.table.slots == [Slot(1, Incoming, true), free];
    var b2 := After(b1, Arrive);
    assert b2.table.slots == [Slot(1, Incoming, true), Slot(2, Incoming, true)];
    var b3 := After(b2, Accept(2));
    assert b3.table.slots == [Slot(1, Incoming, true), Slot(2, Active, true)];
    c := After(b3, Terminate(1));
    Prepend(b3, Terminate(1), [], c);
    Prepend(b2, Accept(2), [Terminate(1)], c);
    Prepend(b1, Arrive, [Accept(2)] + [Terminate(1)], c);
    Prepend(b, Arrive, [Arrive] + ([Accept(2)] + [Terminate(1)]), c);
    steps := [Arrive] + ([Arrive] + ([Accept(2)] + [Terminate(1)]));
  }

  lemma SecondCallCollides(m: Ledger) returns (steps: seq<Step>, c: Ledger)
    requires OneLong(m) && m.allocations == 256
    ensures Run(m, steps, c) && NoJoin(steps)
    ensures !OneActive(c.table.slots)
  {
    NextIdIsIdOfNext(256);
    assert FirstFree(m.table.slots) == 0;
    var p := After(m, Place(true));
    assert p.table.slots == [Slot(2, Dialing, true), Slot(2, Active, true)];
    assert Find(p.table.slots, 2) == 0;
    c := After(p, Accept(2));
    assert c.table.slots[0] == c.table.slots[1] == Slot(2, Active, true);
    Prepend(p, Accept(2), [], c);
    Prepend(m, Place(true), [Accept(2)], c);
    steps := [Place(true)] + [Accept(2)];
  }

  /** One call that outlives 255 allocations: the 257th call gets its id, and accepting that one
      leaves both active. */
  lemma TwoActiveWithoutWindow() returns (b: Ledger, steps: seq<Step>, c: Ledger)
    ensures Init(b) && Run(b, steps, c) && NoJoin(steps)
    ensures !OneActive(c.table.slots)
  {
    var first, churn, last, l, m;
    b, first, l := LongCallStarts();
    churn, m := Churn(l);
    last, c := SecondCallCollides(m);
    RunsCompose(l, churn, m, last, c);
    RunsCompose(b, first, l, churn + last, c);
    steps := first + (churn + last);
  }

  lemma {:induction false} RunsCompose(b: Ledger, steps: seq<Step>, m: Ledger, more: seq<Step>, c: Ledger)
    requires |b.serials| == |b.table.slots| && |m.serials| == |m.table.slots|
    requires Run(b, steps, m) && Run(m, more, c)
    ensures Run(b, steps + more, c)
    decreases |steps|
  {
    if steps == [] {
      assert steps + more == more;
    } else {
      RunsCompose(After(b, steps[0]), steps[1..], m, more, c);
      Prepend(b, steps[0], steps[1..] + more, c);
      assert steps + more == [steps[0]] + (steps[1..] + more);
    }
  }
}
