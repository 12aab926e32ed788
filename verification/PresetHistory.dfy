/** The preset array against its history: after any Read Preset responses it is the bounded
    sorted map of the latest records, and every notification keeps it tidy. */
module PresetHistory {
  import opened Bytes
  import opened PresetList

  // ---- Read Preset responses ----

  /** A read response for an index that is not in the array goes in front of the first higher
      one, and what falls off the end is lost. */
  function Inserted(l: seq<Rec>, p: nat, rec: Rec): (r: seq<Rec>)
    requires p < |l|
    ensures |r| == |l|
  {
    l[..p] + [rec] + l[p..|l| - 1]
  }

  lemma ReadForm(l: seq<Rec>, rec: Rec)
    requires Tidy(l) && rec.index >= 1
    ensures var (k, p) := (Search(l, rec.index), Predict(l, rec.index));
            && (k != -1 ==> AfterRead(l, rec) == l[k := rec])
            && (k == -1 && p == -1 ==> AfterRead(l, rec) == l)
            && (k == -1 && p != -1 ==> AfterRead(l, rec) == Inserted(l, p, rec) && l[p].index != rec.index)
  {
    var k, p := Search(l, rec.index), Predict(l, rec.index);
    if k == -1 && p != -1 {
      assert l[p].index != rec.index;
      var next := NextHigher(l, rec.index, p);
      if p == |l| - 1 {
        assert l[p..|l| - 1] == [];
      } else if l[p].index == 0 {
        assert forall j :: p < j < |l| ==> l[j].index == 0;
        assert next == |l|;
        assert l[p..|l| - 1] == Empties(|l| - p - 1);
      } else {
        assert next == p;
      }
    }
  }

  lemma InsertedIsTidy(l: seq<Rec>, p: nat, rec: Rec)
    requires Tidy(l) && rec.index >= 1 && p < |l|
    requires forall j :: 0 <= j < p ==> 0 != l[j].index < rec.index
    requires l[p].index == 0 || l[p].index > rec.index
    ensures Tidy(Inserted(l, p, rec))
  {
    var r := Inserted(l, p, rec);
    forall j, k | 0 <= j < k < |r| && r[k].index != 0
      ensures 0 != r[j].index < r[k].index
    {
      if k > p {
        assert r[k] == l[k - 1];
        if j > p {
          assert r[j] == l[j - 1];
        } else if j < p {
          assert r[j] == l[j];
        }
      } else {
        assert r[j] == l[j];
      }
    }
  }

  ghost predicate Contains(l: seq<Rec>, index: Byte) {
    exists k :: 0 <= k < |l| && l[k].index == index
  }

  /** Every slot is taken, by a smaller index than `index`. */
  predicate FullBelow(l: seq<Rec>, index: Byte) {
    forall k :: 0 <= k < |l| ==> 0 != l[k].index < index
  }

  /** The latest record of every index seen so far, and no other. */
  predicate IsLatest(latest: map<Byte, Rec>) {
    forall i :: i in latest ==> i != 0 && latest[i].index == i
  }

  /** The array holds the smallest indices ever seen, as many as fit, ascending, each with its
      latest record; behind them it is empty. */
  ghost predicate HoldsSmallest(l: seq<Rec>, latest: map<Byte, Rec>) {
    && Tidy(l) && IsLatest(latest)
    && (forall k :: 0 <= k < |l| && l[k].index != 0 ==> l[k].index in latest && latest[l[k].index] == l[k])
    && (forall i :: i in latest ==> Contains(l, i) || FullBelow(l, i))
  }

  lemma InsertedContains(l: seq<Rec>, p: nat, rec: Rec, i: Byte)
    requires Tidy(l) && rec.index >= 1 && p < |l| && l[p].index != rec.index
    requires forall j :: 0 <= j < p ==> 0 != l[j].index < rec.index
    requires l[p].index == 0 || l[p].index > rec.index
    requires i != 0 && (i == rec.index || Contains(l, i) || FullBelow(l, i))
    ensures Contains(Inserted(l, p, rec), i) || FullBelow(Inserted(l, p, rec), i)
  {
    var r := Inserted(l, p, rec);
    if i == rec.index {
      assert r[p].index == i;
    } else if Contains(l, i) {
      var k :| 0 <= k < |l| && l[k].index == i;
      if k < p {
        assert r[k].index == i;
      } else if k < |l| - 1 {
        assert r[k + 1].index == i;
      } else {
        forall m | 0 <= m < |r|
          ensures 0 != r[m].index < i
        {
          if m > p { assert r[m] == l[m - 1]; }
        }
      }
    } else {
      forall m | 0 <= m < |r|
        ensures 0 != r[m].index < i
      {
        if m > p { assert r[m] == l[m - 1]; }
      }
    }
  }

  lemma ReplacedKeepsSmallest(l: seq<Rec>, latest: map<Byte, Rec>, k: nat, rec: Rec)
    requires HoldsSmallest(l, latest) && k < |l| && l[k].index == rec.index != 0
    ensures HoldsSmallest(l[k := rec], latest[rec.index := rec])
  {
    var r, next := l[k := rec], latest[rec.index := rec];
    forall i | i in next
      ensures Contains(r, i) || FullBelow(r, i)
    {
      assert i in latest;
      if Contains(l, i) {
        var m :| 0 <= m < |l| && l[m].index == i;
        assert r[m].index == i;
      }
    }
  }

  lemma DroppedKeepsSmallest(l: seq<Rec>, latest: map<Byte, Rec>, rec: Rec)
    requires HoldsSmallest(l, latest) && rec.index != 0 && FullBelow(l, rec.index)
    ensures HoldsSmallest(l, latest[rec.index := rec])
  {
  }

  lemma InsertedKeepsSmallest(l: seq<Rec>, latest: map<Byte, Rec>, p: nat, rec: Rec)
    requires HoldsSmallest(l, latest) && rec.index != 0 && p < |l|
    requires forall k :: 0 <= k < |l| ==> l[k].index != rec.index
    requires forall j :: 0 <= j < p ==> 0 != l[j].index < rec.index
    requires l[p].index == 0 || l[p].index > rec.index
    ensures HoldsSmallest(Inserted(l, p, rec), latest[rec.index := rec])
  {
    var r, next := Inserted(l, p, rec), latest[rec.index := rec];
    InsertedIsTidy(l, p, rec);
    forall m | 0 <= m < |r| && r[m].index != 0
      ensures r[m].index in next && next[r[m].index] == r[m]
    {
      assert r[m] == if m < p then l[m] else if m == p then rec else l[m - 1];
    }
    forall i | i in next
      ensures Contains(r, i) || FullBelow(r, i)
    {
      InsertedContains(l, p, rec, i);
    }
  }

  lemma ReadKeepsSmallest(l: seq<Rec>, latest: map<Byte, Rec>, rec: Rec)
    requires HoldsSmallest(l, latest) && rec.index >= 1
    ensures HoldsSmallest(AfterRead(l, rec), latest[rec.index := rec])
  {
    var k, p := Search(l, rec.index), Predict(l, rec.index);
    ReadForm(l, rec);
    if k != -1 {
      ReplacedKeepsSmallest(l, latest, k, rec);
    } else if p == -1 {
      DroppedKeepsSmallest(l, latest, rec);
    } else {
      InsertedKeepsSmallest(l, latest, p, rec);
    }
  }

  function Reads(l: seq<Rec>, recs: seq<Rec>): (r: seq<Rec>)
    ensures |r| == |l|
    decreases |recs|
  {
    if recs == [] then l else AfterRead(Reads(l, recs[..|recs| - 1]), recs[|recs| - 1])
  }

  function Latest(recs: seq<Rec>): map<Byte, Rec> {
    if recs == [] then map[]
    else Latest(recs[..|recs| - 1])[recs[|recs| - 1].index := recs[|recs| - 1]]
  }

  ghost predicate IsLast(recs: seq<Rec>, i: Byte, k: nat) {
    && k < |recs| && recs[k].index == i
    && forall m :: k < m < |recs| ==> recs[m].index != i
  }

  /** The latest record of an index is the last one received with it. */
  lemma {:induction false} LatestIsLast(recs: seq<Rec>, i: Byte)
    ensures if i in Latest(recs) then exists k: nat :: IsLast(recs, i, k) && recs[k] == Latest(recs)[i]
            else forall k :: 0 <= k < |recs| ==> recs[k].index != i
    decreases |recs|
  {
    if recs != [] {
      var last, before := |recs| - 1, recs[..|recs| - 1];
      LatestIsLast(before, i);
      if recs[last].index == i {
        assert IsLast(recs, i, last);
      } else if i in Latest(recs) {
        var k: nat :| IsLast(before, i, k) && before[k] == Latest(before)[i];
        assert IsLast(recs, i, k) && recs[k] == Latest(recs)[i];
      } else {
        forall k | 0 <= k < |recs|
          ensures recs[k].index != i
        {
          if k < last { assert recs[k] == before[k]; }
        }
      }
    }
  }

  /** After any Read Preset responses with indices from 1 up, into an array of any size. */
  lemma {:induction false} ReadsHoldSmallest(n: nat, recs: seq<Rec>)
    requires forall k :: 0 <= k < |recs| ==> recs[k].index >= 1
    ensures HoldsSmallest(Reads(Empties(n), recs), Latest(recs))
    decreases |recs|
  {
    if recs != [] {
      var before := recs[..|recs| - 1];
      ReadsHoldSmallest(n, before);
      ReadKeepsSmallest(Reads(Empties(n), before), Latest(before), recs[|recs| - 1]);
    }
  }

  /** The records seen leave no choice: only one array of the given size holds the smallest. */
  lemma SmallestIsUnique(l: seq<Rec>, r: seq<Rec>, latest: map<Byte, Rec>)
    requires HoldsSmallest(l, latest) && HoldsSmallest(r, latest) && |l| == |r|
    ensures l == r
  {
    var k := 0;
    while k < |l|
      invariant 0 <= k <= |l| && forall m :: 0 <= m < k ==> l[m] == r[m]
    {
      SmallestAgreeAt(l, r, latest, k);
      k := k + 1;
    }
  }

  lemma SmallestAgreeAt(l: seq<Rec>, r: seq<Rec>, latest: map<Byte, Rec>, k: nat)
    requires HoldsSmallest(l, latest) && HoldsSmallest(r, latest) && |l| == |r|
    requires k < |l| && forall m :: 0 <= m < k ==> l[m] == r[m]
    ensures l[k] == r[k]
  {
    NextIsNoSmaller(l, r, latest, k);
    NextIsNoSmaller(r, l, latest, k);
  }

  lemma NextIsNoSmaller(l: seq<Rec>, r: seq<Rec>, latest: map<Byte, Rec>, k: nat)
    requires HoldsSmallest(l, latest) && HoldsSmallest(r, latest) && |l| == |r|
    requires k < |l| && forall m :: 0 <= m < k ==> l[m] == r[m]
    ensures l[k].index != 0 ==> 0 != r[k].index <= l[k].index
  {
    var i := l[k].index;
    if i != 0 && (r[k].index == 0 || r[k].index > i) {
      forall m | 0 <= m < |r|
        ensures r[m].index != i
      {
        if m < k { assert r[m] == l[m]; }
        if m > k && r[m].index != 0 { assert r[k].index < r[m].index; }
      }
      assert false;
    }
  }

  // ---- All notifications ----

  datatype Event =
    | ReadResponse(rec: Rec)
    | GenericUpdate(prev: Byte, rec: Rec)
    | RecordDeleted(index: Byte)
    | AvailabilityChanged(index: Byte, available: bool)

  function After(l: seq<Rec>, e: Event): (r: seq<Rec>)
    ensures |r| == |l|
  {
    match e
    case ReadResponse(rec) => AfterRead(l, rec)
    case GenericUpdate(prev, rec) => AfterGenericUpdate(l, prev, rec)
    case RecordDeleted(index) => AfterDeletion(l, index)
    case AvailabilityChanged(index, available) => AfterAvailability(l, index, available)
  }

  /** A preset has an index from 1 up, and follows the one it is said to follow. */
  predicate Sensible(e: Event) {
    match e
    case ReadResponse(rec) => rec.index >= 1
    case GenericUpdate(prev, rec) => rec.index >= 1 && prev <= rec.index
    case _ => true
  }

  /** A record at `p`, what stood from `from` on right behind it, and empty slots. */
  function Placed(l: seq<Rec>, p: nat, rec: Rec, from: nat): (r: seq<Rec>)
    requires p < from <= |l|
    ensures |r| == |l|
    ensures r[p] == rec
    ensures forall k :: 0 <= k < p ==> r[k] == l[k]
    ensures forall k :: p < k < p + 1 + |l| - from ==> r[k] == l[k - p - 1 + from]
    ensures forall k :: p + 1 + |l| - from <= k < |l| ==> r[k] == EMPTY
  {
    l[..p] + [rec] + l[from..] + Empties(from - p - 1)
  }

  lemma PlacedIsTidy(l: seq<Rec>, p: nat, rec: Rec, from: nat)
    requires Tidy(l) && rec.index >= 1 && p < from <= |l|
    requires forall j :: 0 <= j < p ==> 0 != l[j].index < rec.index
    requires forall j :: from <= j < |l| ==> l[j].index == 0 || l[j].index > rec.index
    ensures Tidy(Placed(l, p, rec, from))
  {
    var r := Placed(l, p, rec, from);
    forall j, k | 0 <= j < k < |r| && r[k].index != 0
      ensures 0 != r[j].index < r[k].index
    {
      if k > p && j < p { assert l[j].index < rec.index; }
    }
  }

  lemma ClearedIsPlaced(l: seq<Rec>, p: nat, rec: Rec)
    requires p < |l|
    ensures l[..p] + [rec] + Empties(|l| - p - 1) == Placed(l, p, rec, |l|)
  {
    assert l[|l|..] == [];
  }

  lemma ReplacedInside(front: seq<Rec>, was: Rec, back: seq<Rec>, rec: Rec)
    ensures (front + [was] + back)[|front| := rec] == front + [rec] + back
  {
  }

  lemma Regrouped(a: seq<Rec>, b: seq<Rec>, c: seq<Rec>, d: seq<Rec>)
    ensures a + (b + c) + d == a + b + (c + d)
    ensures a + b + c + d == a + b + (c + d)
  {
  }

  lemma DeletedIsPlaced(l: seq<Rec>, p: nat, rec: Rec, next: nat)
    requires p < next < |l|
    ensures Deleted(l, p, next - 1)[p := rec] == Placed(l, p, rec, next + 1)
  {
    var front, back, tail := l[..p], l[next + 1..], Empties(next - p);
    assert l[next..] == [l[next]] + back;
    Regrouped(front, [l[next]], back, tail);
    ReplacedInside(front, l[next], back + tail, rec);
    Regrouped(front, [rec], back, tail);
  }

  lemma ReplacedIsPlaced(l: seq<Rec>, p: nat, rec: Rec)
    requires p < |l|
    ensures l[p := rec] == Placed(l, p, rec, p + 1)
  {
    var r := Placed(l, p, rec, p + 1);
    assert forall k :: 0 <= k < |l| ==> l[p := rec][k] == r[k];
  }

  lemma ShiftedIsInserted(l: seq<Rec>, p: nat, rec: Rec)
    requires p < |l|
    ensures (l[..p + 1] + l[p..|l| - 1])[p := rec] == Inserted(l, p, rec)
  {
  }

  lemma RoomIsMade(l: seq<Rec>, p: nat, rec: Rec, next: nat)
    requires p < |l| && p <= next <= |l|
    ensures RoomMade(l, p, next)[p := rec] ==
              if next == p then Inserted(l, p, rec)
              else Placed(l, p, rec, if next == |l| then |l| else next + 1)
  {
    if next == |l| {
      ClearedIsPlaced(l, p, rec);
    } else if next > p {
      DeletedIsPlaced(l, p, rec, next);
    } else {
      ShiftedIsInserted(l, p, rec);
    }
  }

  /** The part of the array that a generic update at `p` keeps behind its own record. `next` is
      the first record from there on that is not smaller; when records are skipped to get to it,
      it is overwritten along with them. */
  function KeptFrom(l: seq<Rec>, rec: Rec, p: nat, next: nat): (k: nat)
    requires p <= next <= |l| && p < |l|
    ensures p <= k <= |l|
  {
    if l[p].index == rec.index || p == |l| - 1 then p + 1
    else if next == p then p
    else if next == |l| then |l|
    else next + 1
  }

  function KeptTo(l: seq<Rec>, rec: Rec, p: nat, next: nat): (k: nat)
    requires p <= next <= |l| && p < |l|
    ensures k <= |l|
  {
    if KeptFrom(l, rec, p, next) == p then |l| - 1 else |l|
  }

  /** A generic update in each of its cases. */
  lemma UpdateForm(l: seq<Rec>, prev: Byte, rec: Rec, p: nat, next: nat)
    requires Tidy(l) && rec.index >= 1 && prev <= rec.index
    requires Predict(l, prev) == p && p < |l| && next == NextHigher(l, rec.index, p)
    ensures var from := KeptFrom(l, rec, p, next);
            AfterGenericUpdate(l, prev, rec) ==
              if from == p then Inserted(l, p, rec) else Placed(l, p, rec, from)
  {
    if l[p].index == rec.index || p == |l| - 1 {
      ReplacedIsPlaced(l, p, rec);
    } else {
      RoomIsMade(l, p, rec, next);
    }
  }

  lemma UpdateKeepsTidy(l: seq<Rec>, prev: Byte, rec: Rec)
    requires Tidy(l) && rec.index >= 1 && prev <= rec.index
    ensures Tidy(AfterGenericUpdate(l, prev, rec))
  {
    var p := Predict(l, prev);
    if p != -1 {
      var next := NextHigher(l, rec.index, p);
      UpdateForm(l, prev, rec, p, next);
      if KeptFrom(l, rec, p, next) == p {
        InsertedIsTidy(l, p, rec);
      } else {
        PlacedIsTidy(l, p, rec, KeptFrom(l, rec, p, next));
      }
    }
  }

  ghost predicate ContainsIn(l: seq<Rec>, lo: nat, hi: nat, index: Byte)
    requires hi <= |l|
  {
    exists k :: lo <= k < hi && l[k].index == index
  }

  lemma PlacedContains(l: seq<Rec>, p: nat, rec: Rec, from: nat, i: Byte)
    requires p < from <= |l| && i != 0
    ensures Contains(Placed(l, p, rec, from), i)
            <==> i == rec.index || ContainsIn(l, 0, p, i) || ContainsIn(l, from, |l|, i)
  {
    var r := Placed(l, p, rec, from);
    assert r[p].index == rec.index;
    if ContainsIn(l, 0, p, i) {
      var k :| 0 <= k < p && l[k].index == i;
      assert r[k].index == i;
    }
    if ContainsIn(l, from, |l|, i) {
      var k :| from <= k < |l| && l[k].index == i;
      assert r[k - from + p + 1].index == i;
    }
  }

  lemma InsertedContainsOnly(l: seq<Rec>, p: nat, rec: Rec, i: Byte)
    requires p < |l|
    ensures Contains(Inserted(l, p, rec), i)
            <==> i == rec.index || ContainsIn(l, 0, p, i) || ContainsIn(l, p, |l| - 1, i)
  {
    var r := Inserted(l, p, rec);
    assert r[p].index == rec.index;
    if ContainsIn(l, 0, p, i) {
      var k :| 0 <= k < p && l[k].index == i;
      assert r[k].index == i;
    }
    if ContainsIn(l, p, |l| - 1, i) {
      var k :| p <= k < |l| - 1 && l[k].index == i;
      assert r[k + 1].index == i;
    }
  }

  lemma UpdatedContains(l: seq<Rec>, prev: Byte, rec: Rec, p: nat, next: nat, i: Byte)
    requires Tidy(l) && rec.index >= 1 && prev <= rec.index && i != 0
    requires Predict(l, prev) == p && p < |l| && next == NextHigher(l, rec.index, p)
    ensures Contains(AfterGenericUpdate(l, prev, rec), i)
            <==> || i == rec.index
                 || ContainsIn(l, 0, p, i)
                 || ContainsIn(l, KeptFrom(l, rec, p, next), KeptTo(l, rec, p, next), i)
  {
    UpdateForm(l, prev, rec, p, next);
    if KeptFrom(l, rec, p, next) == p {
      InsertedContainsOnly(l, p, rec, i);
    } else {
      PlacedContains(l, p, rec, KeptFrom(l, rec, p, next), i);
    }
  }

  /** A record of a tidy array is found in any stretch around its place, and nowhere else. */
  lemma FoundIn(l: seq<Rec>, k: nat, lo: nat, hi: nat)
    requires Tidy(l) && k < |l| && hi <= |l| && l[k].index != 0
    ensures ContainsIn(l, lo, hi, l[k].index) <==> lo <= k < hi
  {
  }

  /** A record with a higher index is lost although a slot stays free. */
  ghost predicate LosesHigher(l: seq<Rec>, r: seq<Rec>, index: Byte) {
    && (exists j :: 0 <= j < |l| && l[j].index > index && !Contains(r, l[j].index))
    && r != [] && r[|r| - 1].index == 0
  }

  /** The update skips smaller records to get to a higher one. */
  predicate SkipsToHigher(l: seq<Rec>, prev: Byte, rec: Rec) {
    var p := Predict(l, prev);
    p != -1 &&
    var next := NextHigher(l, rec.index, p);
    p < next < |l| && l[next].index > rec.index
  }

  /** When everything moved down and the last slot is free, the one before it was. */
  lemma EndWasFree(l: seq<Rec>, prev: Byte, rec: Rec, p: nat, next: nat)
    requires Tidy(l) && rec.index >= 1 && prev <= rec.index
    requires Predict(l, prev) == p && p < |l| && next == NextHigher(l, rec.index, p)
    requires KeptFrom(l, rec, p, next) == p
    requires var r := AfterGenericUpdate(l, prev, rec); r[|r| - 1].index == 0
    ensures |l| >= 2 && l[|l| - 2].index == 0
    ensures forall j :: 0 <= j < |l| && l[j].index != 0 ==> j < |l| - 1
  {
    UpdateForm(l, prev, rec, p, next);
    assert AfterGenericUpdate(l, prev, rec)[|l| - 1] == l[|l| - 2];
  }

  lemma HigherIsKept(l: seq<Rec>, prev: Byte, rec: Rec, j: nat)
    requires Tidy(l) && rec.index >= 1 && prev <= rec.index && !SkipsToHigher(l, prev, rec)
    requires j < |l| && l[j].index > rec.index
    requires var r := AfterGenericUpdate(l, prev, rec); r[|r| - 1].index == 0
    ensures Contains(AfterGenericUpdate(l, prev, rec), l[j].index)
  {
    var p := Predict(l, prev);
    if p != -1 {
      var next := NextHigher(l, rec.index, p);
      UpdatedContains(l, prev, rec, p, next, l[j].index);
      FoundIn(l, j, 0, p);
      FoundIn(l, j, KeptFrom(l, rec, p, next), KeptTo(l, rec, p, next));
      if KeptFrom(l, rec, p, next) == p { EndWasFree(l, prev, rec, p, next); }
    }
  }

  /** A generic update loses a higher record for no lack of room exactly if it skips smaller
      records to get to that one: it is overwritten along with them. */
  lemma HigherRecordIsLost(l: seq<Rec>, prev: Byte, rec: Rec)
    requires Tidy(l) && rec.index >= 1 && prev <= rec.index
    ensures LosesHigher(l, AfterGenericUpdate(l, prev, rec), rec.index) <==> SkipsToHigher(l, prev, rec)
  {
    var r := AfterGenericUpdate(l, prev, rec);
    if SkipsToHigher(l, prev, rec) {
      var p := Predict(l, prev);
      var next := NextHigher(l, rec.index, p);
      UpdateForm(l, prev, rec, p, next);
      UpdatedContains(l, prev, rec, p, next, l[next].index);
      FoundIn(l, next, 0, p);
      FoundIn(l, next, next + 1, |l|);
      assert l[next].index > rec.index && !Contains(r, l[next].index);
    } else if LosesHigher(l, r, rec.index) {
      var j :| 0 <= j < |l| && l[j].index > rec.index && !Contains(r, l[j].index);
      HigherIsKept(l, prev, rec, j);
      assert false;
    }
  }

  /** The record that the new one is said to follow is in the way: it never survives. */
  lemma PrecedingRecordIsLost(l: seq<Rec>, prev: Byte, rec: Rec)
    requires Tidy(l) && 1 <= prev <= rec.index && Contains(l, prev)
    ensures Contains(AfterGenericUpdate(l, prev, rec), prev) <==> prev == rec.index
  {
    var k: nat :| k < |l| && l[k].index == prev;
    var p := Predict(l, prev);
    assert 0 <= p <= k;
    assert p == k;
    var next := NextHigher(l, rec.index, p);
    UpdatedContains(l, prev, rec, p, next, prev);
    FoundIn(l, k, 0, p);
    FoundIn(l, k, KeptFrom(l, rec, p, next), KeptTo(l, rec, p, next));
  }

  /** What the notification says: the record is there, nothing is left between it and the one
      it follows, and everything else stays. */
  ghost predicate AsAsked(l: seq<Rec>, r: seq<Rec>, prev: Byte, index: Byte) {
    forall i: Byte :: i != 0 ==> (Contains(r, i) <==> Asked(l, prev, index, i))
  }

  ghost predicate Asked(l: seq<Rec>, prev: Byte, index: Byte, i: Byte) {
    i == index || (Contains(l, i) && (i <= prev || i > index))
  }

  /** The predicted slot is free, or holds the record's own index, or one behind it while there
      is room; or it holds one that is to go, and nothing but such up to the end or to the
      record's own index. */
  predicate UpdateGoesRight(l: seq<Rec>, prev: Byte, rec: Rec) {
    var p := Predict(l, prev);
    p != -1 &&
    var next := NextHigher(l, rec.index, p);
    || l[p].index == 0
    || l[p].index == rec.index
    || (l[p].index > rec.index && l[|l| - 1].index == 0)
    || (prev < l[p].index < rec.index && (next == |l| || l[next].index == rec.index))
  }

  lemma UpdateIsAsAsked(l: seq<Rec>, prev: Byte, rec: Rec, i: Byte)
    requires Tidy(l) && rec.index >= 1 && prev <= rec.index && UpdateGoesRight(l, prev, rec) && i != 0
    ensures Contains(AfterGenericUpdate(l, prev, rec), i) <==> Asked(l, prev, rec.index, i)
  {
    var p := Predict(l, prev);
    var next := NextHigher(l, rec.index, p);
    UpdatedContains(l, prev, rec, p, next, i);
    if i != rec.index && Contains(l, i) {
      var k: nat :| k < |l| && l[k].index == i;
      FoundIn(l, k, 0, p);
      FoundIn(l, k, KeptFrom(l, rec, p, next), KeptTo(l, rec, p, next));
    }
  }

  /** What goes wrong otherwise: a full array has no place for the record, or a record that
      should stay is overwritten. */
  lemma UpdateGoesWrong(l: seq<Rec>, prev: Byte, rec: Rec) returns (i: Byte)
    requires Tidy(l) && rec.index >= 1 && prev <= rec.index && !UpdateGoesRight(l, prev, rec)
    ensures i != 0 && !Contains(AfterGenericUpdate(l, prev, rec), i) && Asked(l, prev, rec.index, i)
  {
    var p := Predict(l, prev);
    if p == -1 {
      return rec.index;
    }
    var next := NextHigher(l, rec.index, p);
    var k: nat := if l[p].index > rec.index then |l| - 1 else if l[p].index == prev then p else next;
    i := l[k].index;
    assert Contains(l, i) && (i <= prev || i > rec.index) && i != 0;
    UpdatedContains(l, prev, rec, p, next, i);
    FoundIn(l, k, 0, p);
    FoundIn(l, k, KeptFrom(l, rec, p, next), KeptTo(l, rec, p, next));
  }

  /** Exactly when a generic update leaves the presets the notification asks for. */
  lemma UpdateIsAsAskedIff(l: seq<Rec>, prev: Byte, rec: Rec)
    requires Tidy(l) && rec.index >= 1 && prev <= rec.index
    ensures AsAsked(l, AfterGenericUpdate(l, prev, rec), prev, rec.index) <==> UpdateGoesRight(l, prev, rec)
  {
    var r := AfterGenericUpdate(l, prev, rec);
    if UpdateGoesRight(l, prev, rec) {
      forall i: Byte | i != 0
        ensures Contains(r, i) <==> Asked(l, prev, rec.index, i)
      {
        UpdateIsAsAsked(l, prev, rec, i);
      }
    } else {
      var i := UpdateGoesWrong(l, prev, rec);
      assert !(Contains(r, i) <==> Asked(l, prev, rec.index, i));
    }
  }

  lemma PredictedEnd(l: seq<Rec>, index: Byte, p: nat)
    requires p < |l| && l[p].index == 0 && index >= 1
    requires forall j :: 0 <= j < p ==> 0 != l[j].index < index
    requires forall j :: p <= j < |l| ==> l[j].index == 0
    ensures Search(l, index) == -1 && Predict(l, index) == p
  {
  }

  /** In any array, tidy or not, a read response overwrites the first record that has its index. */
  lemma ReadOverwrites(l: seq<Rec>, k: nat, rec: Rec)
    requires k < |l| && rec.index >= 1 && l[k].index == rec.index
    requires forall j :: 0 <= j < k ==> l[j].index != rec.index
    ensures AfterRead(l, rec) == l[k := rec]
  {
    assert Search(l, rec.index) == k;
  }

  lemma ReadAtEnd(l: seq<Rec>, n: nat, rec: Rec)
    requires Tidy(l + Empties(n)) && n > 0 && rec.index >= 1
    requires forall j :: 0 <= j < |l| ==> 0 != l[j].index < rec.index
    ensures AfterRead(l + Empties(n), rec) == l + [rec] + Empties(n - 1)
  {
    var was := l + Empties(n);
    PredictedEnd(was, rec.index, |l|);
    ReadForm(was, rec);
    assert was[..|l|] == l && was[|l|..|was| - 1] == Empties(n - 1);
  }

  lemma AscendingIsTidy(recs: seq<Rec>, n: nat)
    requires forall j :: 0 <= j < |recs| ==> recs[j].index >= 1
    requires forall j, k :: 0 <= j < k < |recs| ==> recs[j].index < recs[k].index
    ensures Tidy(recs + Empties(n))
  {
  }

  lemma {:induction false} AscendingReadsFill(n: nat, recs: seq<Rec>)
    requires |recs| <= n && forall j :: 0 <= j < |recs| ==> recs[j].index >= 1
    requires forall j, k :: 0 <= j < k < |recs| ==> recs[j].index < recs[k].index
    ensures Reads(Empties(n), recs) == recs + Empties(n - |recs|)
    decreases |recs|
  {
    if recs == [] {
      assert recs + Empties(n) == Empties(n);
    } else {
      var before, rec := recs[..|recs| - 1], recs[|recs| - 1];
      var room := n - |before|;
      AscendingReadsFill(n, before);
      AscendingIsTidy(before, room);
      ReadAtEnd(before, room, rec);
      calc {
        Reads(Empties(n), recs);
        AfterRead(Reads(Empties(n), before), rec);
        AfterRead(before + Empties(room), rec);
        before + [rec] + Empties(room - 1);
        { assert before + [rec] == recs; }
        recs + Empties(n - |recs|);
      }
    }
  }

  lemma LosingUpdate(l: seq<Rec>, rec: Rec, n: nat)
    requires Tidy(l) && |l| == n + 3 && rec.index == 4
    requires l[0].index == 1 && l[1].index == 3 && l[2].index == 5
    requires forall j :: 3 <= j < |l| ==> l[j] == EMPTY
    ensures AfterGenericUpdate(l, 1, rec) == [rec] + Empties(n + 2)
  {
    var p, next := Predict(l, 1), NextHigher(l, rec.index, 0);
    assert p == 0 && next == 2;
    UpdateForm(l, 1, rec, p, next);
    var r := Placed(l, 0, rec, 3);
    assert forall k :: 1 <= k < |l| ==> r[k] == EMPTY;
  }

  /** Presets 1, 3 and 5 are read into an array of any size that holds them; then preset 4 is
      said to follow preset 1. Only preset 3 has to go, but 1 and 5 go with it. */
  lemma UpdateThatLosesTwo(n: nat, a: Rec, b: Rec, c: Rec, rec: Rec)
    requires a.index == 1 && b.index == 3 && c.index == 5 && rec.index == 4
    ensures Reads(Empties(n + 3), [a, b, c]) == [a, b, c] + Empties(n)
    ensures AfterGenericUpdate([a, b, c] + Empties(n), 1, rec) == [rec] + Empties(n + 2)
  {
    AscendingReadsFill(n + 3, [a, b, c]);
    AscendingIsTidy([a, b, c], n);
    LosingUpdate([a, b, c] + Empties(n), rec, n);
  }

  /** A deletion takes out the record with its index, if there is one, and closes the gap. */
  lemma DeletionForm(l: seq<Rec>, index: Byte)
    requires Tidy(l)
    ensures Search(l, index) == -1 ==> AfterDeletion(l, index) == l
    ensures Search(l, index) != -1 ==>
              var k := Search(l, index); AfterDeletion(l, index) == l[..k] + l[k + 1..] + [EMPTY]
    ensures Tidy(AfterDeletion(l, index)) && (index != 0 ==> !Contains(AfterDeletion(l, index), index))
  {
    var k := Search(l, index);
    if k != -1 {
      var r := AfterDeletion(l, index);
      assert Empties(1) == [EMPTY];
      assert forall m :: k <= m < |l| - 1 ==> r[m] == l[m + 1];
      forall i, j | 0 <= i < j < |r| && r[j].index != 0
        ensures 0 != r[i].index < r[j].index
      {
        if j >= k {
          assert r[j] == l[j + 1];
          if i >= k { assert r[i] == l[i + 1]; }
        }
      }
    }
  }

  lemma EventKeepsTidy(l: seq<Rec>, e: Event)
    requires Tidy(l) && Sensible(e)
    ensures Tidy(After(l, e))
  {
    match e
    case ReadResponse(rec) =>
      ReadForm(l, rec);
      var p := Predict(l, rec.index);
      if Search(l, rec.index) == -1 && p != -1 { InsertedIsTidy(l, p, rec); }
    case GenericUpdate(prev, rec) => UpdateKeepsTidy(l, prev, rec);
    case RecordDeleted(index) => DeletionForm(l, index);
    case AvailabilityChanged(_, _) =>
  }

  function Run(l: seq<Rec>, events: seq<Event>): seq<Rec>
    decreases |events|
  {
    if events == [] then l else Run(After(l, events[0]), events[1..])
  }

  /** On every run of sensible notifications the array stays strictly ascending with an empty
      tail. */
  lemma {:induction false} RunKeepsTidy(l: seq<Rec>, events: seq<Event>)
    requires Tidy(l) && forall k :: 0 <= k < |events| ==> Sensible(events[k])
    ensures Tidy(Run(l, events))
    decreases |events|
  {
    if events != [] {
      EventKeepsTidy(l, events[0]);
      RunKeepsTidy(After(l, events[0]), events[1..]);
    }
  }

  /** Index 0 is the one read response that breaks the order, unless it changes nothing. */
  lemma ReadKeepsTidyIff(l: seq<Rec>, rec: Rec)
    requires Tidy(l) && |l| >= 2
    ensures Tidy(AfterRead(l, rec)) <==> rec.index >= 1 || (rec == EMPTY && l[0] == EMPTY)
  {
    var r := AfterRead(l, rec);
    if rec.index >= 1 {
      EventKeepsTidy(l, ReadResponse(rec));
    } else if l[0].index == 0 {
      assert r == l[0 := rec] && r[0] == rec;
    } else {
      assert r == [rec] + l[..|l| - 1];
      assert r[1] == l[0] && r[0].index == 0;
    }
  }
}
