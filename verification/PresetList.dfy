/** The hearing-aid preset array: a fixed number of slots, kept sorted by shifting, clearing
    and overwriting records in place. */
module PresetList {
  import opened Bytes

  datatype Rec = Rec(index: Byte, properties: Byte, name: seq<Byte>)

  const EMPTY := Rec(0, 0, [])

  /** Strictly ascending indices from the front, and nothing at all behind them. */
  predicate Tidy(l: seq<Rec>) {
    && (forall j, k :: 0 <= j < k < |l| && l[k].index != 0 ==> 0 != l[j].index < l[k].index)
    && (forall k :: 0 <= k < |l| && l[k].index == 0 ==> l[k] == EMPTY)
  }

  function Empties(n: nat): (r: seq<Rec>)
    ensures |r| == n && forall k :: 0 <= k < n ==> r[k] == EMPTY
  {
    seq(n, _ => EMPTY)
  }

  // ---- The operations, on the contents of the array ----

  function SearchFrom(l: seq<Rec>, index: Byte, k: nat): (r: int)
    requires k <= |l|
    ensures r == -1 || k <= r < |l|
    ensures r == -1 ==> index == 0 || forall j :: k <= j < |l| ==> l[j].index != index
    ensures r != -1 ==> index != 0 && l[r].index == index && forall j :: k <= j < r ==> l[j].index != index
    decreases |l| - k
  {
    if k == |l| then -1 else if index != 0 && l[k].index == index then k else SearchFrom(l, index, k + 1)
  }

  /** Where `index` is, or -1. Nothing has index 0. */
  function Search(l: seq<Rec>, index: Byte): int {
    SearchFrom(l, index, 0)
  }

  function PredictFrom(l: seq<Rec>, index: Byte, k: nat): (r: int)
    requires k <= |l|
    ensures r == -1 || k <= r < |l|
    ensures forall j :: k <= j < (if r == -1 then |l| else r) ==> 0 != l[j].index < index
    ensures r != -1 ==> l[r].index >= index || l[r].index == 0
    decreases |l| - k
  {
    if k == |l| then -1 else if l[k].index >= index || l[k].index == 0 then k else PredictFrom(l, index, k + 1)
  }

  /** The first slot that is free or does not hold a smaller index, or -1. */
  function Predict(l: seq<Rec>, index: Byte): int {
    PredictFrom(l, index, 0)
  }

  function Deleted(l: seq<Rec>, first: int, last: int): (r: seq<Rec>)
    ensures |r| == |l|
  {
    if first < 0 || last >= |l| || first > last then l
    else l[..first] + l[last + 1..] + Empties(last - first + 1)
  }

  /** The first slot from `k` on that does not hold a smaller index, or the length. */
  function NextHigher(l: seq<Rec>, index: Byte, k: nat): (r: nat)
    requires k <= |l|
    ensures k <= r <= |l|
    ensures forall j :: k <= j < r ==> l[j].index < index
    ensures r < |l| ==> l[r].index >= index
    decreases |l| - k
  {
    if k == |l| || l[k].index >= index then k else NextHigher(l, index, k + 1)
  }

  /** The array ready for a record at `pos`: smaller records from there up to `next` are taken
      out, or all that follow when nothing higher does, or else everything moves down. */
  function RoomMade(l: seq<Rec>, pos: nat, next: nat): (r: seq<Rec>)
    requires pos < |l| && pos <= next <= |l|
    ensures |r| == |l|
  {
    if next == |l| then l[..pos + 1] + Empties(|l| - pos - 1)
    else if next > pos then Deleted(l, pos, next - 1)
    else l[..pos + 1] + l[pos..|l| - 1]
  }

  function Added(l: seq<Rec>, pos: int, rec: Rec): (r: seq<Rec>)
    ensures |r| == |l|
  {
    if pos < 0 || pos >= |l| then l
    else if rec.index == l[pos].index || pos == |l| - 1 then l[pos := rec]
    else
      RoomMade(l, pos, NextHigher(l, rec.index, pos))[pos := rec]
  }

  function AfterRead(l: seq<Rec>, rec: Rec): (r: seq<Rec>)
    ensures |r| == |l|
  {
    var pos := Search(l, rec.index);
    Added(l, if pos == -1 then Predict(l, rec.index) else pos, rec)
  }

  function AfterGenericUpdate(l: seq<Rec>, prev: Byte, rec: Rec): (r: seq<Rec>)
    ensures |r| == |l|
  {
    Added(l, Predict(l, prev), rec)
  }

  function AfterDeletion(l: seq<Rec>, index: Byte): (r: seq<Rec>)
    ensures |r| == |l|
  {
    Deleted(l, Search(l, index), Search(l, index))
  }

  /** Bit 1 of the properties. */
  function WithAvailability(properties: Byte, available: bool): (r: Byte)
    ensures r % 2 == properties % 2 && r / 4 == properties / 4
    ensures r / 2 % 2 == if available then 1 else 0
  {
    properties / 4 * 4 + (if available then 2 else 0) + properties % 2
  }

  function AfterAvailability(l: seq<Rec>, index: Byte, available: bool): (r: seq<Rec>)
    ensures |r| == |l|
  {
    var k := Search(l, index);
    if k == -1 then l else l[k := l[k].(properties := WithAvailability(l[k].properties, available))]
  }

  /** An availability message sets bit 1 of the first record with the index to what it says, and
      changes nothing else; the last message decides. */
  lemma AvailabilityIsExact(l: seq<Rec>, index: Byte, available: bool, before: bool, k: nat)
    requires k < |l|
    ensures var r := AfterAvailability(l, index, available);
            if k == Search(l, index) then
              && (r[k].properties / 2 % 2 == 1 <==> available)
              && r[k].properties % 2 == l[k].properties % 2 && r[k].properties / 4 == l[k].properties / 4
              && r[k].index == l[k].index == index && r[k].name == l[k].name
            else r[k] == l[k]
    ensures AfterAvailability(AfterAvailability(l, index, before), index, available) == AfterAvailability(l, index, available)
  {
    SameIndicesSameSearch(l, AfterAvailability(l, index, before), index, 0);
    var p := l[k].properties;
    assert WithAvailability(WithAvailability(p, before), available) == WithAvailability(p, available);
  }

  lemma {:induction false} SameIndicesSameSearch(l: seq<Rec>, r: seq<Rec>, index: Byte, k: nat)
    requires |l| == |r| && k <= |l| && forall j :: 0 <= j < |l| ==> l[j].index == r[j].index
    ensures SearchFrom(l, index, k) == SearchFrom(r, index, k)
    decreases |l| - k
  {
    if k < |l| {
      SameIndicesSameSearch(l, r, index, k + 1);
    }
  }

  // ---- The same, in place ----

  class Presets {
    const list: array<Rec>

    constructor (capacity: nat)
      ensures fresh(list) && list.Length == capacity
      ensures list[..] == Empties(capacity) && Tidy(list[..])
    {
      list := new Rec[capacity](_ => EMPTY);
    }

    method SearchIndex(index: Byte) returns (r: int)
      ensures r == Search(list[..], index)
    {
      var k := 0;
      while k < list.Length
        invariant 0 <= k <= list.Length
        invariant Search(list[..], index) == SearchFrom(list[..], index, k)
      {
        if index != 0 && list[k].index == index {
          return k;
        }
        k := k + 1;
      }
      return -1;
    }

    method PredictPosition(index: Byte) returns (r: int)
      ensures r == Predict(list[..], index)
    {
      var k := 0;
      while k < list.Length
        invariant 0 <= k <= list.Length
        invariant Predict(list[..], index) == PredictFrom(list[..], index, k)
      {
        if list[k].index >= index || list[k].index == 0 {
          return k;
        }
        k := k + 1;
      }
      return -1;
    }

    /** Empties the slots from `k` on. */
    method Clear(k: nat)
      requires k <= list.Length
      modifies list
      ensures list[..] == old(list[..])[..k] + Empties(list.Length - k)
    {
      var j := k;
      while j < list.Length
        invariant k <= j <= list.Length
        invariant forall i :: 0 <= i < k ==> list[i] == old(list[i])
        invariant forall i :: k <= i < j ==> list[i] == EMPTY
      {
        list[j] := EMPTY;
        j := j + 1;
      }
    }

    method Delete(first: int, last: int)
      modifies list
      ensures list[..] == Deleted(old(list[..]), first, last)
    {
      if first < 0 || last >= list.Length || first > last {
        return;
      }
      ghost var l := list[..];
      var count := last - first + 1;
      var j := first;
      while j + count < list.Length
        invariant first <= j && (j + count <= list.Length)
        invariant forall i :: 0 <= i < first ==> list[i] == l[i]
        invariant forall i :: first <= i < j ==> list[i] == l[i + count]
        invariant forall i :: j <= i < list.Length ==> list[i] == l[i]
      {
        list[j] := list[j + count];
        j := j + 1;
      }
      assert list[..j] == l[..first] + l[last + 1..];
      Clear(list.Length - count);
    }

    /** Moves the records from `k` on one slot back; the last one is lost. */
    method ShiftDown(k: nat)
      requires k < list.Length
      modifies list
      ensures list[..] == old(list[..])[..k + 1] + old(list[..])[k..list.Length - 1]
    {
      var j := list.Length - 1;
      while j > k
        invariant k <= j < list.Length
        invariant forall i :: 0 <= i <= j ==> list[i] == old(list[i])
        invariant forall i :: j < i < list.Length ==> list[i] == old(list[i - 1])
      {
        list[j] := list[j - 1];
        j := j - 1;
      }
    }

    method MakeRoom(pos: nat, next: nat)
      requires pos < list.Length && pos <= next <= list.Length
      modifies list
      ensures list[..] == RoomMade(old(list[..]), pos, next)
    {
      if next == list.Length {
        Clear(pos + 1);
      } else if next > pos {
        Delete(pos, next - 1);
      } else {
        ShiftDown(pos);
      }
    }

    method Add(pos: int, rec: Rec)
      modifies list
      ensures list[..] == Added(old(list[..]), pos, rec)
    {
      if pos < 0 || pos >= list.Length {
        return;
      }
      if rec.index == list[pos].index || pos == list.Length - 1 {
        list[pos] := rec;
        return;
      }
      var next: nat := pos;
      while next < list.Length && rec.index > list[next].index
        invariant pos <= next <= list.Length
        invariant NextHigher(list[..], rec.index, pos) == NextHigher(list[..], rec.index, next)
      {
        next := next + 1;
      }
      MakeRoom(pos, next);
      list[pos] := rec;
    }

    method HandleReadResponse(rec: Rec)
      modifies list
      ensures list[..] == AfterRead(old(list[..]), rec)
    {
      var pos := SearchIndex(rec.index);
      if pos == -1 {
        pos := PredictPosition(rec.index);
      }
      Add(pos, rec);
    }

    method HandleGenericUpdate(prev: Byte, rec: Rec)
      modifies list
      ensures list[..] == AfterGenericUpdate(old(list[..]), prev, rec)
    {
      var pos := PredictPosition(prev);
      Add(pos, rec);
    }

    method HandleDeletion(index: Byte)
      modifies list
      ensures list[..] == AfterDeletion(old(list[..]), index)
    {
      var pos := SearchIndex(index);
      Delete(pos, pos);
    }

    method HandleAvailability(index: Byte, available: bool)
      modifies list
      ensures list[..] == AfterAvailability(old(list[..]), index, available)
    {
      var k := SearchIndex(index);
      if k != -1 {
        list[k] := list[k].(properties := WithAvailability(list[k].properties, available));
      }
    }
  }
}
