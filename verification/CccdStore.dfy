/** The client-configuration store of a connection: two bits for every descriptor, packed into
    32-bit words. Descriptors are found by descriptor handle or by value handle. */
module CccdStore {
  import opened Bytes

  datatype Handles = Handles(value: U16, descriptor: U16)

  datatype Kind = ValueHandle | DescriptorHandle

  function HandleOf(h: Handles, kind: Kind): U16 {
    if kind.ValueHandle? then h.value else h.descriptor
  }

  /** Words for `n` entries of two bits each. */
  function WordCount(n: nat): nat {
    n * 2 / 32 + (if n * 2 % 32 != 0 then 1 else 0)
  }

  function WordIndex(i: nat): nat {
    i * 2 / 32
  }

  function Offset(i: nat): bv32 {
    (i * 2 % 32) as bv32
  }

  /** Every entry lies in a declared word, and the last word is needed. */
  lemma WordsSuffice(n: nat, i: nat)
    requires i < n
    ensures WordIndex(i) < WordCount(n)
    ensures WordCount(n) == WordIndex(n - 1) + 1
    ensures 16 * (WordCount(n) - 1) < n <= 16 * WordCount(n)
  {
  }

  // ---- One word ----

  function Bits(word: bv32, offset: bv32): bv32
    requires offset <= 30
  {
    (word >> offset) & 3
  }

  function WithBits(word: bv32, offset: bv32, value: bv32): bv32
    requires offset <= 30
  {
    (word & !(3 << offset)) | ((value & 3) << offset)
  }

  lemma SameBits(word: bv32, offset: bv32, value: bv32)
    requires offset <= 30
    ensures Bits(WithBits(word, offset, value), offset) == value & 3
  {
  }

  lemma OtherBits(word: bv32, offset: bv32, other: bv32, value: bv32)
    requires offset <= 30 && other <= 30 && offset & 1 == 0 && other & 1 == 0 && offset != other
    ensures Bits(WithBits(word, offset, value), other) == Bits(word, other)
  {
  }

  lemma OffsetIsEven(i: nat)
    ensures Offset(i) <= 30 && Offset(i) & 1 == 0
  {
    match i % 16
    case 0 => assert i * 2 % 32 == 0;
    case 1 => assert i * 2 % 32 == 2;
    case 2 => assert i * 2 % 32 == 4;
    case 3 => assert i * 2 % 32 == 6;
    case 4 => assert i * 2 % 32 == 8;
    case 5 => assert i * 2 % 32 == 10;
    case 6 => assert i * 2 % 32 == 12;
    case 7 => assert i * 2 % 32 == 14;
    case 8 => assert i * 2 % 32 == 16;
    case 9 => assert i * 2 % 32 == 18;
    case 10 => assert i * 2 % 32 == 20;
    case 11 => assert i * 2 % 32 == 22;
    case 12 => assert i * 2 % 32 == 24;
    case 13 => assert i * 2 % 32 == 26;
    case 14 => assert i * 2 % 32 == 28;
    case _ => assert i * 2 % 32 == 30;
  }

  lemma RemaindersDiffer(i: nat, j: nat)
    requires i != j && WordIndex(i) == WordIndex(j)
    ensures i * 2 % 32 != j * 2 % 32
  {
  }

  lemma ConvertsBack(x: nat)
    requires x < 32
    ensures (x as bv32) as int == x
  {
  }

  lemma ConversionIsInjective(x: nat, y: nat)
    requires x < 32 && y < 32 && x != y
    ensures x as bv32 != y as bv32
  {
    ConvertsBack(x);
    ConvertsBack(y);
  }

  lemma OffsetsDiffer(i: nat, j: nat)
    requires i != j && WordIndex(i) == WordIndex(j)
    ensures Offset(i) != Offset(j)
  {
    RemaindersDiffer(i, j);
    ConversionIsInjective(i * 2 % 32, j * 2 % 32);
  }

  // ---- The words as an array of two-bit values ----

  predicate Fits(words: seq<bv32>, n: nat) {
    |words| == WordCount(n)
  }

  function Entry(words: seq<bv32>, i: nat): bv32
    requires WordIndex(i) < |words|
  {
    OffsetIsEven(i);
    Bits(words[WordIndex(i)], Offset(i))
  }

  function WithEntry(words: seq<bv32>, i: nat, value: bv32): (r: seq<bv32>)
    requires WordIndex(i) < |words|
    ensures |r| == |words|
  {
    OffsetIsEven(i);
    words[WordIndex(i) := WithBits(words[WordIndex(i)], Offset(i), value)]
  }

  /** Writing one entry is an update of one element: that entry holds the low two bits, every
      other keeps what it held. */
  lemma EntryAfterWrite(words: seq<bv32>, n: nat, i: nat, j: nat, value: bv32)
    requires Fits(words, n) && i < n && j < n
    ensures WordIndex(i) < |words| && WordIndex(j) < |words|
    ensures Entry(WithEntry(words, i, value), j) == if i == j then value & 3 else Entry(words, j)
  {
    OffsetIsEven(i);
    OffsetIsEven(j);
    if i == j {
      SameBits(words[WordIndex(i)], Offset(i), value);
    } else if WordIndex(i) == WordIndex(j) {
      OffsetsDiffer(i, j);
      OtherBits(words[WordIndex(i)], Offset(i), Offset(j), value);
    }
  }

  // ---- Finding an entry by handle ----

  function IndexFrom(table: seq<Handles>, handle: U16, kind: Kind, k: nat): (r: int)
    requires k <= |table|
    ensures r == -1 || k <= r < |table|
    ensures r == -1 <==> forall j :: k <= j < |table| ==> HandleOf(table[j], kind) != handle
    ensures r != -1 ==> HandleOf(table[r], kind) == handle && forall j :: k <= j < r ==> HandleOf(table[j], kind) != handle
    decreases |table| - k
  {
    if k == |table| then -1 else if HandleOf(table[k], kind) == handle then k else IndexFrom(table, handle, kind, k + 1)
  }

  /** The first descriptor with the handle, or -1. */
  function Index(table: seq<Handles>, handle: U16, kind: Kind): int {
    IndexFrom(table, handle, kind, 0)
  }

  /** The store as its users see it. An unknown handle reads as 0 and is not written. */
  function Setting(table: seq<Handles>, words: seq<bv32>, handle: U16, kind: Kind): bv32
    requires Fits(words, |table|)
  {
    var i := Index(table, handle, kind);
    if i == -1 then 0 else
      WordsSuffice(|table|, i);
      Entry(words, i)
  }

  function AfterSet(table: seq<Handles>, words: seq<bv32>, handle: U16, value: U16): (r: seq<bv32>)
    requires Fits(words, |table|)
    ensures |r| == |words|
  {
    var i := Index(table, handle, DescriptorHandle);
    if i == -1 then words else
      WordsSuffice(|table|, i);
      WithEntry(words, i, value as bv32)
  }

  class Store {
    const table: seq<Handles>
    const words: array<bv32>

    ghost predicate Valid()
      reads words
    {
      Fits(words[..], |table|)
    }

    constructor (table: seq<Handles>)
      ensures this.table == table && fresh(words) && Valid()
      ensures forall handle, kind :: Setting(table, words[..], handle, kind) == 0
    {
      this.table := table;
      words := new bv32[WordCount(|table|)](_ => 0);
      new;
      forall handle, kind
        ensures Setting(table, words[..], handle, kind) == 0
      {
        var i := Index(table, handle, kind);
        if i != -1 {
          WordsSuffice(|table|, i);
          OffsetIsEven(i);
        }
      }
    }

    /** The loop counts the entries down while it steps through the table. */
    method GetIndex(handle: U16, kind: Kind) returns (index: int)
      ensures index == Index(table, handle, kind)
    {
      var left, k := |table|, 0;
      while left > 0
        invariant 0 <= left && k == |table| - left
        invariant Index(table, handle, kind) == IndexFrom(table, handle, kind, k)
      {
        left := left - 1;
        if HandleOf(table[k], kind) == handle {
          return k;
        }
        k := k + 1;
      }
      return -1;
    }

    method Get(handle: U16, kind: Kind) returns (value: bv32)
      requires Valid()
      ensures value == Setting(table, words[..], handle, kind)
    {
      var index := GetIndex(handle, kind);
      if index == -1 {
        return 0;
      }
      WordsSuffice(|table|, index);
      OffsetIsEven(index);
      var offset := (index * 2 % 32) as bv32;
      return (words[index * 2 / 32] >> offset) & 3;
    }

    method Set(handle: U16, value: U16)
      requires Valid()
      modifies words
      ensures Valid() && words[..] == AfterSet(table, old(words[..]), handle, value)
    {
      var index := GetIndex(handle, DescriptorHandle);
      if index == -1 {
        return;
      }
      WordsSuffice(|table|, index);
      OffsetIsEven(index);
      SetBits(index * 2 / 32, (index * 2 % 32) as bv32, value as bv32);
    }

    method SetBits(w: nat, offset: bv32, value: bv32)
      requires w < words.Length && offset <= 30
      modifies words
      ensures words[..] == old(words[..])[w := WithBits(old(words[w]), offset, value)]
    {
      words[w] := words[w] & !(3 << offset);
      words[w] := words[w] | ((value & 3) << offset);
    }
  }

  /** Handles identify descriptors: no two share a descriptor handle or a value handle. */
  predicate Distinct(table: seq<Handles>) {
    forall j, k :: 0 <= j < k < |table| ==>
      table[j].descriptor != table[k].descriptor && table[j].value != table[k].value
  }

  /** What a write by descriptor handle does to every later read, by either handle: the entry
      written reads as the low two bits, every other reads as before. */
  lemma ReadAfterSet(table: seq<Handles>, words: seq<bv32>, handle: U16, value: U16, read: U16, kind: Kind)
    requires Fits(words, |table|)
    ensures var (i, j) := (Index(table, handle, DescriptorHandle), Index(table, read, kind));
            Setting(table, AfterSet(table, words, handle, value), read, kind) ==
              if i != -1 && i == j then value as bv32 & 3 else Setting(table, words, read, kind)
  {
    var i, j := Index(table, handle, DescriptorHandle), Index(table, read, kind);
    if i != -1 && j != -1 {
      EntryAfterWrite(words, |table|, i, j, value as bv32);
    }
  }

  /** Set by descriptor handle, then get by the value handle of the same characteristic. */
  lemma SetThenGetByValueHandle(table: seq<Handles>, words: seq<bv32>, k: nat, value: U16)
    requires Fits(words, |table|) && Distinct(table) && k < |table|
    ensures Setting(table, AfterSet(table, words, table[k].descriptor, value), table[k].value, ValueHandle)
            == value as bv32 & 3
  {
    assert HandleOf(table[k], DescriptorHandle) == table[k].descriptor;
    assert HandleOf(table[k], ValueHandle) == table[k].value;
    assert Index(table, table[k].descriptor, DescriptorHandle) == k;
    assert Index(table, table[k].value, ValueHandle) == k;
    ReadAfterSet(table, words, table[k].descriptor, value, table[k].value, ValueHandle);
  }
}
