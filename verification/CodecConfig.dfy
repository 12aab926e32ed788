/** Codec-specific configuration: a list of length-type-value fields, written by one function
    and read by two independent parsers. */
module CodecConfig {
  import opened Bytes

  datatype Csc = Csc(frequency: U32, duration: U32, allocation: U32, octets: U16, blocks: Byte)

  const NO_CSC := Csc(0, 0, 0, 0, 0)

  // ---- Sampling frequencies and frame durations ----

  const FREQUENCIES: seq<U32> :=
    [8000, 11025, 16000, 22050, 24000, 32000, 44100, 48000, 88200, 96000, 176400, 192000, 384000]

  /** One more than the place of `hz` in the table, or 0. */
  function FrequencyIndex(hz: U32): Byte {
    IndexFrom(hz, 0)
  }

  function IndexFrom(hz: U32, i: nat): (r: Byte)
    requires i <= |FREQUENCIES|
    decreases |FREQUENCIES| - i, hz
  {
    if i == |FREQUENCIES| then 0 else if FREQUENCIES[i] == hz then i + 1 else IndexFrom(hz, i + 1)
  }

  lemma {:induction false} IndexFinds(hz: U32, i: nat)
    requires i <= |FREQUENCIES|
    ensures IndexFrom(hz, i) == 0 ==> forall j :: i <= j < |FREQUENCIES| ==> FREQUENCIES[j] != hz
    ensures IndexFrom(hz, i) != 0 ==>
              i < IndexFrom(hz, i) <= |FREQUENCIES| && FREQUENCIES[IndexFrom(hz, i) - 1] == hz
    decreases |FREQUENCIES| - i
  {
    if i < |FREQUENCIES| && FREQUENCIES[i] != hz {
      IndexFinds(hz, i + 1);
    }
  }

  /** The index stands for the frequency exactly when the frequency is tabulated. */
  lemma FrequencyIndexIsInverse(hz: U32)
    ensures FrequencyAt(FrequencyIndex(hz)) == if hz in FREQUENCIES then hz else 0
  {
    IndexFinds(hz, 0);
  }

  method GetSamplingFreqIndex(hz: U32) returns (index: Byte)
    ensures index == FrequencyIndex(hz)
  {
    var i := 0;
    while i < |FREQUENCIES|
      invariant 0 <= i <= |FREQUENCIES|
      invariant FrequencyIndex(hz) == IndexFrom(hz, i)
    {
      if FREQUENCIES[i] == hz {
        return i + 1;
      }
      i := i + 1;
    }
    return 0;
  }

  function FrequencyAt(index: Byte): U32 {
    if 1 <= index <= |FREQUENCIES| then FREQUENCIES[index - 1] else 0
  }

  function DurationIndex(us: U32): Byte {
    if us == 10000 then 1 else if us == 7500 then 0 else 0xFF
  }

  function DurationAt(index: Byte): U32 {
    if index == 0 then 7500 else if index == 1 then 10000 else 0
  }

  // ---- Fields ----

  datatype Field =
    | Frequency(index: Byte)
    | Duration(index: Byte)
    | Allocation(locations: U32)
    | Octets(octets: U16)
    | Blocks(blocks: Byte)

  function TypeOf(f: Field): (t: Byte)
    ensures 1 <= t <= 5
  {
    match f
    case Frequency(_) => 1
    case Duration(_) => 2
    case Allocation(_) => 3
    case Octets(_) => 4
    case Blocks(_) => 5
  }

  function SizeOf(fieldType: Byte): (n: nat)
    ensures 1 <= n <= 4
  {
    if fieldType == 3 then 4 else if fieldType == 4 then 2 else 1
  }

  function Number(f: Field): nat {
    match f
    case Frequency(i) => i
    case Duration(i) => i
    case Allocation(v) => v
    case Octets(v) => v
    case Blocks(v) => v
  }

  /** The field that `number` encodes under a known type. */
  function FieldOf(fieldType: Byte, number: nat): Field
    requires 1 <= fieldType <= 5
    requires SizeOf(fieldType) == 1 ==> number < 0x100
    requires SizeOf(fieldType) == 2 ==> number < 0x1_0000
    requires SizeOf(fieldType) == 4 ==> number < 0x1_0000_0000
  {
    match fieldType
    case 1 => Frequency(number)
    case 2 => Duration(number)
    case 3 => Allocation(number)
    case 4 => Octets(number)
    case _ => Blocks(number)
  }

  function Ltv(fieldType: Byte, value: seq<Byte>): (r: seq<Byte>)
    requires |value| < 0xFF
    ensures |r| == 2 + |value|
  {
    [|value| + 1, fieldType] + value
  }

  function Encode(f: Field): (r: seq<Byte>)
    ensures |r| == 2 + SizeOf(TypeOf(f))
  {
    Ltv(TypeOf(f), Le(Number(f), SizeOf(TypeOf(f))))
  }

  function EncodeAll(fs: seq<Field>): seq<Byte> {
    if fs == [] then [] else Encode(fs[0]) + EncodeAll(fs[1..])
  }

  /** A frequency or duration index that stands for a value. */
  predicate Legal(f: Field) {
    match f
    case Frequency(i) => FrequencyAt(i) != 0
    case Duration(i) => DurationAt(i) != 0
    case _ => true
  }

  function Applied(f: Field, d: Csc): Csc {
    match f
    case Frequency(i) => d.(frequency := FrequencyAt(i))
    case Duration(i) => d.(duration := DurationAt(i))
    case Allocation(v) => d.(allocation := v)
    case Octets(v) => d.(octets := v)
    case Blocks(v) => d.(blocks := v)
  }

  function ApplyAll(fs: seq<Field>, d: Csc): Csc
    decreases |fs|
  {
    if fs == [] then d else ApplyAll(fs[1..], Applied(fs[0], d))
  }

  predicate AllLegal(fs: seq<Field>) {
    forall k :: 0 <= k < |fs| ==> Legal(fs[k])
  }

  // ---- The writer ----

  // The five members of a configuration are tried in the order of their types, 1 to 5.

  function Member(c: Csc, i: nat): nat
    requires 1 <= i <= 5
  {
    match i
    case 1 => c.frequency
    case 2 => c.duration
    case 3 => c.allocation
    case 4 => c.octets
    case _ => c.blocks
  }

  function Candidate(c: Csc, i: nat): (f: Field)
    requires 1 <= i <= 5
    ensures TypeOf(f) == i
  {
    match i
    case 1 => Frequency(FrequencyIndex(c.frequency))
    case 2 => Duration(DurationIndex(c.duration))
    case 3 => Allocation(c.allocation)
    case 4 => Octets(c.octets)
    case _ => Blocks(c.blocks)
  }

  /** A member that is set is written if it still fits behind `used` bytes. */
  predicate Fits(c: Csc, i: nat, used: nat, maxLen: int)
    requires 1 <= i <= 5
  {
    Member(c, i) != 0 && used + 2 + SizeOf(i) <= maxLen
  }

  function Kept(c: Csc, i: nat, used: nat, maxLen: int): seq<Field>
    requires 1 <= i <= 6
    decreases 6 - i, c
  {
    if i == 6 then []
    else if Fits(c, i, used, maxLen) then [Candidate(c, i)] + Kept(c, i + 1, used + 2 + SizeOf(i), maxLen)
    else Kept(c, i + 1, used, maxLen)
  }

  /** The bytes of the members from `i` on. */
  function FieldBytes(c: Csc, i: nat, used: nat, maxLen: int): (r: seq<Byte>)
    requires 1 <= i <= 6
    ensures used <= maxLen ==> used + |r| <= maxLen
    ensures |r| <= 6 * (6 - i)
    decreases 6 - i, c
  {
    if i == 6 then []
    else if Fits(c, i, used, maxLen) then Encode(Candidate(c, i)) + FieldBytes(c, i + 1, used + 2 + SizeOf(i), maxLen)
    else FieldBytes(c, i + 1, used, maxLen)
  }

  lemma {:induction false} KeptIsEncoded(c: Csc, i: nat, used: nat, maxLen: int)
    requires 1 <= i <= 6
    ensures EncodeAll(Kept(c, i, used, maxLen)) == FieldBytes(c, i, used, maxLen)
    decreases 6 - i
  {
    if i < 6 {
      if Fits(c, i, used, maxLen) {
        KeptIsEncoded(c, i + 1, used + 2 + SizeOf(i), maxLen);
        assert Kept(c, i, used, maxLen)[1..] == Kept(c, i + 1, used + 2 + SizeOf(i), maxLen);
      } else {
        KeptIsEncoded(c, i + 1, used, maxLen);
      }
    }
  }

  /** `b` behind a byte that holds its length. */
  function Counted(b: seq<Byte>): (r: seq<Byte>)
    requires |b| < 0x100
    ensures |r| == 1 + |b| && r[0] == |b|
  {
    [|b|] + b
  }

  /** The length byte and the members that fit. */
  function Filled(maxLen: int, c: Csc): (r: seq<Byte>)
    ensures 1 <= |r| <= 31 && r[0] == |r| - 1
    ensures 1 <= maxLen ==> |r| <= maxLen
  {
    Counted(FieldBytes(c, 1, 1, maxLen))
  }

  /** Appends one field at `k` if `room` allows, and says how many bytes it wrote. */
  method UpdateLtv(dst: array<Byte>, k: nat, room: int, fieldType: Byte, value: seq<Byte>) returns (n: nat)
    requires |value| < 0xFF && (room >= 2 + |value| ==> k + 2 + |value| <= dst.Length)
    modifies dst
    ensures room < 2 + |value| ==> n == 0 && dst[..] == old(dst[..])
    ensures room >= 2 + |value| ==> n == 2 + |value| && dst[..] == Splice(old(dst[..]), k, Ltv(fieldType, value))
  {
    if room < 2 + |value| {
      return 0;
    }
    PutAll(dst, k, [|value| + 1, fieldType]);
    PutAll(dst, k + 2, value);
    SpliceTwice(old(dst[..]), k, [|value| + 1, fieldType], value);
    return 2 + |value|;
  }

  /** The buffer from `at` on holds a byte for the length and then `b`. */
  predicate Holds(now: seq<Byte>, start: seq<Byte>, at: nat, b: seq<Byte>) {
    at + 1 + |b| <= |start| && now == Splice(start, at, [start[at]] + b)
  }

  lemma HoldsMore(before: seq<Byte>, now: seq<Byte>, start: seq<Byte>, at: nat, b: seq<Byte>, e: seq<Byte>)
    requires Holds(before, start, at, b) && at + 1 + |b| + |e| <= |start|
    requires now == Splice(before, at + 1 + |b|, e)
    ensures Holds(now, start, at, b + e)
  {
    SpliceTwice(start, at, [start[at]] + b, e);
    Regroup([start[at]], b, e);
  }

  /** `b` are the members before `i` that were written, out of `all` that will be. */
  ghost predicate Underway(c: Csc, i: nat, b: seq<Byte>, all: seq<Byte>, maxLen: int)
    requires 1 <= i <= 6
  {
    b + FieldBytes(c, i, 1 + |b|, maxLen) == all
  }

  lemma Regroup(a: seq<Byte>, b: seq<Byte>, c: seq<Byte>)
    ensures a + (b + c) == (a + b) + c
  {
  }

  lemma NextMember(c: Csc, i: nat, b: seq<Byte>, all: seq<Byte>, maxLen: int)
    requires 1 <= i <= 5 && Underway(c, i, b, all, maxLen)
    ensures Fits(c, i, 1 + |b|, maxLen) ==> Underway(c, i + 1, b + Encode(Candidate(c, i)), all, maxLen)
    ensures !Fits(c, i, 1 + |b|, maxLen) ==> Underway(c, i + 1, b, all, maxLen)
  {
    if Fits(c, i, 1 + |b|, maxLen) {
      Regroup(b, Encode(Candidate(c, i)), FieldBytes(c, i + 1, 1 + |b| + 2 + SizeOf(i), maxLen));
    }
  }

  method PutField(dst: array<Byte>, k: nat, room: int, f: Field) returns (n: nat)
    requires room >= 2 + SizeOf(TypeOf(f)) ==> k + 2 + SizeOf(TypeOf(f)) <= dst.Length
    modifies dst
    ensures room < 2 + SizeOf(TypeOf(f)) ==> n == 0 && dst[..] == old(dst[..])
    ensures room >= 2 + SizeOf(TypeOf(f)) ==> n == 2 + SizeOf(TypeOf(f)) && dst[..] == Splice(old(dst[..]), k, Encode(f))
  {
    n := UpdateLtv(dst, k, room, TypeOf(f), Le(Number(f), SizeOf(TypeOf(f))));
  }

  /** One conditional append of `FillCsc`: member `i` of `c`, encoded as `f`, goes to `k`, behind
      the members `b`. */
  method AppendIf(dst: array<Byte>, at: nat, k: nat, maxLen: int, wanted: bool, f: Field,
                  ghost start: seq<Byte>, ghost b: seq<Byte>, ghost c: Csc, ghost i: nat, ghost all: seq<Byte>)
    returns (next: nat, ghost r: seq<Byte>)
    requires 1 <= i <= 5 && wanted == (Member(c, i) != 0) && f == Candidate(c, i)
    requires at + 1 + |all| <= dst.Length == |start| && k == at + 1 + |b|
    requires Holds(dst[..], start, at, b) && Underway(c, i, b, all, maxLen)
    modifies dst
    ensures next == at + 1 + |r|
    ensures Holds(dst[..], start, at, r) && Underway(c, i + 1, r, all, maxLen)
  {
    next, r := k, b;
    NextMember(c, i, b, all, maxLen);
    if wanted {
      var n := PutField(dst, k, maxLen - (k - at), f);
      if n != 0 {
        ghost var e := Encode(f);
        HoldsMore(old(dst[..]), dst[..], start, at, b, e);
        next, r := k + n, b + e;
      }
    }
  }

  lemma LengthLast(now: seq<Byte>, start: seq<Byte>, at: nat, b: seq<Byte>)
    requires Holds(now, start, at, b) && |b| < 0x100
    ensures now[at := |b|] == Splice(start, at, Counted(b))
  {
  }

  /** Frequency and duration. */
  method FillTiming(dst: array<Byte>, at: nat, k0: nat, maxLen: int, c: Csc,
                    ghost start: seq<Byte>, ghost b0: seq<Byte>, ghost all: seq<Byte>)
    returns (k: nat, ghost b: seq<Byte>)
    requires at + 1 + |all| <= dst.Length == |start| && k0 == at + 1 + |b0|
    requires Holds(dst[..], start, at, b0) && Underway(c, 1, b0, all, maxLen)
    modifies dst
    ensures k == at + 1 + |b| && Holds(dst[..], start, at, b) && Underway(c, 3, b, all, maxLen)
  {
    var index := GetSamplingFreqIndex(c.frequency);
    k, b := AppendIf(dst, at, k0, maxLen, c.frequency != 0, Frequency(index), start, b0, c, 1, all);
    k, b := AppendIf(dst, at, k, maxLen, c.duration != 0, Duration(DurationIndex(c.duration)), start, b, c, 2, all);
  }

  /** Channel allocation, octets per frame and blocks per SDU. */
  method FillFrames(dst: array<Byte>, at: nat, k0: nat, maxLen: int, c: Csc,
                    ghost start: seq<Byte>, ghost b0: seq<Byte>, ghost all: seq<Byte>)
    returns (k: nat, ghost b: seq<Byte>)
    requires at + 1 + |all| <= dst.Length == |start| && k0 == at + 1 + |b0|
    requires Holds(dst[..], start, at, b0) && Underway(c, 3, b0, all, maxLen)
    modifies dst
    ensures k == at + 1 + |b| && Holds(dst[..], start, at, b) && Underway(c, 6, b, all, maxLen)
  {
    k, b := AppendIf(dst, at, k0, maxLen, c.allocation != 0, Allocation(c.allocation), start, b0, c, 3, all);
    k, b := AppendIf(dst, at, k, maxLen, c.octets != 0, Octets(c.octets), start, b, c, 4, all);
    k, b := AppendIf(dst, at, k, maxLen, c.blocks != 0, Blocks(c.blocks), start, b, c, 5, all);
  }

  lemma NothingWritten(c: Csc, s: seq<Byte>, at: nat, maxLen: int)
    requires at < |s|
    ensures Holds(s, s, at, []) && Underway(c, 1, [], FieldBytes(c, 1, 1, maxLen), maxLen)
  {
    assert [s[at]] + [] == [s[at]];
  }

  lemma AllWritten(c: Csc, b: seq<Byte>, all: seq<Byte>, maxLen: int)
    requires Underway(c, 6, b, all, maxLen)
    ensures b == all
  {
  }

  /** The members one after the other, and the length byte last. */
  method FillCsc(dst: array<Byte>, at: nat, maxLen: int, c: Csc) returns (n: nat)
    requires at + |Filled(maxLen, c)| <= dst.Length
    modifies dst
    ensures n == |Filled(maxLen, c)|
    ensures dst[..] == Splice(old(dst[..]), at, Filled(maxLen, c))
  {
    ghost var all := FieldBytes(c, 1, 1, maxLen);
    NothingWritten(c, dst[..], at, maxLen);
    var k, b := FillTiming(dst, at, at + 1, maxLen, c, dst[..], [], all);
    k, b := FillFrames(dst, at, k, maxLen, c, old(dst[..]), b, all);
    AllWritten(c, b, all, maxLen);
    n := k - at;
    LengthLast(dst[..], old(dst[..]), at, b);
    dst[at] := n - 1;
  }

  // ---- The two parsers ----

  /** `Overread` stands for reading past the end of the received bytes. */
  datatype Status = Success | Error | Overread

  /** Reads fields from `k` on; the length bytes say when to stop, the types how far to move. */
  function Parsed(s: seq<Byte>, k: nat, left: int, d: Csc): (Csc, Status)
    decreases if left <= 0 then 0 else left
  {
    if left <= 0 then (d, if left == 0 then Success else Error)
    else if k + 2 > |s| then (d, Overread)
    else if !(1 <= s[k + 1] <= 5) then (d, Error)
    else if k + 2 + SizeOf(s[k + 1]) > |s| then (d, Overread)
    else
      var f := FieldOf(s[k + 1], Read(s, k + 2, SizeOf(s[k + 1])));
      if !Legal(f) then (Applied(f, d), Error)
      else Parsed(s, k + 2 + SizeOf(s[k + 1]), left - (s[k] as int + 1), Applied(f, d))
  }

  method ParseCsc(data: array<Byte>, at: nat, dataLen: int, d: Csc) returns (c: Csc, status: Status)
    ensures (c, status) == Parsed(data[..], at, dataLen, d)
  {
    c, status := d, Success;
    var k: nat, left: int := at, dataLen;
    while left > 0
      invariant Parsed(data[..], k, left, c) == Parsed(data[..], at, dataLen, d)
      decreases left
    {
      if k + 2 > data.Length {
        return c, Overread;
      }
      var length, fieldType := data[k], data[k + 1];
      if !(1 <= fieldType <= 5) {
        return c, Error;
      }
      var size := SizeOf(fieldType);
      if k + 2 + size > data.Length {
        return c, Overread;
      }
      var f := FieldOf(fieldType, Read(data[..], k + 2, size));
      c := Applied(f, c);
      if !Legal(f) {
        return c, Error;
      }
      k := k + 2 + size;
      left := left - (length as int + 1);
    }
    status := if left != 0 then Error else Success;
  }

  /** The answers of the control-point parser. `PastEnd` stands for reading past the end. */
  datatype Answer = Accepted | InvalidLength | InvalidValue | PastEnd

  /** The eight-bit count of bytes left behind a field: a field that claims all of them, its
      length byte not counted, takes it below zero. */
  function LeftAfter(left: Byte, length: Byte): Byte
    requires length <= left
  {
    if length == left then 0xFF else left - length - 1
  }

  /** The control-point parser: the length byte must match the type, an unknown frequency or
      duration is not an error, and the eight-bit count of bytes left wraps around. */
  function ParsedStrictly(s: seq<Byte>, k: nat, left: Byte, d: Csc): (Csc, Answer, nat)
    decreases |s| - k
  {
    if left == 0 then (d, Accepted, k)
    else if k + 2 > |s| then (d, PastEnd, k)
    else if s[k] > left then (d, InvalidLength, k + 2)
    else if !(1 <= s[k + 1] <= 5) || s[k] != SizeOf(s[k + 1]) + 1 then (d, InvalidValue, k + 2)
    else if k + 2 + SizeOf(s[k + 1]) > |s| then (d, PastEnd, k + 2)
    else
      var f := FieldOf(s[k + 1], Read(s, k + 2, SizeOf(s[k + 1])));
      ParsedStrictly(s, k + s[k] + 1, LeftAfter(left, s[k]), Applied(f, d))
  }

  method ParseStrictly(data: array<Byte>, at: nat, count: Byte, d: Csc) returns (c: Csc, answer: Answer, k: nat)
    requires at <= data.Length
    ensures (c, answer, k) == ParsedStrictly(data[..], at, count, d)
  {
    c, answer, k := d, Accepted, at;
    var left: Byte := count;
    while left != 0
      invariant at <= k <= data.Length
      invariant ParsedStrictly(data[..], k, left, c) == ParsedStrictly(data[..], at, count, d)
      decreases data.Length - k
    {
      if k + 2 > data.Length {
        return c, PastEnd, k;
      }
      var length, fieldType := data[k], data[k + 1];
      if length > left {
        return c, InvalidLength, k + 2;
      }
      if !(1 <= fieldType <= 5) || length != SizeOf(fieldType) + 1 {
        return c, InvalidValue, k + 2;
      }
      if k + 2 + SizeOf(fieldType) > data.Length {
        return c, PastEnd, k + 2;
      }
      c := Applied(FieldOf(fieldType, Read(data[..], k + 2, SizeOf(fieldType))), c);
      left := LeftAfter(left, length);
      k := k + length + 1;
    }
  }

  // ---- Reading what was written ----

  lemma FieldAt(s: seq<Byte>, k: nat, f: Field)
    requires At(s, k, Encode(f))
    ensures k + 2 + SizeOf(TypeOf(f)) <= |s|
    ensures s[k] == SizeOf(TypeOf(f)) + 1 && s[k + 1] == TypeOf(f)
    ensures Read(s, k + 2, SizeOf(TypeOf(f))) == Number(f)
    ensures FieldOf(TypeOf(f), Number(f)) == f
  {
    var n := SizeOf(TypeOf(f));
    AtSplit(s, k, [n + 1, TypeOf(f)], Le(Number(f), n));
    ByteAt(s, k, [n + 1, TypeOf(f)], 0);
    ByteAt(s, k, [n + 1, TypeOf(f)], 1);
    Capacities();
    ReadBack(s, k + 2, Number(f), n);
  }

  /** Any list of fields, in any order and with repetitions: the first parser applies them all,
      exactly when every index in them is known. */
  lemma {:induction false} FieldsAreParsed(s: seq<Byte>, k: nat, fs: seq<Field>, d: Csc)
    requires At(s, k, EncodeAll(fs))
    ensures AllLegal(fs) ==> Parsed(s, k, |EncodeAll(fs)|, d) == (ApplyAll(fs, d), Success)
    ensures !AllLegal(fs) ==> Parsed(s, k, |EncodeAll(fs)|, d).1 == Error
    decreases |fs|
  {
    if fs != [] {
      AtSplit(s, k, Encode(fs[0]), EncodeAll(fs[1..]));
      FieldAt(s, k, fs[0]);
      FieldsAreParsed(s, k + |Encode(fs[0])|, fs[1..], Applied(fs[0], d));
      assert AllLegal(fs) <==> Legal(fs[0]) && AllLegal(fs[1..]);
    }
  }

  /** The second parser applies them all whatever they hold, and stops right behind them. */
  lemma {:induction false} FieldsAreParsedStrictly(s: seq<Byte>, k: nat, fs: seq<Field>, d: Csc)
    requires At(s, k, EncodeAll(fs)) && |EncodeAll(fs)| < 0x100
    ensures ParsedStrictly(s, k, |EncodeAll(fs)|, d) == (ApplyAll(fs, d), Accepted, k + |EncodeAll(fs)|)
    decreases |fs|
  {
    if fs != [] {
      AtSplit(s, k, Encode(fs[0]), EncodeAll(fs[1..]));
      FieldAt(s, k, fs[0]);
      FieldsAreParsedStrictly(s, k + |Encode(fs[0])|, fs[1..], Applied(fs[0], d));
    }
  }

  function Override(d: nat, c: nat): nat {
    if c != 0 then c else d
  }

  /** `d` with the fields that `c` sets. */
  function Overridden(d: Csc, c: Csc): Csc {
    Csc(Override(d.frequency, c.frequency), Override(d.duration, c.duration),
        Override(d.allocation, c.allocation), Override(d.octets, c.octets), Override(d.blocks, c.blocks))
  }

  predicate Tabulated(c: Csc) {
    && (c.frequency == 0 || c.frequency in FREQUENCIES)
    && (c.duration == 0 || c.duration == 7500 || c.duration == 10000)
  }

  function Without(c: Csc, i: nat): Csc
    requires 1 <= i <= 5
  {
    match i
    case 1 => c.(frequency := 0)
    case 2 => c.(duration := 0)
    case 3 => c.(allocation := 0)
    case 4 => c.(octets := 0)
    case _ => c.(blocks := 0)
  }

  /** `c` without the members from `i` on that do not fit. */
  function ReducedFrom(c: Csc, i: nat, used: nat, maxLen: int): (r: Csc)
    requires 1 <= i <= 6
    ensures forall j :: 1 <= j <= 5 ==> Member(r, j) == Member(c, j) || (i <= j && Member(r, j) == 0)
    decreases 6 - i, c
  {
    if i == 6 then c
    else if Fits(c, i, used, maxLen) then ReducedFrom(c, i + 1, used + 2 + SizeOf(i), maxLen)
    else ReducedFrom(Without(c, i), i + 1, used, maxLen)
  }

  /** `c` without the members that do not fit in `maxLen`. */
  function Reduced(maxLen: int, c: Csc): (r: Csc)
    ensures forall j :: 1 <= j <= 5 ==> Member(r, j) == Member(c, j) || Member(r, j) == 0
  {
    ReducedFrom(c, 1, 1, maxLen)
  }

  function OverriddenFrom(d: Csc, c: Csc, i: nat): Csc {
    Csc(if i <= 1 then Override(d.frequency, c.frequency) else d.frequency,
        if i <= 2 then Override(d.duration, c.duration) else d.duration,
        if i <= 3 then Override(d.allocation, c.allocation) else d.allocation,
        if i <= 4 then Override(d.octets, c.octets) else d.octets,
        if i <= 5 then Override(d.blocks, c.blocks) else d.blocks)
  }

  predicate TabulatedFrom(c: Csc, i: nat) {
    && (i <= 1 && c.frequency != 0 ==> c.frequency in FREQUENCIES)
    && (i <= 2 && c.duration != 0 ==> c.duration == 7500 || c.duration == 10000)
  }

  lemma LaterMembersUnchanged(c: Csc, e: Csc, i: nat, used: nat, maxLen: int)
    requires 1 <= i <= 6 && forall j :: i <= j <= 5 ==> Member(e, j) == Member(c, j)
    ensures Kept(e, i, used, maxLen) == Kept(c, i, used, maxLen)
    decreases 6 - i
  {
    if i < 6 {
      assert Member(e, i) == Member(c, i) && Candidate(e, i) == Candidate(c, i);
      LaterMembersUnchanged(c, e, i + 1, used + 2 + SizeOf(i), maxLen);
      LaterMembersUnchanged(c, e, i + 1, used, maxLen);
    }
  }

  /** What is kept is legal exactly when its frequency and duration are tabulated. */
  lemma {:induction false} KeptIsLegal(c: Csc, i: nat, used: nat, maxLen: int)
    requires 1 <= i <= 6
    ensures AllLegal(Kept(c, i, used, maxLen)) <==> TabulatedFrom(ReducedFrom(c, i, used, maxLen), i)
    decreases 6 - i
  {
    if i < 6 {
      var r := ReducedFrom(c, i, used, maxLen);
      assert Member(r, i) == (if Fits(c, i, used, maxLen) then Member(c, i) else 0);
      FrequencyIndexIsInverse(c.frequency);
      if Fits(c, i, used, maxLen) {
        KeptIsLegal(c, i + 1, used + 2 + SizeOf(i), maxLen);
        OneMoreLegal(Candidate(c, i), Kept(c, i + 1, used + 2 + SizeOf(i), maxLen));
        assert TabulatedFrom(r, i) <==> Legal(Candidate(c, i)) && TabulatedFrom(r, i + 1);
      } else {
        KeptIsLegal(Without(c, i), i + 1, used, maxLen);
        LaterMembersUnchanged(c, Without(c, i), i + 1, used, maxLen);
        assert TabulatedFrom(r, i) <==> TabulatedFrom(r, i + 1);
      }
    }
  }

  lemma OneOverride(c: Csc, d: Csc, r: Csc, i: nat)
    requires 1 <= i <= 5 && Member(c, i) != 0 && Member(r, i) == Member(c, i) && Legal(Candidate(c, i))
    ensures OverriddenFrom(Applied(Candidate(c, i), d), r, i + 1) == OverriddenFrom(d, r, i)
  {
    FrequencyIndexIsInverse(c.frequency);
  }

  lemma NoOverride(d: Csc, r: Csc, i: nat)
    requires 1 <= i <= 5 && Member(r, i) == 0
    ensures OverriddenFrom(d, r, i + 1) == OverriddenFrom(d, r, i)
  {
  }

  /** Applying what is kept of a configuration lays the reduced configuration over the target. */
  lemma {:induction false} KeptApplies(c: Csc, i: nat, used: nat, maxLen: int, d: Csc)
    requires 1 <= i <= 6 && AllLegal(Kept(c, i, used, maxLen))
    ensures ApplyAll(Kept(c, i, used, maxLen), d) == OverriddenFrom(d, ReducedFrom(c, i, used, maxLen), i)
    decreases 6 - i
  {
    if i < 6 {
      var r := ReducedFrom(c, i, used, maxLen);
      assert Member(r, i) == (if Fits(c, i, used, maxLen) then Member(c, i) else 0);
      FrequencyIndexIsInverse(c.frequency);
      if Fits(c, i, used, maxLen) {
        var f, rest := Candidate(c, i), Kept(c, i + 1, used + 2 + SizeOf(i), maxLen);
        OneMoreLegal(f, rest);
        KeptApplies(c, i + 1, used + 2 + SizeOf(i), maxLen, Applied(f, d));
        assert ([f] + rest)[1..] == rest;
        OneOverride(c, d, r, i);
      } else {
        LaterMembersUnchanged(c, Without(c, i), i + 1, used, maxLen);
        KeptApplies(Without(c, i), i + 1, used, maxLen, d);
        NoOverride(d, r, i);
      }
    }
  }

  lemma OneMoreLegal(f: Field, rest: seq<Field>)
    ensures AllLegal([f] + rest) <==> Legal(f) && AllLegal(rest)
  {
    var all := [f] + rest;
    assert all[0] == f && all[1..] == rest;
    assert forall k :: 0 <= k < |rest| ==> rest[k] == all[k + 1];
  }

  function SizeFrom(c: Csc, i: nat): (n: nat)
    requires 1 <= i <= 6
    ensures n <= 6 * (6 - i)
    decreases 6 - i, c
  {
    if i == 6 then 0 else (if Member(c, i) != 0 then 2 + SizeOf(i) else 0) + SizeFrom(c, i + 1)
  }

  /** The bytes a configuration needs with its length byte. */
  function FullSize(c: Csc): (n: nat)
    ensures 1 <= n <= 31
  {
    1 + SizeFrom(c, 1)
  }

  lemma {:induction false} AllMembersFit(c: Csc, i: nat, used: nat, maxLen: int)
    requires 1 <= i <= 6 && used + SizeFrom(c, i) <= maxLen
    ensures |FieldBytes(c, i, used, maxLen)| == SizeFrom(c, i)
    decreases 6 - i
  {
    if i < 6 {
      assert Fits(c, i, used, maxLen) <==> Member(c, i) != 0;
      AllMembersFit(c, i + 1, if Member(c, i) != 0 then used + 2 + SizeOf(i) else used, maxLen);
    }
  }

  lemma {:induction false} NothingIsLeftOut(c: Csc, i: nat, used: nat, maxLen: int)
    requires 1 <= i <= 6 && used + SizeFrom(c, i) <= maxLen
    ensures ReducedFrom(c, i, used, maxLen) == c
    decreases 6 - i
  {
    if i < 6 {
      assert Fits(c, i, used, maxLen) <==> Member(c, i) != 0;
      assert Member(c, i) == 0 ==> Without(c, i) == c;
      NothingIsLeftOut(c, i + 1, if Member(c, i) != 0 then used + 2 + SizeOf(i) else used, maxLen);
    }
  }

  /** No configuration needs more than 20 bytes. */
  lemma TwentyBytesAreEnough(c: Csc)
    ensures FullSize(c) <= 20
  {
    assert SizeFrom(c, 5) <= 3 && SizeFrom(c, 4) <= 7 && SizeFrom(c, 3) <= 13 && SizeFrom(c, 2) <= 16;
  }

  /** Nothing is left out of a buffer that is big enough for the members that are set. */
  lemma ReducedIsWholeIfItFits(maxLen: int, c: Csc)
    requires maxLen >= FullSize(c)
    ensures Reduced(maxLen, c) == c && |Filled(maxLen, c)| == FullSize(c)
  {
    AllMembersFit(c, 1, 1, maxLen);
    NothingIsLeftOut(c, 1, 1, maxLen);
  }

  /** `b` stands in `s` behind a byte that holds its length. */
  predicate CountedIn(s: seq<Byte>, k: nat, b: seq<Byte>) {
    k < |s| && s[k] == |b| && At(s, k + 1, b)
  }

  lemma CountedAt(s: seq<Byte>, k: nat, b: seq<Byte>)
    requires |b| < 0x100
    ensures At(s, k, Counted(b)) <==> CountedIn(s, k, b)
  {
    AtSplit(s, k, [|b|], b);
    if At(s, k, [|b|]) {
      ByteAt(s, k, [|b|], 0);
    }
  }

  lemma FilledIsCounted(s: seq<Byte>, k: nat, maxLen: int, c: Csc)
    requires At(s, k, Filled(maxLen, c))
    ensures CountedIn(s, k, EncodeAll(Kept(c, 1, 1, maxLen)))
    ensures |Filled(maxLen, c)| == 1 + |EncodeAll(Kept(c, 1, 1, maxLen))|
  {
    CountedAt(s, k, FieldBytes(c, 1, 1, maxLen));
    KeptIsEncoded(c, 1, 1, maxLen);
  }

  lemma CountedIsParsed(s: seq<Byte>, k: nat, fs: seq<Field>, d: Csc)
    requires CountedIn(s, k, EncodeAll(fs))
    ensures AllLegal(fs) ==> Parsed(s, k + 1, s[k], d).0 == ApplyAll(fs, d)
    ensures Parsed(s, k + 1, s[k], d).1 == (if AllLegal(fs) then Success else Error)
  {
    FieldsAreParsed(s, k + 1, fs, d);
  }

  lemma CountedIsParsedStrictly(s: seq<Byte>, k: nat, fs: seq<Field>, d: Csc)
    requires CountedIn(s, k, EncodeAll(fs))
    ensures ParsedStrictly(s, k + 1, s[k], d).0 == ApplyAll(fs, d)
    ensures ParsedStrictly(s, k + 1, s[k], d).1 == Accepted
    ensures ParsedStrictly(s, k + 1, s[k], d).2 == k + 1 + |EncodeAll(fs)|
  {
    FieldsAreParsedStrictly(s, k + 1, fs, d);
  }

  /** What the writer wrote, in any room, is read by the first parser as the target overridden
      by the members that were written, exactly when their frequency and duration are
      tabulated. */
  lemma FilledIsParsed(s: seq<Byte>, k: nat, maxLen: int, c: Csc, d: Csc)
    requires At(s, k, Filled(maxLen, c))
    ensures k < |s|
    ensures Parsed(s, k + 1, s[k], d).1 == Success <==> Tabulated(Reduced(maxLen, c))
    ensures Parsed(s, k + 1, s[k], d).1 == Success || Parsed(s, k + 1, s[k], d).1 == Error
    ensures Tabulated(Reduced(maxLen, c)) ==> Parsed(s, k + 1, s[k], d).0 == Overridden(d, Reduced(maxLen, c))
  {
    FilledIsCounted(s, k, maxLen, c);
    CountedIsParsed(s, k, Kept(c, 1, 1, maxLen), d);
    KeptIsLegal(c, 1, 1, maxLen);
    if Tabulated(Reduced(maxLen, c)) { KeptApplies(c, 1, 1, maxLen, d); }
  }

  /** The second parser accepts whatever was written, stops where the writer stopped, and agrees
      with the first when frequency and duration are tabulated. */
  lemma FilledIsParsedStrictly(s: seq<Byte>, k: nat, maxLen: int, c: Csc, d: Csc)
    requires At(s, k, Filled(maxLen, c))
    ensures k < |s|
    ensures ParsedStrictly(s, k + 1, s[k], d).1 == Accepted
    ensures ParsedStrictly(s, k + 1, s[k], d).2 == k + |Filled(maxLen, c)|
    ensures Tabulated(Reduced(maxLen, c)) ==>
              ParsedStrictly(s, k + 1, s[k], d).0 == Overridden(d, Reduced(maxLen, c)) == Parsed(s, k + 1, s[k], d).0
  {
    FilledIsCounted(s, k, maxLen, c);
    CountedIsParsedStrictly(s, k, Kept(c, 1, 1, maxLen), d);
    KeptIsLegal(c, 1, 1, maxLen);
    if Tabulated(Reduced(maxLen, c)) { KeptApplies(c, 1, 1, maxLen, d); }
    FilledIsParsed(s, k, maxLen, c, d);
  }

  /** With room enough and a known frequency and duration nothing is lost. */
  lemma RoundTrip(s: seq<Byte>, k: nat, maxLen: int, c: Csc)
    requires Tabulated(c) && maxLen >= FullSize(c) && At(s, k, Filled(maxLen, c))
    ensures k < |s|
    ensures Parsed(s, k + 1, s[k], NO_CSC).0 == ParsedStrictly(s, k + 1, s[k], NO_CSC).0 == c
    ensures Parsed(s, k + 1, s[k], NO_CSC).1 == Success
    ensures ParsedStrictly(s, k + 1, s[k], NO_CSC).1 == Accepted
    ensures ParsedStrictly(s, k + 1, s[k], NO_CSC).2 == k + FullSize(c)
  {
    ReducedIsWholeIfItFits(maxLen, c);
    FilledIsParsed(s, k, maxLen, c, NO_CSC);
    FilledIsParsedStrictly(s, k, maxLen, c, NO_CSC);
  }
}
