/** Stream metadata: the preferred and the streaming audio contexts as length-type-value
    fields. */
module Metadata {
  import opened Bytes
  import opened CodecConfig

  datatype Contexts = Contexts(preferred: U16, streaming: U16)

  const NO_CONTEXTS := Contexts(0, 0)

  const PREFERRED: Byte := 1
  const STREAMING: Byte := 2
  const CCID_LIST: Byte := 5

  /** The twelve context bits that are defined. */
  predicate Defined(context: U16) {
    context < 0x1000
  }

  // ---- The writer ----

  function ContextField(fieldType: Byte, context: U16, room: int): (r: seq<Byte>)
    ensures |r| == 0 || |r| == 4
    ensures |r| == 4 <==> context != 0 && room >= 4
  {
    if context != 0 && room >= 4 then Ltv(fieldType, Le(context, 2)) else []
  }

  function Fields(maxLen: int, m: Contexts): (r: seq<Byte>)
    ensures |r| <= 8 && (1 <= maxLen ==> 1 + |r| <= maxLen)
  {
    var p := ContextField(PREFERRED, m.preferred, maxLen - 1);
    p + ContextField(STREAMING, m.streaming, maxLen - 1 - |p|)
  }

  function Filled(maxLen: int, m: Contexts): (r: seq<Byte>)
    ensures 1 <= |r| <= 9 && r[0] == |r| - 1
    ensures 1 <= maxLen ==> |r| <= maxLen
  {
    Counted(Fields(maxLen, m))
  }

  method PutContext(dst: array<Byte>, k: nat, room: int, fieldType: Byte, context: U16) returns (n: nat)
    requires k + |ContextField(fieldType, context, room)| <= dst.Length
    modifies dst
    ensures n == |ContextField(fieldType, context, room)| && k + n <= dst.Length
    ensures dst[..] == Splice(old(dst[..]), k, ContextField(fieldType, context, room))
  {
    n := 0;
    if context != 0 {
      n := UpdateLtv(dst, k, room, fieldType, Le(context, 2));
    }
    if n == 0 {
      assert dst[..] == Splice(old(dst[..]), k, []);
    }
  }

  /** Another value in the length byte. */
  lemma Recounted(now: seq<Byte>, start: seq<Byte>, at: nat, x: Byte, y: Byte, b: seq<Byte>)
    requires at + 1 + |b| <= |start| && now == Splice(start, at, [x] + b)
    ensures at < |now| && now[at] == x && now[at := y] == Splice(start, at, [y] + b)
  {
  }

  lemma ContextIsCounted(start: seq<Byte>, at: nat, b: seq<Byte>, c: seq<Byte>)
    requires at + 1 + |b| + |c| <= |start| && |b| + |c| < 0x100
    ensures var now := Splice(Splice(start, at, [|b|] + b), at + 1 + |b|, c);
            now[at] == |b| && now[at := |b| + |c|] == Splice(start, at, [|b + c|] + (b + c))
  {
    var now := Splice(Splice(start, at, [|b|] + b), at + 1 + |b|, c);
    SpliceTwice(start, at, [|b|] + b, c);
    Regroup([|b|], b, c);
    Recounted(now, start, at, |b|, |b| + |c|, b + c);
  }

  /** Counts the bytes `c` that were just written behind `b`. */
  method CountMore(dst: array<Byte>, at: nat, n: nat, ghost start: seq<Byte>, ghost b: seq<Byte>, ghost c: seq<Byte>)
    requires n == |c| && at + 1 + |b| + |c| <= |start| && |b| + |c| < 0x100
    requires dst[..] == Splice(Splice(start, at, [|b|] + b), at + 1 + |b|, c)
    modifies dst
    ensures dst[..] == Splice(start, at, [|b + c|] + (b + c))
  {
    ContextIsCounted(start, at, b, c);
    dst[at] := dst[at] + n;
  }

  /** Adds one context behind the `|b|` bytes already written and counts it. */
  method AddContext(dst: array<Byte>, at: nat, maxLen: int, fieldType: Byte, context: U16, k: nat,
                    ghost start: seq<Byte>, ghost b: seq<Byte>) returns (next: nat)
    requires at + 1 + |b| + |ContextField(fieldType, context, maxLen - 1 - |b|)| <= dst.Length == |start|
    requires |b| <= 4 && k == at + 1 + |b| && dst[..] == Splice(start, at, [|b|] + b)
    modifies dst
    ensures var c := b + ContextField(fieldType, context, maxLen - 1 - |b|);
            next == at + 1 + |c| && dst[..] == Splice(start, at, [|c|] + c)
  {
    ghost var c := ContextField(fieldType, context, maxLen - 1 - |b|);
    var n := PutContext(dst, k, maxLen - (k - at), fieldType, context);
    CountMore(dst, at, n, start, b, c);
    next := k + n;
  }

  method FillMetadata(dst: array<Byte>, at: nat, maxLen: int, m: Contexts) returns (n: nat)
    requires at + |Filled(maxLen, m)| <= dst.Length
    modifies dst
    ensures n == |Filled(maxLen, m)|
    ensures dst[..] == Splice(old(dst[..]), at, Filled(maxLen, m))
  {
    ghost var start := dst[..];
    dst[at] := 0;
    ghost var preferred := ContextField(PREFERRED, m.preferred, maxLen - 1);
    assert [0] + [] == [0] && [] + preferred == preferred;
    assert dst[..] == Splice(start, at, [0]);
    var k := AddContext(dst, at, maxLen, PREFERRED, m.preferred, at + 1, start, []);
    k := AddContext(dst, at, maxLen, STREAMING, m.streaming, k, start, preferred);
    n := k - at;
  }

  // ---- The reader ----

  /** `Rejected` names the offending type. `CutShort` stands for reading past the end. */
  datatype Status = Fine | Rejected(reason: Byte) | CutShort

  /** A field that claims more bytes than are left ends the reading without an error. */
  function Got(s: seq<Byte>, k: nat, left: int, m: Contexts): (Contexts, Status)
    decreases if left < 0 then 0 else left + 1
  {
    if left == 0 then (m, Fine)
    else if k + 2 > |s| then (m, CutShort)
    else if s[k] > left then (m, Fine)
    else if s[k + 1] == PREFERRED || s[k + 1] == STREAMING then
      if k + 4 > |s| then (m, CutShort)
      else
        var v := Read(s, k + 2, 2);
        var t := if s[k + 1] == PREFERRED then m.(preferred := v) else m.(streaming := v);
        if !Defined(v) then (t, Rejected(s[k + 1])) else Got(s, k + 4, left - s[k] as int - 1, t)
    else if s[k + 1] == CCID_LIST then Got(s, k + 2 + s[k] as int, left - s[k] as int - 1, m)
    else (m, Rejected(s[k + 1]))
  }

  method GetMetadata(data: array<Byte>, at: nat, count: nat, d: Contexts) returns (m: Contexts, status: Status)
    ensures (m, status) == Got(data[..], at, count, d)
  {
    m, status := d, Fine;
    var k: nat, left: int := at, count;
    while left != 0
      invariant Got(data[..], k, left, m) == Got(data[..], at, count, d)
      decreases if left < 0 then 0 else left + 1
    {
      if k + 2 > data.Length {
        return m, CutShort;
      }
      var length, fieldType := data[k], data[k + 1];
      if length > left {
        break;
      }
      k := k + 2;
      if fieldType == PREFERRED || fieldType == STREAMING {
        if k + 2 > data.Length {
          return m, CutShort;
        }
        var v := Read(data[..], k, 2);
        k := k + 2;
        m := if fieldType == PREFERRED then m.(preferred := v) else m.(streaming := v);
        if !Defined(v) {
          return m, Rejected(fieldType);
        }
      } else if fieldType == CCID_LIST {
        k := k + length;
      } else {
        return m, Rejected(fieldType);
      }
      left := left - (length as int + 1);
    }
  }

  // ---- Reading what was written ----

  /** `m` without the contexts that do not fit. */
  function Reduced(maxLen: int, m: Contexts): Contexts {
    var p := ContextField(PREFERRED, m.preferred, maxLen - 1);
    Contexts(if p == [] then 0 else m.preferred,
             if ContextField(STREAMING, m.streaming, maxLen - 1 - |p|) == [] then 0 else m.streaming)
  }

  function FullSize(m: Contexts): nat {
    1 + (if m.preferred != 0 then 4 else 0) + (if m.streaming != 0 then 4 else 0)
  }

  lemma ReducedIsWholeIfItFits(maxLen: int, m: Contexts)
    ensures maxLen >= FullSize(m) ==> Reduced(maxLen, m) == m && |Filled(maxLen, m)| == FullSize(m)
  {
  }

  lemma ContextAt(s: seq<Byte>, k: nat, fieldType: Byte, context: U16)
    requires At(s, k, Ltv(fieldType, Le(context, 2)))
    ensures k + 4 <= |s| && s[k] == 3 && s[k + 1] == fieldType && Read(s, k + 2, 2) == context
  {
    AtSplit(s, k, [3, fieldType], Le(context, 2));
    ByteAt(s, k, [3, fieldType], 0);
    ByteAt(s, k, [3, fieldType], 1);
    Capacities();
    ReadBack(s, k + 2, context, 2);
  }

  /** One context field, or none, and what follows it. */
  lemma ContextIsRead(s: seq<Byte>, k: nat, fieldType: Byte, context: U16, room: int, rest: nat, d: Contexts)
    requires fieldType == PREFERRED || fieldType == STREAMING
    requires At(s, k, ContextField(fieldType, context, room))
    ensures var b := ContextField(fieldType, context, room);
            var t := if fieldType == PREFERRED then d.(preferred := context) else d.(streaming := context);
            && (b == [] ==> Got(s, k, |b| + rest, d) == Got(s, k, rest, d))
            && (b != [] && Defined(context) ==> Got(s, k, |b| + rest, d) == Got(s, k + |b|, rest, t))
            && (b != [] && !Defined(context) ==> Got(s, k, |b| + rest, d).1 == Rejected(fieldType))
  {
    if ContextField(fieldType, context, room) != [] {
      ContextAt(s, k, fieldType, context);
    }
  }

  function Overridden(d: Contexts, m: Contexts): Contexts {
    Contexts(Override(d.preferred, m.preferred), Override(d.streaming, m.streaming))
  }

  lemma FieldsAreRead(s: seq<Byte>, k: nat, maxLen: int, m: Contexts, d: Contexts)
    requires At(s, k, Fields(maxLen, m))
    ensures var (r, n) := (Reduced(maxLen, m), |Fields(maxLen, m)|);
            && (Got(s, k, n, d).1 == Fine <==> Defined(r.preferred) && Defined(r.streaming))
            && (Defined(r.preferred) && Defined(r.streaming) ==> Got(s, k, n, d).0 == Overridden(d, r))
  {
    var p := ContextField(PREFERRED, m.preferred, maxLen - 1);
    var q := ContextField(STREAMING, m.streaming, maxLen - 1 - |p|);
    AtSplit(s, k, p, q);
    ContextIsRead(s, k, PREFERRED, m.preferred, maxLen - 1, |q|, d);
    var t := if p == [] then d else d.(preferred := m.preferred);
    ContextIsRead(s, k + |p|, STREAMING, m.streaming, maxLen - 1 - |p|, 0, t);
  }

  /** What was written is read back over the target, exactly when every context that was
      written is defined; otherwise the reader rejects. */
  lemma FilledIsRead(s: seq<Byte>, k: nat, maxLen: int, m: Contexts, d: Contexts)
    requires At(s, k, Filled(maxLen, m))
    ensures k < |s|
    ensures var r := Reduced(maxLen, m);
            && (Got(s, k + 1, s[k], d).1 == Fine <==> Defined(r.preferred) && Defined(r.streaming))
            && (Defined(r.preferred) && Defined(r.streaming) ==> Got(s, k + 1, s[k], d).0 == Overridden(d, r))
  {
    CountedAt(s, k, Fields(maxLen, m));
    FieldsAreRead(s, k + 1, maxLen, m, d);
  }

  // ---- A list of content-control ids among the contexts ----

  /** The reader steps over such a list and one octet more: its length counts the type, which has
      been read by then. */
  lemma ListIsOverstepped(s: seq<Byte>, k: nat, list: seq<Byte>, rest: nat, d: Contexts)
    requires |list| < 0xFE && At(s, k, Ltv(CCID_LIST, list))
    ensures Got(s, k, 2 + |list| + rest, d) == Got(s, k + 2 + |list| + 1, rest, d)
  {
    ByteAt(s, k, Ltv(CCID_LIST, list), 0);
    ByteAt(s, k, Ltv(CCID_LIST, list), 1);
  }

  /** A context and then, if `behind`, a list; or the list first. */
  function WithList(fieldType: Byte, context: U16, list: seq<Byte>, behind: bool): seq<Byte>
    requires |list| < 0xFE
  {
    var c, l := Ltv(fieldType, Le(context, 2)), Ltv(CCID_LIST, list);
    if behind then c + l else l + c
  }

  /** So a defined context is read right, in memory that ends with the metadata, exactly when
      the list stands behind it. */
  lemma ListIsReadRightIffLast(s: seq<Byte>, k: nat, fieldType: Byte, context: U16, list: seq<Byte>, behind: bool,
                               d: Contexts)
    requires fieldType == PREFERRED || fieldType == STREAMING
    requires Defined(context) && |list| < 0xFE
    requires k + |WithList(fieldType, context, list, behind)| == |s| && At(s, k, WithList(fieldType, context, list, behind))
    ensures Got(s, k, |WithList(fieldType, context, list, behind)|, d).1 == Fine <==> behind
    ensures behind ==>
              Got(s, k, |WithList(fieldType, context, list, behind)|, d).0
              == (if fieldType == PREFERRED then d.(preferred := context) else d.(streaming := context))
  {
    var c, l := Ltv(fieldType, Le(context, 2)), Ltv(CCID_LIST, list);
    if behind {
      AtSplit(s, k, c, l);
      ContextAt(s, k, fieldType, context);
      var t := if fieldType == PREFERRED then d.(preferred := context) else d.(streaming := context);
      assert Got(s, k, 4 + |l|, d) == Got(s, k + 4, |l|, t);
      ListIsOverstepped(s, k + 4, list, 0, t);
    } else {
      AtSplit(s, k, l, c);
      ContextAt(s, k + |l|, fieldType, context);
      ListIsOverstepped(s, k, list, 4, d);
      MisreadIsNotFine(s, k + |l| + 1, fieldType, d);
    }
  }

  /** One octet into the last field of the memory. */
  lemma MisreadIsNotFine(s: seq<Byte>, k: nat, fieldType: Byte, d: Contexts)
    requires fieldType == PREFERRED || fieldType == STREAMING
    requires k + 3 == |s| && s[k] == fieldType
    ensures Got(s, k, 4, d).1 != Fine
  {
    if s[k + 1] == CCID_LIST {
      assert Got(s, k, 4, d) == Got(s, k + 2 + fieldType, 3 - fieldType, d);
    }
  }

  // ---- What else stops the reader ----

  /** A field that claims more than is left ends the reading without a word; an undefined context
      is kept all the same; a field of any other type is rejected by its type. */
  lemma FaultsOfTheFirstField(s: seq<Byte>, k: nat, left: nat, d: Contexts)
    requires left > 0 && k + 2 <= |s|
    ensures s[k] > left ==> Got(s, k, left, d).0 == d && Got(s, k, left, d).1 == Fine
    ensures s[k] <= left && s[k + 1] != 1 && s[k + 1] != 2 && s[k + 1] != 5 ==>
              Got(s, k, left, d).0 == d && Got(s, k, left, d).1 == Rejected(s[k + 1])
    ensures s[k] <= left && s[k + 1] == 2 && k + 4 <= |s| && Read(s, k + 2, 2) > 0x0FFF ==>
              Got(s, k, left, d).0 == d.(streaming := Read(s, k + 2, 2)) && Got(s, k, left, d).1 == Rejected(2)
    ensures s[k] <= left && s[k + 1] == 1 && k + 4 <= |s| && Read(s, k + 2, 2) > 0x0FFF ==>
              Got(s, k, left, d).0 == d.(preferred := Read(s, k + 2, 2)) && Got(s, k, left, d).1 == Rejected(1)
  {
  }
}
