/** The Broadcast Audio Source Endpoint structure (BASE): three nested levels, each with its
    own length accounting. Section 3.7.2.2 of the Basic Audio Profile. */
module Broadcast {
  import opened Bytes
  import opened CodecConfig
  import opened AscsCommands
  import Metadata

  datatype Bis = Bis(index: Byte, csc: Csc)

  type Bises = s: seq<Bis> | |s| < 0x100

  datatype Subgroup = Subgroup(codec: CodecId, csc: Csc, metadata: Metadata.Contexts, bises: Bises)

  type Subgroups = s: seq<Subgroup> | |s| < 0x100

  datatype Base = Base(delay: U32, subgroups: Subgroups)

  const SERVICE_DATA: Byte := 0x16
  const BASIC_AUDIO_ANNOUNCEMENT: U16 := 0x1851

  // ---- The builder ----

  // `used` counts the bytes written before, `dstLen` is the room for everything.

  function BisBytes(used: nat, dstLen: nat, b: Bis): seq<Byte> {
    Le(b.index, 1) + Filled(dstLen - used - 1, b.csc)
  }

  function BisesBytes(used: nat, dstLen: nat, bs: seq<Bis>): seq<Byte>
    decreases |bs|
  {
    if bs == [] then []
    else
      var first := BisBytes(used, dstLen, bs[0]);
      first + BisesBytes(used + |first|, dstLen, bs[1..])
  }

  function SubgroupHead(g: Subgroup): (r: seq<Byte>)
    ensures |r| == 6
  {
    CodecIdBytes(Le(|g.bises|, 1), g.codec)
  }

  /** Everything of a subgroup but its BISes. */
  function SubgroupOwn(used: nat, dstLen: nat, g: Subgroup): seq<Byte> {
    var c := Filled(dstLen - used - 6, g.csc);
    SubgroupHead(g) + c + Metadata.Filled(dstLen - used - 6 - |c|, g.metadata)
  }

  function SubgroupBytes(used: nat, dstLen: nat, g: Subgroup): seq<Byte> {
    var own := SubgroupOwn(used, dstLen, g);
    own + BisesBytes(used + |own|, dstLen, g.bises)
  }

  function SubgroupsBytes(used: nat, dstLen: nat, gs: seq<Subgroup>): seq<Byte>
    decreases |gs|
  {
    if gs == [] then []
    else
      var first := SubgroupBytes(used, dstLen, gs[0]);
      first + SubgroupsBytes(used + |first|, dstLen, gs[1..])
  }

  /** Length byte, type, UUID, presentation delay, number of subgroups. */
  function BaseHead(length: Byte, base: Base): (r: seq<Byte>)
    ensures |r| == 8
  {
    [length, SERVICE_DATA] + Le(BASIC_AUDIO_ANNOUNCEMENT, 2) + Le(base.delay, 3) + [|base.subgroups|]
  }

  function BaseBytes(length: Byte, dstLen: nat, base: Base): seq<Byte> {
    BaseHead(length, base) + SubgroupsBytes(8, dstLen, base.subgroups)
  }

  // ---- Sizes ----

  function BisesSize(bs: seq<Bis>): nat {
    if bs == [] then 0 else 1 + FullSize(bs[0].csc) + BisesSize(bs[1..])
  }

  function OwnSize(g: Subgroup): nat {
    6 + FullSize(g.csc) + Metadata.FullSize(g.metadata)
  }

  function SubgroupSize(g: Subgroup): nat {
    OwnSize(g) + BisesSize(g.bises)
  }

  function SubgroupsSize(gs: seq<Subgroup>): nat {
    if gs == [] then 0 else SubgroupSize(gs[0]) + SubgroupsSize(gs[1..])
  }

  function BaseSize(base: Base): nat {
    8 + SubgroupsSize(base.subgroups)
  }

  lemma BisFits(used: nat, dstLen: nat, b: Bis)
    requires used + 1 + FullSize(b.csc) <= dstLen
    ensures |BisBytes(used, dstLen, b)| == 1 + FullSize(b.csc)
  {
    ReducedIsWholeIfItFits(dstLen - used - 1, b.csc);
  }

  lemma {:induction false} BisesFit(used: nat, dstLen: nat, bs: seq<Bis>)
    requires used + BisesSize(bs) <= dstLen
    ensures |BisesBytes(used, dstLen, bs)| == BisesSize(bs)
    decreases |bs|
  {
    if bs != [] {
      BisFits(used, dstLen, bs[0]);
      BisesFit(used + 1 + FullSize(bs[0].csc), dstLen, bs[1..]);
    }
  }

  lemma OwnFits(used: nat, dstLen: nat, g: Subgroup)
    requires used + OwnSize(g) <= dstLen
    ensures |SubgroupOwn(used, dstLen, g)| == OwnSize(g)
  {
    ReducedIsWholeIfItFits(dstLen - used - 6, g.csc);
    Metadata.ReducedIsWholeIfItFits(dstLen - used - 6 - FullSize(g.csc), g.metadata);
  }

  lemma SubgroupFits(used: nat, dstLen: nat, g: Subgroup)
    requires used + SubgroupSize(g) <= dstLen
    ensures |SubgroupBytes(used, dstLen, g)| == SubgroupSize(g)
  {
    OwnFits(used, dstLen, g);
    BisesFit(used + OwnSize(g), dstLen, g.bises);
  }

  lemma {:induction false} SubgroupsFit(used: nat, dstLen: nat, gs: seq<Subgroup>)
    requires used + SubgroupsSize(gs) <= dstLen
    ensures |SubgroupsBytes(used, dstLen, gs)| == SubgroupsSize(gs)
    decreases |gs|
  {
    if gs != [] {
      SubgroupFits(used, dstLen, gs[0]);
      SubgroupsFit(used + SubgroupSize(gs[0]), dstLen, gs[1..]);
    }
  }

  // ---- Building in place ----

  /** The buffer `now` is `start` with `b` written at its beginning. */
  predicate Built(now: seq<Byte>, start: seq<Byte>, b: seq<Byte>) {
    |b| <= |start| && now == Splice(start, 0, b)
  }

  lemma BuiltMore(before: seq<Byte>, now: seq<Byte>, start: seq<Byte>, b: seq<Byte>, e: seq<Byte>)
    requires Built(before, start, b) && |b| + |e| <= |start| && now == Splice(before, |b|, e)
    ensures Built(now, start, b + e)
  {
    SpliceTwice(start, 0, b, e);
  }

  /** A codec configuration behind the bytes `b`. */
  method BuildCsc(dst: array<Byte>, dstLen: nat, k: nat, c: Csc, ghost start: seq<Byte>, ghost b: seq<Byte>)
    returns (next: nat)
    requires k == |b| && |b| + |Filled(dstLen - k, c)| <= dst.Length && Built(dst[..], start, b)
    modifies dst
    ensures Built(dst[..], start, b + Filled(dstLen - k, c)) && next == |b| + |Filled(dstLen - k, c)|
  {
    var n := FillCsc(dst, k, dstLen - k, c);
    BuiltMore(old(dst[..]), dst[..], start, b, Filled(dstLen - k, c));
    next := k + n;
  }

  method BuildContexts(dst: array<Byte>, dstLen: nat, k: nat, m: Metadata.Contexts, ghost start: seq<Byte>, ghost b: seq<Byte>)
    returns (next: nat)
    requires k == |b| && |b| + |Metadata.Filled(dstLen - k, m)| <= dst.Length && Built(dst[..], start, b)
    modifies dst
    ensures Built(dst[..], start, b + Metadata.Filled(dstLen - k, m))
    ensures next == |b| + |Metadata.Filled(dstLen - k, m)|
  {
    var n := Metadata.FillMetadata(dst, k, dstLen - k, m);
    BuiltMore(old(dst[..]), dst[..], start, b, Metadata.Filled(dstLen - k, m));
    next := k + n;
  }

  method BuildBis(dst: array<Byte>, dstLen: nat, k: nat, bis: Bis, ghost start: seq<Byte>, ghost b: seq<Byte>)
    returns (next: nat)
    requires k == |b| && k + |BisBytes(k, dstLen, bis)| <= dst.Length && Built(dst[..], start, b)
    modifies dst
    ensures Built(dst[..], start, b + BisBytes(k, dstLen, bis)) && next == k + |BisBytes(k, dstLen, bis)|
  {
    ghost var i := Le(bis.index, 1);
    next := Append(dst, 0, k, bis.index, 1, start, b);
    assert next == k + 1;
    next := BuildCsc(dst, dstLen, next, bis.csc, start, b + i);
    ghost var f := Filled(dstLen - k - 1, bis.csc);
    Regroup(b, i, f);
    assert BisBytes(k, dstLen, bis) == i + f;
  }

  /** `b` is what comes before the BISes `bs`, out of `all`. */
  ghost predicate BisesUnderway(b: seq<Byte>, dstLen: nat, bs: seq<Bis>, all: seq<Byte>) {
    b + BisesBytes(|b|, dstLen, bs) == all
  }

  lemma NextBis(b: seq<Byte>, dstLen: nat, bs: seq<Bis>, all: seq<Byte>)
    requires bs != [] && BisesUnderway(b, dstLen, bs, all)
    ensures BisesUnderway(b + BisBytes(|b|, dstLen, bs[0]), dstLen, bs[1..], all)
    ensures |b| + |BisBytes(|b|, dstLen, bs[0])| <= |all|
  {
    var first := BisBytes(|b|, dstLen, bs[0]);
    Regroup(b, first, BisesBytes(|b| + |first|, dstLen, bs[1..]));
  }

  method BuildBises(dst: array<Byte>, dstLen: nat, k: nat, bs: Bises, ghost start: seq<Byte>, ghost b0: seq<Byte>)
    returns (next: nat)
    requires k == |b0| && k + |BisesBytes(k, dstLen, bs)| <= dst.Length && Built(dst[..], start, b0)
    modifies dst
    ensures Built(dst[..], start, b0 + BisesBytes(k, dstLen, bs)) && next == k + |BisesBytes(k, dstLen, bs)|
  {
    next := k;
    ghost var b := b0;
    ghost var all := b0 + BisesBytes(k, dstLen, bs);
    var j := 0;
    assert bs[0..] == bs;
    while j < |bs|
      invariant 0 <= j <= |bs| && next == |b|
      invariant BisesUnderway(b, dstLen, bs[j..], all)
      invariant Built(dst[..], start, b)
    {
      assert bs[j..][0] == bs[j] && bs[j..][1..] == bs[j + 1..];
      NextBis(b, dstLen, bs[j..], all);
      ghost var first := BisBytes(next, dstLen, bs[j]);
      next := BuildBis(dst, dstLen, next, bs[j], start, b);
      b := b + first;
      j := j + 1;
    }
    assert bs[j..] == [] && all == b + [] == b;
  }

  lemma HeadBehind(b: seq<Byte>, g: Subgroup)
    ensures CodecIdBytes(b + Le(|g.bises|, 1), g.codec) == b + SubgroupHead(g)
  {
    var n, f, c, v := Le(|g.bises|, 1), Le(g.codec.format, 1), Le(g.codec.company, 2), Le(g.codec.vendor, 2);
    Regroup(b, n, f);
    Regroup(b, n + f, c);
    Regroup(b, n + f + c, v);
  }

  method BuildSubgroupHead(dst: array<Byte>, k: nat, g: Subgroup, ghost start: seq<Byte>, ghost b: seq<Byte>)
    returns (next: nat)
    requires k == |b| && k + 6 <= dst.Length && Built(dst[..], start, b)
    modifies dst
    ensures Built(dst[..], start, b + SubgroupHead(g)) && next == k + 6
  {
    next := Append(dst, 0, k, |g.bises|, 1, start, b);
    next := PutCodecId(dst, 0, next, g.codec, start, b + Le(|g.bises|, 1));
    HeadBehind(b, g);
  }

  method BuildSubgroupConfig(dst: array<Byte>, dstLen: nat, k: nat, g: Subgroup, ghost start: seq<Byte>, ghost b: seq<Byte>)
    returns (next: nat)
    requires k == |b| && k + 6 + |Filled(dstLen - k - 6, g.csc)| <= dst.Length && Built(dst[..], start, b)
    modifies dst
    ensures Built(dst[..], start, b + SubgroupHead(g) + Filled(dstLen - k - 6, g.csc))
    ensures next == k + 6 + |Filled(dstLen - k - 6, g.csc)|
  {
    next := BuildSubgroupHead(dst, k, g, start, b);
    next := BuildCsc(dst, dstLen, next, g.csc, start, b + SubgroupHead(g));
  }

  lemma OwnIsBehind(b: seq<Byte>, dstLen: nat, g: Subgroup)
    ensures var c := Filled(dstLen - |b| - 6, g.csc);
            var m := Metadata.Filled(dstLen - |b| - 6 - |c|, g.metadata);
            && b + SubgroupHead(g) + c + m == b + SubgroupOwn(|b|, dstLen, g)
            && |SubgroupOwn(|b|, dstLen, g)| == 6 + |c| + |m|
  {
    var h, c := SubgroupHead(g), Filled(dstLen - |b| - 6, g.csc);
    var m := Metadata.Filled(dstLen - |b| - 6 - |c|, g.metadata);
    Regroup(b, h, c);
    Regroup(b, h + c, m);
  }

  method BuildSubgroupOwn(dst: array<Byte>, dstLen: nat, k: nat, g: Subgroup, ghost start: seq<Byte>, ghost b: seq<Byte>)
    returns (next: nat)
    requires k == |b| && k + |SubgroupOwn(k, dstLen, g)| <= dst.Length && Built(dst[..], start, b)
    modifies dst
    ensures Built(dst[..], start, b + SubgroupOwn(k, dstLen, g))
    ensures next == k + |SubgroupOwn(k, dstLen, g)|
  {
    OwnIsBehind(b, dstLen, g);
    ghost var c := Filled(dstLen - k - 6, g.csc);
    next := BuildSubgroupConfig(dst, dstLen, k, g, start, b);
    next := BuildContexts(dst, dstLen, next, g.metadata, start, b + SubgroupHead(g) + c);
  }

  ghost predicate SubgroupsUnderway(b: seq<Byte>, dstLen: nat, gs: seq<Subgroup>, all: seq<Byte>) {
    b + SubgroupsBytes(|b|, dstLen, gs) == all
  }

  lemma NextSubgroup(b: seq<Byte>, dstLen: nat, gs: seq<Subgroup>, all: seq<Byte>)
    requires gs != [] && SubgroupsUnderway(b, dstLen, gs, all)
    ensures SubgroupsUnderway(b + SubgroupBytes(|b|, dstLen, gs[0]), dstLen, gs[1..], all)
    ensures |b| + |SubgroupBytes(|b|, dstLen, gs[0])| <= |all|
  {
    var first := SubgroupBytes(|b|, dstLen, gs[0]);
    Regroup(b, first, SubgroupsBytes(|b| + |first|, dstLen, gs[1..]));
  }

  method BuildSubgroup(dst: array<Byte>, dstLen: nat, k: nat, g: Subgroup, ghost start: seq<Byte>, ghost b: seq<Byte>)
    returns (next: nat)
    requires k == |b| && k + |SubgroupBytes(k, dstLen, g)| <= dst.Length && Built(dst[..], start, b)
    modifies dst
    ensures Built(dst[..], start, b + SubgroupBytes(k, dstLen, g)) && next == k + |SubgroupBytes(k, dstLen, g)|
  {
    next := BuildSubgroupOwn(dst, dstLen, k, g, start, b);
    ghost var own := SubgroupOwn(k, dstLen, g);
    ghost var before := next;
    next := BuildBises(dst, dstLen, next, g.bises, start, b + own);
    Regroup(b, own, BisesBytes(before, dstLen, g.bises));
  }

  method BuildSubgroups(dst: array<Byte>, dstLen: nat, k: nat, gs: Subgroups, ghost start: seq<Byte>, ghost b0: seq<Byte>)
    returns (next: nat)
    requires k == |b0| && k + |SubgroupsBytes(k, dstLen, gs)| <= dst.Length && Built(dst[..], start, b0)
    modifies dst
    ensures Built(dst[..], start, b0 + SubgroupsBytes(k, dstLen, gs)) && next == k + |SubgroupsBytes(k, dstLen, gs)|
  {
    next := k;
    ghost var b := b0;
    ghost var all := b0 + SubgroupsBytes(k, dstLen, gs);
    var i := 0;
    assert gs[0..] == gs;
    while i < |gs|
      invariant 0 <= i <= |gs| && next == |b|
      invariant SubgroupsUnderway(b, dstLen, gs[i..], all)
      invariant Built(dst[..], start, b)
    {
      assert gs[i..][0] == gs[i] && gs[i..][1..] == gs[i + 1..];
      NextSubgroup(b, dstLen, gs[i..], all);
      ghost var first := SubgroupBytes(next, dstLen, gs[i]);
      next := BuildSubgroup(dst, dstLen, next, gs[i], start, b);
      b := b + first;
      i := i + 1;
    }
    assert gs[i..] == [] && all == b + [] == b;
  }

  lemma SingleByte(v: Byte)
    ensures Le(v, 1) == [v]
  {
    assert Le(v, 1) == [v % 0x100] + Le(v / 0x100, 0);
  }

  method BuildBaseHead(dst: array<Byte>, base: Base) returns (k: nat)
    requires 8 <= dst.Length
    modifies dst
    ensures k == 8 && Built(dst[..], old(dst[..]), BaseHead(old(dst[0]), base))
  {
    ghost var start := dst[..];
    ghost var b := [dst[0], SERVICE_DATA];
    dst[1] := SERVICE_DATA;
    assert dst[..] == Splice(start, 0, b);
    k := Append(dst, 0, 2, BASIC_AUDIO_ANNOUNCEMENT, 2, start, b);
    b := b + Le(BASIC_AUDIO_ANNOUNCEMENT, 2);
    k := Append(dst, 0, k, base.delay, 3, start, b);
    b := b + Le(base.delay, 3);
    k := Append(dst, 0, k, |base.subgroups|, 1, start, b);
    SingleByte(|base.subgroups|);
  }

  lemma FirstByteLast(now: seq<Byte>, start: seq<Byte>, x: Byte, y: Byte, tail: seq<Byte>)
    requires Built(now, start, [x] + tail)
    ensures now != [] && Built(now[0 := y], start, [y] + tail)
  {
  }

  lemma LengthByteLast(now: seq<Byte>, start: seq<Byte>, x: Byte, y: Byte, base: Base, rest: seq<Byte>)
    requires Built(now, start, BaseHead(x, base) + rest)
    ensures now != [] && Built(now[0 := y], start, BaseHead(y, base) + rest)
  {
    var tail := [SERVICE_DATA] + Le(BASIC_AUDIO_ANNOUNCEMENT, 2) + Le(base.delay, 3) + [|base.subgroups|];
    assert BaseHead(x, base) == [x] + tail && BaseHead(y, base) == [y] + tail;
    Regroup([x], tail, rest);
    Regroup([y], tail, rest);
    FirstByteLast(now, start, x, y, tail + rest);
  }

  /** The length byte for `n` bytes: one less, in eight bits. */
  function LengthByte(n: nat): Byte {
    if n % 0x100 == 0 then 0xFF else n % 0x100 - 1
  }

  /** The length byte counts what follows it, in eight bits, and no other byte does. */
  lemma LengthByteCountsWhatFollows(n: nat, b: Byte)
    ensures b == LengthByte(n) <==> (b + 1) % 0x100 == n % 0x100
    ensures 1 <= n <= 0xFF ==> (b == LengthByte(n) <==> b + 1 == n)
  {
  }

  /** What is written in all, whether it fits or not: fields that do not fit are left out, heads
      are written regardless. */
  function Written(dstLen: nat, base: Base): nat {
    8 + |SubgroupsBytes(8, dstLen, base.subgroups)|
  }

  /** The count is kept in eight bits before it is compared with the room. */
  predicate Refused(dstLen: nat, base: Base) {
    Written(dstLen, base) % 0x100 > dstLen
  }

  lemma WrittenIfItFits(dstLen: nat, base: Base)
    requires BaseSize(base) <= dstLen
    ensures Written(dstLen, base) == BaseSize(base) && !Refused(dstLen, base)
  {
    SubgroupsFit(8, dstLen, base.subgroups);
  }

  lemma LengthIsSize(dstLen: nat, base: Base)
    requires BaseSize(base) <= dstLen && BaseSize(base) <= 0xFF
    ensures LengthByte(Written(dstLen, base)) + 1 == BaseSize(base)
  {
    WrittenIfItFits(dstLen, base);
  }

  /** All of the BASE is in the buffer, and the eight bits that are returned count it. */
  predicate BuiltRight(dstLen: nat, base: Base) {
    !Refused(dstLen, base) && Written(dstLen, base) <= dstLen && Written(dstLen, base) % 0x100 == BaseSize(base)
  }

  /** The builder does what it seems to promise exactly for a BASE that fits in its buffer and
      in 255 bytes. */
  lemma BuiltRightIffItFits(dstLen: nat, base: Base)
    ensures BuiltRight(dstLen, base) <==> BaseSize(base) <= dstLen && BaseSize(base) <= 0xFF
  {
    if BaseSize(base) <= dstLen {
      WrittenIfItFits(dstLen, base);
    }
  }

  /** Too much for the room is refused as long as eight bits can count it; a room of 255 bytes or
      more never refuses anything, whatever is written. */
  lemma OverrunIsRefused(dstLen: nat, base: Base)
    ensures dstLen < Written(dstLen, base) <= 0xFF ==> Refused(dstLen, base)
    ensures dstLen >= 0xFF ==> !Refused(dstLen, base)
    ensures Refused(dstLen, base) ==> Written(dstLen, base) > dstLen
  {
  }

  function BareBises(n: nat): (r: seq<Bis>)
    ensures |r| == n && forall j :: 0 <= j < n ==> r[j] == Bis(0, NO_CSC)
  {
    seq(n, _ => Bis(0, NO_CSC))
  }

  lemma BareCsc(room: int)
    ensures |Filled(room, NO_CSC)| == 1 && FullSize(NO_CSC) == 1
  {
    assert FieldBytes(NO_CSC, 5, 1, room) == [] && FieldBytes(NO_CSC, 4, 1, room) == [];
    assert FieldBytes(NO_CSC, 3, 1, room) == [] && FieldBytes(NO_CSC, 2, 1, room) == [];
  }

  lemma {:induction false} BareBisesAreWritten(used: nat, dstLen: nat, bs: seq<Bis>)
    requires forall j :: 0 <= j < |bs| ==> bs[j] == Bis(0, NO_CSC)
    ensures |BisesBytes(used, dstLen, bs)| == BisesSize(bs) == 2 * |bs|
    decreases |bs|
  {
    if bs != [] {
      BareCsc(dstLen - used - 1);
      BareBisesAreWritten(used + 2, dstLen, bs[1..]);
    }
  }

  predicate IsBare(g: Subgroup) {
    g.csc == NO_CSC && g.metadata == Metadata.NO_CONTEXTS && g.bises == BareBises(|g.bises|)
  }

  lemma BareOwnIsWritten(used: nat, dstLen: nat, g: Subgroup)
    requires IsBare(g)
    ensures |SubgroupOwn(used, dstLen, g)| == OwnSize(g) == 8
  {
    BareCsc(dstLen - used - 6);
  }

  lemma BareSubgroupIsWritten(used: nat, dstLen: nat, g: Subgroup)
    requires IsBare(g)
    ensures |SubgroupBytes(used, dstLen, g)| == SubgroupSize(g) == 8 + 2 * |g.bises|
  {
    BareOwnIsWritten(used, dstLen, g);
    BareBisesAreWritten(used + 8, dstLen, g.bises);
  }

  /** One subgroup with `n` BISes, none of which sets anything. */
  function BareBase(n: Byte): Base {
    Base(0, [Subgroup(CodecId(0, 0, 0), NO_CSC, Metadata.NO_CONTEXTS, BareBises(n))])
  }

  lemma OneSubgroupIsWritten(dstLen: nat, base: Base, g: Subgroup)
    requires base.subgroups == [g] && IsBare(g)
    ensures Written(dstLen, base) == BaseSize(base) == 16 + 2 * |g.bises|
  {
    var gs := base.subgroups;
    var first := SubgroupBytes(8, dstLen, g);
    BareSubgroupIsWritten(8, dstLen, g);
    assert gs[0] == g && gs[1..] == [];
    assert SubgroupsBytes(8 + |first|, dstLen, gs[1..]) == [] && SubgroupsSize(gs[1..]) == 0;
    assert SubgroupsBytes(8, dstLen, gs) == first + [] == first;
  }

  /** It is written whole into a buffer of any size. */
  lemma BareBaseIsWritten(dstLen: nat, n: Byte)
    ensures Written(dstLen, BareBase(n)) == BaseSize(BareBase(n)) == 16 + 2 * n
  {
    OneSubgroupIsWritten(dstLen, BareBase(n), BareBase(n).subgroups[0]);
  }

  /** With 125 of them, 266 bytes go into the 252 bytes that the callers provide; nothing is
      refused, and 10 is reported. */
  lemma OverrunGoesUnnoticed()
    ensures Written(252, BareBase(125)) == 266 && !Refused(252, BareBase(125))
    ensures Written(252, BareBase(125)) % 0x100 == 10
  {
    BareBaseIsWritten(252, 125);
  }

  /** Checks the count of what was written, and fills in the length byte if it is not refused. */
  method FinishBase(dst: array<Byte>, dstLen: nat, k: nat, base: Base, ghost start: seq<Byte>, ghost rest: seq<Byte>)
    returns (n: Byte)
    requires start != [] && Built(dst[..], start, BaseHead(start[0], base) + rest)
    modifies dst
    ensures n == if k % 0x100 > dstLen then 0 else k % 0x100
    ensures var length := if k % 0x100 > dstLen then start[0] else LengthByte(k);
            Built(dst[..], start, BaseHead(length, base) + rest)
  {
    n := k % 0x100;
    if n > dstLen {
      return 0;
    }
    LengthByteLast(dst[..], start, start[0], LengthByte(k), base, rest);
    dst[0] := LengthByte(k);
  }

  /** Everything but the length byte. */
  method BuildBaseBody(dst: array<Byte>, dstLen: nat, base: Base) returns (k: nat)
    requires Written(dstLen, base) <= dst.Length
    modifies dst
    ensures k == Written(dstLen, base) && old(dst[..]) != []
    ensures Built(dst[..], old(dst[..]), BaseHead(old(dst[0]), base) + SubgroupsBytes(8, dstLen, base.subgroups))
  {
    ghost var start := dst[..];
    k := BuildBaseHead(dst, base);
    k := BuildSubgroups(dst, dstLen, k, base.subgroups, start, BaseHead(start[0], base));
  }

  lemma FirstByteIs(now: seq<Byte>, start: seq<Byte>, length: Byte, dstLen: nat, base: Base)
    requires Built(now, start, BaseBytes(length, dstLen, base))
    ensures now != [] && now[0] == length
  {
    assert BaseBytes(length, dstLen, base)[0] == BaseHead(length, base)[0];
  }

  lemma BuiltIsCounted(now: seq<Byte>, start: seq<Byte>, dstLen: nat, base: Base)
    requires BaseSize(base) <= dstLen && BaseSize(base) <= 0xFF
    requires Built(now, start, BaseBytes(LengthByte(Written(dstLen, base)), dstLen, base))
    ensures now != [] && now[0] == BaseSize(base) - 1
  {
    LengthIsSize(dstLen, base);
    FirstByteIs(now, start, LengthByte(Written(dstLen, base)), dstLen, base);
  }

  /** Writes first and checks afterwards: `dst` is the memory from the buffer on, which has to
      hold what is written; `dstLen` is the size of the buffer. */
  method BuildBaseData(dst: array<Byte>, dstLen: nat, base: Base) returns (n: Byte)
    requires Written(dstLen, base) <= dst.Length
    modifies dst
    ensures n == if Refused(dstLen, base) then 0 else Written(dstLen, base) % 0x100
    ensures var length := if Refused(dstLen, base) then old(dst[0]) else LengthByte(Written(dstLen, base));
            Built(dst[..], old(dst[..]), BaseBytes(length, dstLen, base))
    ensures BaseSize(base) <= dstLen ==> n == BaseSize(base) % 0x100
    ensures BaseSize(base) <= dstLen && BaseSize(base) <= 0xFF ==> dst[0] == BaseSize(base) - 1
  {
    ghost var start, rest := dst[..], SubgroupsBytes(8, dstLen, base.subgroups);
    var k := BuildBaseBody(dst, dstLen, base);
    n := FinishBase(dst, dstLen, k, base, start, rest);
    if BaseSize(base) <= dstLen {
      WrittenIfItFits(dstLen, base);
      if BaseSize(base) <= 0xFF { BuiltIsCounted(dst[..], start, dstLen, base); }
    }
  }
}
