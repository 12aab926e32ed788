/** The parser of the BASE, and what building and parsing make of a BASE together. */
module BroadcastParser {
  import opened Bytes
  import opened CodecConfig
  import opened AscsCommands
  import opened Broadcast
  import Metadata

  /** `at` is where the parser stands and `left` its running count of bytes left. `Overrun`
      stands for reading past the end of the memory that was received. */
  datatype Parsing<T> = Ok(value: T, at: nat, left: nat) | Refused | Overrun

  // ---- The parser ----

  // The types show that no count ever goes below zero; the postconditions show that position
  // and count move together.

  /** The counted configuration at `k`, laid over `d`. */
  function CountedCsc(s: seq<Byte>, k: nat, d: Csc): (Csc, CodecConfig.Status)
    requires k < |s|
  {
    Parsed(s, k + 1, s[k], d)
  }

  /** The counted contexts at `k`, laid over `prior`. */
  function CountedContexts(s: seq<Byte>, k: nat, prior: Metadata.Contexts): (Metadata.Contexts, Metadata.Status)
    requires k < |s|
  {
    Metadata.Got(s, k + 1, s[k], prior)
  }

  function BisParsed(s: seq<Byte>, k: nat, left: nat, c: Csc): (r: Parsing<Bis>)
    ensures r.Ok? ==> r.at + r.left == k + left
  {
    if left < 2 then Refused
    else if k + 2 > |s| then Overrun
    else if left - 2 < s[k + 1] then Refused
    else
      var (csc, status) := CountedCsc(s, k + 1, c);
      if status.Overread? then Overrun
      else Ok(Bis(s[k], csc), k + 2 + s[k + 1], left - 2 - s[k + 1])
  }

  function BisesParsed(s: seq<Byte>, k: nat, left: nat, n: Byte, c: Csc): (r: Parsing<seq<Bis>>)
    ensures r.Ok? ==> r.at + r.left == k + left && |r.value| == n
    decreases n
  {
    if n == 0 then Ok([], k, left)
    else
      match BisParsed(s, k, left, c)
      case Ok(b, k1, left1) =>
        (match BisesParsed(s, k1, left1, n - 1, c)
         case Ok(bs, k2, left2) => Ok([b] + bs, k2, left2)
         case Refused => Refused
         case Overrun => Overrun)
      case Refused => Refused
      case Overrun => Overrun
  }

  /** A subgroup without its BISes; its first byte says how many of them follow. Eight bytes are subtracted at
      once: seven up to the configuration's length, one for the length of the metadata. */
  function OwnParsed(s: seq<Byte>, k: nat, left: nat, prior: Metadata.Contexts): (r: Parsing<Subgroup>)
    requires left >= 8
    ensures r.Ok? ==> r.at + r.left == k + left && k < |s|
  {
    if k + 7 > |s| then Overrun
    else if left - 8 < s[k + 6] then Refused
    else
      var id := CodecId(s[k + 1], Read(s, k + 2, 2), Read(s, k + 4, 2));
      var (csc, status) := CountedCsc(s, k + 6, NO_CSC);
      var m := k + 7 + s[k + 6];
      if status.Overread? || m + 1 > |s| then Overrun
      else if left - 8 - s[k + 6] < s[m] then Refused
      else
        var (contexts, cut) := CountedContexts(s, m, prior);
        if cut.CutShort? then Overrun
        else Ok(Subgroup(id, csc, contexts, []), m + 1 + s[m], left - 8 - s[k + 6] - s[m])
  }

  function SubgroupParsed(s: seq<Byte>, k: nat, left: nat, prior: Metadata.Contexts): (r: Parsing<Subgroup>)
    requires left >= 8
    ensures r.Ok? ==> r.at + r.left == k + left
  {
    match OwnParsed(s, k, left, prior)
    case Ok(g, k1, left1) =>
      (match BisesParsed(s, k1, left1, s[k], g.csc)
       case Ok(bs, k2, left2) => Ok(g.(bises := bs), k2, left2)
       case Refused => Refused
       case Overrun => Overrun)
    case Refused => Refused
    case Overrun => Overrun
  }

  /** The contexts that the target holds for subgroup `i` before parsing. They are not cleared. */
  function Prior(priors: seq<Metadata.Contexts>, i: nat): Metadata.Contexts {
    if i < |priors| then priors[i] else Metadata.NO_CONTEXTS
  }

  /** Subgroups `i` to `n`; fewer, without complaint, when less than eight bytes are left. */
  function SubgroupsParsed(s: seq<Byte>, k: nat, left: nat, i: nat, n: Byte, priors: seq<Metadata.Contexts>):
    (r: Parsing<seq<Subgroup>>)
    requires i <= n
    ensures r.Ok? ==> r.at + r.left == k + left && |r.value| <= n - i
    ensures r.Ok? && |r.value| < n - i ==> r.left < 8
    decreases n - i
  {
    if i == n || left < 8 then Ok([], k, left)
    else
      match SubgroupParsed(s, k, left, Prior(priors, i))
      case Ok(g, k1, left1) =>
        (match SubgroupsParsed(s, k1, left1, i + 1, n, priors)
         case Ok(gs, k2, left2) => Ok([g] + gs, k2, left2)
         case Refused => Refused
         case Overrun => Overrun)
      case Refused => Refused
      case Overrun => Overrun
  }

  /** The eight-bit count behind the header. Six bytes are read, four are subtracted. */
  function LeftAfterHeader(n: Byte): Byte {
    if n < 4 then n + 0xFC else n - 4
  }

  /** `k` is where the UUID stands, `n` the length of the announcement from there. The count of
      bytes left is two too high, always; it wraps around only for `n` below four. */
  function BaseParsed(s: seq<Byte>, k: nat, n: Byte, priors: seq<Metadata.Contexts>): (r: Parsing<Base>)
    ensures r.Ok? && n >= 4 ==> r.at + r.left == k + n + 2
    ensures r.Ok? && n < 4 ==> r.at + r.left == k + n + 2 + 0x100
  {
    if k + 6 > |s| then Overrun
    else
      match SubgroupsParsed(s, k + 6, LeftAfterHeader(n), 0, s[k + 5], priors)
      case Ok(gs, e, left) => Ok(Base(Read(s, k + 2, 3), gs), e, left)
      case Refused => Refused
      case Overrun => Overrun
  }

  // ---- Parsing in a loop ----

  method ParseBis(data: array<Byte>, k: nat, left: nat, c: Csc) returns (r: Parsing<Bis>)
    ensures r == BisParsed(data[..], k, left, c)
  {
    if left < 2 {
      return Refused;
    }
    if k + 2 > data.Length {
      return Overrun;
    }
    var index, length := data[k], data[k + 1];
    if left - 2 < length {
      return Refused;
    }
    var csc, status := ParseCsc(data, k + 2, length, c);
    return if status.Overread? then Overrun else Ok(Bis(index, csc), k + 2 + length, left - 2 - length);
  }

  /** Puts what was read before in front of what is read from here on. */
  function Behind<T>(done: seq<T>, r: Parsing<seq<T>>): Parsing<seq<T>> {
    match r
    case Ok(rest, k, left) => Ok(done + rest, k, left)
    case Refused => Refused
    case Overrun => Overrun
  }

  lemma OneMoreBis(done: seq<Bis>, s: seq<Byte>, k: nat, left: nat, n: Byte, c: Csc)
    requires n > 0
    ensures var b := BisParsed(s, k, left, c);
            Behind(done, BisesParsed(s, k, left, n, c)) ==
            if b.Ok? then Behind(done + [b.value], BisesParsed(s, b.at, b.left, n - 1, c))
            else if b.Refused? then Refused else Overrun
  {
    var b := BisParsed(s, k, left, c);
    if b.Ok? && BisesParsed(s, b.at, b.left, n - 1, c).Ok? {
      var bs := BisesParsed(s, b.at, b.left, n - 1, c).value;
      assert done + ([b.value] + bs) == (done + [b.value]) + bs;
    }
  }

  lemma NoMoreBis(done: seq<Bis>, s: seq<Byte>, k: nat, left: nat, c: Csc)
    ensures Behind(done, BisesParsed(s, k, left, 0, c)) == Ok(done, k, left)
  {
    assert done + [] == done;
  }

  lemma NothingBefore<T>(r: Parsing<seq<T>>)
    ensures Behind([], r) == r
  {
    assert r.Ok? ==> [] + r.value == r.value;
  }

  method ParseBises(data: array<Byte>, at: nat, count: nat, n: Byte, c: Csc) returns (r: Parsing<seq<Bis>>)
    ensures r == BisesParsed(data[..], at, count, n, c)
  {
    var k, left := at, count;
    var done: seq<Bis> := [];
    ghost var s := data[..];
    NothingBefore(BisesParsed(s, at, count, n, c));
    var j: Byte := 0;
    while j < n
      invariant 0 <= j <= n && |done| == j
      invariant Behind(done, BisesParsed(s, k, left, n - j, c)) == BisesParsed(s, at, count, n, c)
    {
      OneMoreBis(done, s, k, left, n - j, c);
      var b := ParseBis(data, k, left, c);
      match b {
        case Ok(bis, k1, left1) =>
          done, k, left, j := done + [bis], k1, left1, j + 1;
        case Refused => return Refused;
        case Overrun => return Overrun;
      }
    }
    NoMoreBis(done, s, k, left, c);
    r := Ok(done, k, left);
  }

  method ParseOwn(data: array<Byte>, k: nat, left: nat, prior: Metadata.Contexts) returns (r: Parsing<Subgroup>)
    requires left >= 8
    ensures r == OwnParsed(data[..], k, left, prior)
  {
    if k + 7 > data.Length {
      return Overrun;
    }
    var length := data[k + 6];
    var id := CodecId(data[k + 1], Read(data[..], k + 2, 2), Read(data[..], k + 4, 2));
    if left - 8 < length {
      return Refused;
    }
    var csc, status := ParseCsc(data, k + 7, length, NO_CSC);
    var m := k + 7 + length;
    if status.Overread? || m + 1 > data.Length {
      return Overrun;
    }
    var metadataLength := data[m];
    if left - 8 - length < metadataLength {
      return Refused;
    }
    var contexts, cut := Metadata.GetMetadata(data, m + 1, metadataLength, prior);
    return if cut.CutShort? then Overrun
           else Ok(Subgroup(id, csc, contexts, []), m + 1 + metadataLength, left - 8 - length - metadataLength);
  }

  method ParseSubgroup(data: array<Byte>, k: nat, left: nat, prior: Metadata.Contexts) returns (r: Parsing<Subgroup>)
    requires left >= 8
    ensures r == SubgroupParsed(data[..], k, left, prior)
  {
    var own := ParseOwn(data, k, left, prior);
    match own
    case Ok(g, k1, left1) =>
      var bs := ParseBises(data, k1, left1, data[k], g.csc);
      match bs {
        case Ok(bises, k2, left2) => r := Ok(g.(bises := bises), k2, left2);
        case Refused => r := Refused;
        case Overrun => r := Overrun;
      }
    case Refused => r := Refused;
    case Overrun => r := Overrun;
  }

  lemma OneMoreSubgroup(done: seq<Subgroup>, s: seq<Byte>, k: nat, left: nat, i: nat, n: Byte, priors: seq<Metadata.Contexts>)
    requires i < n && left >= 8
    ensures var g := SubgroupParsed(s, k, left, Prior(priors, i));
            Behind(done, SubgroupsParsed(s, k, left, i, n, priors)) ==
            if g.Ok? then Behind(done + [g.value], SubgroupsParsed(s, g.at, g.left, i + 1, n, priors))
            else if g.Refused? then Refused else Overrun
  {
    var g := SubgroupParsed(s, k, left, Prior(priors, i));
    if g.Ok? && SubgroupsParsed(s, g.at, g.left, i + 1, n, priors).Ok? {
      var gs := SubgroupsParsed(s, g.at, g.left, i + 1, n, priors).value;
      assert done + ([g.value] + gs) == (done + [g.value]) + gs;
    }
  }

  method ParseSubgroups(data: array<Byte>, at: nat, count: nat, n: Byte, priors: seq<Metadata.Contexts>)
    returns (r: Parsing<seq<Subgroup>>)
    ensures r == SubgroupsParsed(data[..], at, count, 0, n, priors)
  {
    var k, left := at, count;
    var done: seq<Subgroup> := [];
    ghost var s := data[..];
    NothingBefore(SubgroupsParsed(s, at, count, 0, n, priors));
    var i: Byte := 0;
    while i < n && left >= 8
      invariant 0 <= i <= n && |done| == i
      invariant Behind(done, SubgroupsParsed(s, k, left, i, n, priors)) == SubgroupsParsed(s, at, count, 0, n, priors)
      decreases n - i
    {
      OneMoreSubgroup(done, s, k, left, i, n, priors);
      var g := ParseSubgroup(data, k, left, Prior(priors, i));
      match g {
        case Ok(sub, k1, left1) =>
          done, k, left, i := done + [sub], k1, left1, i + 1;
        case Refused => return Refused;
        case Overrun => return Overrun;
      }
    }
    r := Ok(done, k, left);
    assert done + [] == done;
  }

  method ParseBaseInfo(data: array<Byte>, k: nat, n: Byte, priors: seq<Metadata.Contexts>) returns (r: Parsing<Base>)
    ensures r == BaseParsed(data[..], k, n, priors)
  {
    if k + 6 > data.Length {
      return Overrun;
    }
    var delay := Read(data[..], k + 2, 3);
    var gs := ParseSubgroups(data, k + 6, LeftAfterHeader(n), data[k + 5], priors);
    match gs
    case Ok(subgroups, e, left) => r := Ok(Base(delay, subgroups), e, left);
    case Refused => r := Refused;
    case Overrun => r := Overrun;
  }

  // ---- Building and parsing together ----

  /** The parse succeeded with `value` and moved `n` bytes. */
  predicate Gives<T(==)>(r: Parsing<T>, value: T, k: nat, left: nat, n: nat) {
    r.Ok? && r.value == value && r.at == k + n && r.left == left - n
  }

  lemma BisesStep(s: seq<Byte>, k: nat, left: nat, n: Byte, c: Csc, b: Bis, m: nat, bs: seq<Bis>, m': nat)
    requires n > 0 && m + m' <= left
    requires Gives(BisParsed(s, k, left, c), b, k, left, m)
    requires Gives(BisesParsed(s, k + m, left - m, n - 1, c), bs, k + m, left - m, m')
    ensures Gives(BisesParsed(s, k, left, n, c), [b] + bs, k, left, m + m')
  {
  }

  lemma SubgroupStep(s: seq<Byte>, k: nat, left: nat, prior: Metadata.Contexts,
                     g: Subgroup, m: nat, bs: Bises, m': nat)
    requires left >= 8 && m + m' <= left && k < |s|
    requires Gives(OwnParsed(s, k, left, prior), g, k, left, m)
    requires Gives(BisesParsed(s, k + m, left - m, s[k], g.csc), bs, k + m, left - m, m')
    ensures Gives(SubgroupParsed(s, k, left, prior), g.(bises := bs), k, left, m + m')
  {
  }

  lemma SubgroupsStep(s: seq<Byte>, k: nat, left: nat, i: nat, n: Byte, priors: seq<Metadata.Contexts>,
                      g: Subgroup, m: nat, gs: seq<Subgroup>, m': nat)
    requires left >= 8 && i < n && m + m' <= left
    requires Gives(SubgroupParsed(s, k, left, Prior(priors, i)), g, k, left, m)
    requires Gives(SubgroupsParsed(s, k + m, left - m, i + 1, n, priors), gs, k + m, left - m, m')
    ensures Gives(SubgroupsParsed(s, k, left, i, n, priors), [g] + gs, k, left, m + m')
  {
  }

  function ResolvedBises(bs: seq<Bis>, c: Csc): (r: seq<Bis>)
    ensures |r| == |bs|
  {
    seq(|bs|, j requires 0 <= j < |bs| => Bis(bs[j].index, CodecConfig.Overridden(c, bs[j].csc)))
  }

  /** Every BIS gets the configuration of its subgroup, overridden by what it sets itself. */
  function ResolvedSubgroup(g: Subgroup, prior: Metadata.Contexts): Subgroup {
    g.(metadata := Metadata.Overridden(prior, g.metadata), bises := ResolvedBises(g.bises, g.csc))
  }

  function ResolvedSubgroups(gs: seq<Subgroup>, i: nat, priors: seq<Metadata.Contexts>): (r: seq<Subgroup>)
    ensures |r| == |gs|
  {
    seq(|gs|, j requires 0 <= j < |gs| => ResolvedSubgroup(gs[j], Prior(priors, i + j)))
  }

  function Resolved(base: Base, priors: seq<Metadata.Contexts>): Base {
    Base(base.delay % 0x100_0000, ResolvedSubgroups(base.subgroups, 0, priors))
  }

  predicate SoundBises(bs: seq<Bis>) {
    forall j :: 0 <= j < |bs| ==> Tabulated(bs[j].csc)
  }

  /** Frequencies, durations and contexts are ones that the format knows. */
  predicate SoundSubgroup(g: Subgroup) {
    && Tabulated(g.csc) && SoundBises(g.bises)
    && Metadata.Defined(g.metadata.preferred) && Metadata.Defined(g.metadata.streaming)
  }

  predicate AllSound(gs: seq<Subgroup>) {
    forall j :: 0 <= j < |gs| ==> SoundSubgroup(gs[j])
  }

  predicate Sound(base: Base) {
    AllSound(base.subgroups)
  }

  // ---- What the parser finds where a BASE was built ----

  /** A counted configuration stands at `k`: whatever it is laid over, it sets what `c` sets. */
  ghost predicate CscStands(s: seq<Byte>, k: nat, c: Csc) {
    && k < |s| && s[k] == FullSize(c) - 1
    && forall d :: CountedCsc(s, k, d).0 == CodecConfig.Overridden(d, c) && CountedCsc(s, k, d).1 == Success
  }

  ghost predicate ContextsStand(s: seq<Byte>, k: nat, m: Metadata.Contexts) {
    && k < |s| && s[k] == Metadata.FullSize(m) - 1
    && forall d :: CountedContexts(s, k, d).0 == Metadata.Overridden(d, m) && CountedContexts(s, k, d).1 == Metadata.Fine
  }

  ghost predicate BisStands(s: seq<Byte>, k: nat, b: Bis) {
    k < |s| && s[k] == b.index && CscStands(s, k + 1, b.csc)
  }

  ghost predicate BisesStand(s: seq<Byte>, k: nat, bs: seq<Bis>)
    decreases |bs|
  {
    bs == [] || (BisStands(s, k, bs[0]) && BisesStand(s, k + 1 + FullSize(bs[0].csc), bs[1..]))
  }

  predicate HeadStands(s: seq<Byte>, k: nat, g: Subgroup) {
    && k + 6 <= |s| && s[k] == |g.bises| && s[k + 1] == g.codec.format
    && Read(s, k + 2, 2) == g.codec.company && Read(s, k + 4, 2) == g.codec.vendor
  }

  ghost predicate OwnStands(s: seq<Byte>, k: nat, g: Subgroup) {
    HeadStands(s, k, g) && CscStands(s, k + 6, g.csc) && ContextsStand(s, k + 6 + FullSize(g.csc), g.metadata)
  }

  ghost predicate SubgroupStands(s: seq<Byte>, k: nat, g: Subgroup) {
    OwnStands(s, k, g) && BisesStand(s, k + OwnSize(g), g.bises)
  }

  ghost predicate SubgroupsStand(s: seq<Byte>, k: nat, gs: seq<Subgroup>)
    decreases |gs|
  {
    gs == []
    || (SubgroupStands(s, k, gs[0]) && SubgroupsStand(s, k + SubgroupSize(gs[0]), gs[1..]))
  }

  lemma BuiltCscStands(s: seq<Byte>, k: nat, room: int, c: Csc)
    requires At(s, k, Filled(room, c)) && Tabulated(c) && room >= FullSize(c)
    ensures CscStands(s, k, c)
  {
    ReducedIsWholeIfItFits(room, c);
    FilledIsCounted(s, k, room, c);
    forall d
      ensures CountedCsc(s, k, d).0 == CodecConfig.Overridden(d, c) && CountedCsc(s, k, d).1 == Success
    {
      FilledIsParsed(s, k, room, c, d);
    }
  }

  lemma BuiltBisStands(s: seq<Byte>, k: nat, used: nat, dstLen: nat, b: Bis)
    requires At(s, k, BisBytes(used, dstLen, b)) && Tabulated(b.csc) && used + 1 + FullSize(b.csc) <= dstLen
    ensures BisStands(s, k, b)
  {
    AtSplit(s, k, Le(b.index, 1), Filled(dstLen - used - 1, b.csc));
    SingleByte(b.index);
    ByteAt(s, k, Le(b.index, 1), 0);
    BuiltCscStands(s, k + 1, dstLen - used - 1, b.csc);
  }

  lemma BisesAreSplit(s: seq<Byte>, k: nat, used: nat, dstLen: nat, bs: seq<Bis>)
    requires bs != [] && At(s, k, BisesBytes(used, dstLen, bs)) && used + BisesSize(bs) <= dstLen
    ensures At(s, k, BisBytes(used, dstLen, bs[0]))
    ensures var n := 1 + FullSize(bs[0].csc); At(s, k + n, BisesBytes(used + n, dstLen, bs[1..]))
  {
    var n := 1 + FullSize(bs[0].csc);
    BisFits(used, dstLen, bs[0]);
    AtSplit(s, k, BisBytes(used, dstLen, bs[0]), BisesBytes(used + n, dstLen, bs[1..]));
  }

  lemma FirstBisStands(s: seq<Byte>, k: nat, used: nat, dstLen: nat, bs: seq<Bis>)
    requires bs != [] && At(s, k, BisesBytes(used, dstLen, bs)) && SoundBises(bs) && used + BisesSize(bs) <= dstLen
    ensures BisStands(s, k, bs[0])
    ensures var n := 1 + FullSize(bs[0].csc); At(s, k + n, BisesBytes(used + n, dstLen, bs[1..]))
  {
    BisesAreSplit(s, k, used, dstLen, bs);
    BuiltBisStands(s, k, used, dstLen, bs[0]);
  }

  lemma {:induction false} BuiltBisesStand(s: seq<Byte>, k: nat, used: nat, dstLen: nat, bs: seq<Bis>)
    requires At(s, k, BisesBytes(used, dstLen, bs)) && SoundBises(bs) && used + BisesSize(bs) <= dstLen
    ensures BisesStand(s, k, bs)
    decreases |bs|
  {
    if bs != [] {
      var n := 1 + FullSize(bs[0].csc);
      FirstBisStands(s, k, used, dstLen, bs);
      BuiltBisesStand(s, k + n, used + n, dstLen, bs[1..]);
    }
  }

  lemma BuiltHeadStands(s: seq<Byte>, k: nat, g: Subgroup)
    requires At(s, k, SubgroupHead(g))
    ensures HeadStands(s, k, g)
  {
    CodecIdAt(s, k, Le(|g.bises|, 1), g.codec);
    SingleByte(|g.bises|);
    ByteAt(s, k, Le(|g.bises|, 1), 0);
    ReadByte(s, k + 1);
  }

  lemma BuiltContextsStand(s: seq<Byte>, k: nat, room: int, m: Metadata.Contexts)
    requires At(s, k, Metadata.Filled(room, m)) && room >= Metadata.FullSize(m)
    requires Metadata.Defined(m.preferred) && Metadata.Defined(m.streaming)
    ensures ContextsStand(s, k, m)
  {
    Metadata.ReducedIsWholeIfItFits(room, m);
    CountedAt(s, k, Metadata.Fields(room, m));
    forall d
      ensures CountedContexts(s, k, d).0 == Metadata.Overridden(d, m) && CountedContexts(s, k, d).1 == Metadata.Fine
    {
      Metadata.FilledIsRead(s, k, room, m, d);
    }
  }

  lemma OwnIsSplit(s: seq<Byte>, k: nat, used: nat, dstLen: nat, g: Subgroup)
    requires At(s, k, SubgroupOwn(used, dstLen, g)) && used + OwnSize(g) <= dstLen
    ensures At(s, k, SubgroupHead(g)) && At(s, k + 6, Filled(dstLen - used - 6, g.csc))
    ensures At(s, k + 6 + FullSize(g.csc), Metadata.Filled(dstLen - used - 6 - FullSize(g.csc), g.metadata))
  {
    var h, c := SubgroupHead(g), Filled(dstLen - used - 6, g.csc);
    ReducedIsWholeIfItFits(dstLen - used - 6, g.csc);
    AtSplit(s, k, h + c, Metadata.Filled(dstLen - used - 6 - |c|, g.metadata));
    AtSplit(s, k, h, c);
  }

  lemma BuiltOwnCscStands(s: seq<Byte>, k: nat, used: nat, dstLen: nat, g: Subgroup)
    requires At(s, k, SubgroupOwn(used, dstLen, g)) && SoundSubgroup(g) && used + OwnSize(g) <= dstLen
    ensures CscStands(s, k + 6, g.csc)
  {
    OwnIsSplit(s, k, used, dstLen, g);
    BuiltCscStands(s, k + 6, dstLen - used - 6, g.csc);
  }

  lemma BuiltOwnContextsStand(s: seq<Byte>, k: nat, used: nat, dstLen: nat, g: Subgroup)
    requires At(s, k, SubgroupOwn(used, dstLen, g)) && SoundSubgroup(g) && used + OwnSize(g) <= dstLen
    ensures ContextsStand(s, k + 6 + FullSize(g.csc), g.metadata)
  {
    OwnIsSplit(s, k, used, dstLen, g);
    BuiltContextsStand(s, k + 6 + FullSize(g.csc), dstLen - used - 6 - FullSize(g.csc), g.metadata);
  }

  lemma BuiltOwnStands(s: seq<Byte>, k: nat, used: nat, dstLen: nat, g: Subgroup)
    requires At(s, k, SubgroupOwn(used, dstLen, g)) && SoundSubgroup(g) && used + OwnSize(g) <= dstLen
    ensures OwnStands(s, k, g)
  {
    OwnIsSplit(s, k, used, dstLen, g);
    BuiltHeadStands(s, k, g);
    BuiltOwnCscStands(s, k, used, dstLen, g);
    BuiltOwnContextsStand(s, k, used, dstLen, g);
  }

  lemma SubgroupIsSplit(s: seq<Byte>, k: nat, used: nat, dstLen: nat, g: Subgroup)
    requires At(s, k, SubgroupBytes(used, dstLen, g)) && used + SubgroupSize(g) <= dstLen
    ensures At(s, k, SubgroupOwn(used, dstLen, g))
    ensures At(s, k + OwnSize(g), BisesBytes(used + OwnSize(g), dstLen, g.bises))
  {
    OwnFits(used, dstLen, g);
    AtSplit(s, k, SubgroupOwn(used, dstLen, g), BisesBytes(used + OwnSize(g), dstLen, g.bises));
  }

  lemma BuiltSubgroupStands(s: seq<Byte>, k: nat, used: nat, dstLen: nat, g: Subgroup)
    requires At(s, k, SubgroupBytes(used, dstLen, g)) && SoundSubgroup(g) && used + SubgroupSize(g) <= dstLen
    ensures SubgroupStands(s, k, g)
  {
    SubgroupIsSplit(s, k, used, dstLen, g);
    BuiltOwnStands(s, k, used, dstLen, g);
    BuiltBisesStand(s, k + OwnSize(g), used + OwnSize(g), dstLen, g.bises);
  }

  lemma SubgroupsAreSplit(s: seq<Byte>, k: nat, used: nat, dstLen: nat, gs: seq<Subgroup>)
    requires gs != [] && At(s, k, SubgroupsBytes(used, dstLen, gs)) && used + SubgroupsSize(gs) <= dstLen
    ensures At(s, k, SubgroupBytes(used, dstLen, gs[0]))
    ensures var size := SubgroupSize(gs[0]); At(s, k + size, SubgroupsBytes(used + size, dstLen, gs[1..]))
  {
    var size := SubgroupSize(gs[0]);
    SubgroupFits(used, dstLen, gs[0]);
    AtSplit(s, k, SubgroupBytes(used, dstLen, gs[0]), SubgroupsBytes(used + size, dstLen, gs[1..]));
  }

  /** The builder's bytes for sound subgroups, all of which fitted, are at `k`. */
  ghost predicate Laid(s: seq<Byte>, k: nat, used: nat, dstLen: nat, gs: seq<Subgroup>) {
    At(s, k, SubgroupsBytes(used, dstLen, gs)) && AllSound(gs) && used + SubgroupsSize(gs) <= dstLen
  }

  lemma FirstSubgroupStands(s: seq<Byte>, k: nat, used: nat, dstLen: nat, gs: seq<Subgroup>)
    requires gs != [] && Laid(s, k, used, dstLen, gs)
    ensures SubgroupStands(s, k, gs[0])
    ensures var size := SubgroupSize(gs[0]); Laid(s, k + size, used + size, dstLen, gs[1..])
  {
    SubgroupsAreSplit(s, k, used, dstLen, gs);
    BuiltSubgroupStands(s, k, used, dstLen, gs[0]);
  }

  lemma {:induction false} BuiltSubgroupsStand(s: seq<Byte>, k: nat, used: nat, dstLen: nat, gs: seq<Subgroup>)
    requires Laid(s, k, used, dstLen, gs)
    ensures SubgroupsStand(s, k, gs)
    decreases |gs|
  {
    if gs != [] {
      var size := SubgroupSize(gs[0]);
      FirstSubgroupStands(s, k, used, dstLen, gs);
      BuiltSubgroupsStand(s, k + size, used + size, dstLen, gs[1..]);
    }
  }

  // ---- Parsing what stands ----

  lemma BisIsParsed(s: seq<Byte>, k: nat, b: Bis, left: nat, c: Csc)
    requires BisStands(s, k, b) && 1 + FullSize(b.csc) <= left
    ensures Gives(BisParsed(s, k, left, c), Bis(b.index, CodecConfig.Overridden(c, b.csc)), k, left, 1 + FullSize(b.csc))
  {
  }

  lemma {:induction false} BisesAreParsed(s: seq<Byte>, k: nat, bs: Bises, left: nat, c: Csc)
    requires BisesStand(s, k, bs) && BisesSize(bs) <= left
    ensures Gives(BisesParsed(s, k, left, |bs|, c), ResolvedBises(bs, c), k, left, BisesSize(bs))
    decreases |bs|
  {
    if bs == [] {
      assert ResolvedBises(bs, c) == [];
    } else {
      var n := 1 + FullSize(bs[0].csc);
      BisIsParsed(s, k, bs[0], left, c);
      BisesAreParsed(s, k + n, bs[1..], left - n, c);
      var b, rest := Bis(bs[0].index, CodecConfig.Overridden(c, bs[0].csc)), ResolvedBises(bs[1..], c);
      assert ResolvedBises(bs, c) == [b] + rest;
      BisesStep(s, k, left, |bs|, c, b, n, rest, BisesSize(bs[1..]));
    }
  }

  function OwnOf(g: Subgroup, prior: Metadata.Contexts): Subgroup {
    g.(metadata := Metadata.Overridden(prior, g.metadata), bises := [])
  }

  lemma OwnIsParsed(s: seq<Byte>, k: nat, g: Subgroup, left: nat, prior: Metadata.Contexts)
    requires OwnStands(s, k, g) && OwnSize(g) <= left
    ensures Gives(OwnParsed(s, k, left, prior), OwnOf(g, prior), k, left, OwnSize(g))
  {
    assert CodecConfig.Overridden(NO_CSC, g.csc) == g.csc;
  }

  lemma SubgroupIsParsed(s: seq<Byte>, k: nat, g: Subgroup, left: nat, prior: Metadata.Contexts)
    requires SubgroupStands(s, k, g) && SubgroupSize(g) <= left
    ensures Gives(SubgroupParsed(s, k, left, prior), ResolvedSubgroup(g, prior), k, left, SubgroupSize(g))
  {
    OwnIsParsed(s, k, g, left, prior);
    BisesAreParsed(s, k + OwnSize(g), g.bises, left - OwnSize(g), g.csc);
    SubgroupStep(s, k, left, prior, OwnOf(g, prior), OwnSize(g), ResolvedBises(g.bises, g.csc), BisesSize(g.bises));
  }

  lemma FirstResolved(gs: seq<Subgroup>, i: nat, priors: seq<Metadata.Contexts>)
    requires gs != []
    ensures ResolvedSubgroups(gs, i, priors)
            == [ResolvedSubgroup(gs[0], Prior(priors, i))] + ResolvedSubgroups(gs[1..], i + 1, priors)
  {
    var r, rest := ResolvedSubgroups(gs, i, priors), ResolvedSubgroups(gs[1..], i + 1, priors);
    assert forall j :: 0 <= j < |rest| ==> r[j + 1] == rest[j];
    assert r == [r[0]] + r[1..] && r[1..] == rest;
  }

  /** Wherever the parser comes from, it reads `g` at `k`. */
  ghost predicate Yields(s: seq<Byte>, k: nat, g: Subgroup) {
    forall left: nat, prior :: left >= SubgroupSize(g) ==>
      Gives(SubgroupParsed(s, k, left, prior), ResolvedSubgroup(g, prior), k, left, SubgroupSize(g))
  }

  ghost predicate AllYield(s: seq<Byte>, k: nat, gs: seq<Subgroup>)
    decreases |gs|
  {
    gs == [] || (Yields(s, k, gs[0]) && AllYield(s, k + SubgroupSize(gs[0]), gs[1..]))
  }

  lemma StandingYields(s: seq<Byte>, k: nat, g: Subgroup)
    requires SubgroupStands(s, k, g)
    ensures Yields(s, k, g)
  {
    forall left: nat, prior | left >= SubgroupSize(g)
      ensures Gives(SubgroupParsed(s, k, left, prior), ResolvedSubgroup(g, prior), k, left, SubgroupSize(g))
    {
      SubgroupIsParsed(s, k, g, left, prior);
    }
  }

  lemma {:induction false} AllStandingYield(s: seq<Byte>, k: nat, gs: seq<Subgroup>)
    requires SubgroupsStand(s, k, gs)
    ensures AllYield(s, k, gs)
    decreases |gs|
  {
    if gs != [] {
      StandingYields(s, k, gs[0]);
      AllStandingYield(s, k + SubgroupSize(gs[0]), gs[1..]);
    }
  }

  lemma {:induction false} SubgroupsAreParsed(s: seq<Byte>, k: nat, gs: seq<Subgroup>, left: nat, i: nat, n: Byte,
                                              priors: seq<Metadata.Contexts>)
    requires AllYield(s, k, gs) && i + |gs| == n && SubgroupsSize(gs) <= left
    ensures Gives(SubgroupsParsed(s, k, left, i, n, priors), ResolvedSubgroups(gs, i, priors), k, left, SubgroupsSize(gs))
    decreases |gs|
  {
    if gs == [] {
      assert ResolvedSubgroups(gs, i, priors) == [];
    } else {
      var size := SubgroupSize(gs[0]);
      SubgroupsAreParsed(s, k + size, gs[1..], left - size, i + 1, n, priors);
      FirstResolved(gs, i, priors);
      SubgroupsStep(s, k, left, i, n, priors, ResolvedSubgroup(gs[0], Prior(priors, i)), size,
                    ResolvedSubgroups(gs[1..], i + 1, priors), SubgroupsSize(gs[1..]));
    }
  }

  lemma BaseHeadAt(s: seq<Byte>, k: nat, length: Byte, base: Base)
    requires At(s, k, BaseHead(length, base))
    ensures k + 8 <= |s| && s[k] == length && s[k + 1] == SERVICE_DATA
    ensures Read(s, k + 2, 2) == BASIC_AUDIO_ANNOUNCEMENT
    ensures Read(s, k + 4, 3) == base.delay % 0x100_0000 && s[k + 7] == |base.subgroups|
  {
    Capacities();
    var b1 := [length, SERVICE_DATA];
    var b2 := b1 + Le(BASIC_AUDIO_ANNOUNCEMENT, 2);
    var b3 := b2 + Le(base.delay, 3);
    AtSplit(s, k, b3, [|base.subgroups|]);
    ByteAt(s, k + 7, [|base.subgroups|], 0);
    LastDelay(s, k, b2, base.delay);
    LastNumber(s, k, b1, BASIC_AUDIO_ANNOUNCEMENT, 2);
    ByteAt(s, k, b1, 0);
    ByteAt(s, k, b1, 1);
  }

  ghost predicate BaseStands(s: seq<Byte>, k: nat, length: Byte, base: Base) {
    && k + BaseSize(base) <= |s| && s[k] == length
    && Read(s, k + 4, 3) == base.delay % 0x100_0000 && s[k + 7] == |base.subgroups|
    && AllYield(s, k + 8, base.subgroups)
  }

  lemma BaseIsSplit(s: seq<Byte>, k: nat, length: Byte, dstLen: nat, base: Base)
    requires BaseSize(base) <= dstLen && At(s, k, BaseBytes(length, dstLen, base))
    ensures k + BaseSize(base) <= |s|
    ensures At(s, k, BaseHead(length, base)) && At(s, k + 8, SubgroupsBytes(8, dstLen, base.subgroups))
  {
    SubgroupsFit(8, dstLen, base.subgroups);
    AtSplit(s, k, BaseHead(length, base), SubgroupsBytes(8, dstLen, base.subgroups));
  }

  lemma BuiltBaseStands(s: seq<Byte>, k: nat, length: Byte, dstLen: nat, base: Base)
    requires Sound(base) && BaseSize(base) <= dstLen && At(s, k, BaseBytes(length, dstLen, base))
    ensures BaseStands(s, k, length, base)
  {
    BaseIsSplit(s, k, length, dstLen, base);
    BaseHeadAt(s, k, length, base);
    BuiltSubgroupsStand(s, k + 8, 8, dstLen, base.subgroups);
    AllStandingYield(s, k + 8, base.subgroups);
  }

  lemma BaseStep(s: seq<Byte>, k: nat, n: Byte, priors: seq<Metadata.Contexts>, gs: seq<Subgroup>, m: nat)
    requires 4 <= n && k + 6 <= |s| && m <= n - 4
    requires Gives(SubgroupsParsed(s, k + 6, n - 4, 0, s[k + 5], priors), gs, k + 6, n - 4, m)
    ensures |gs| < 0x100
    ensures BaseParsed(s, k, n, priors).Ok?
    ensures BaseParsed(s, k, n, priors).value == Base(Read(s, k + 2, 3), gs)
    ensures BaseParsed(s, k, n, priors).at == k + 6 + m && BaseParsed(s, k, n, priors).left == n - 4 - m
  {
  }

  /** The announcement at `k` parses to `r`: the parser is told how many bytes follow the type by
      the length byte alone, and ends where that says with two bytes still on its count. */
  ghost predicate ParsesTo(s: seq<Byte>, k: nat, priors: seq<Metadata.Contexts>, r: Base) {
    && k < |s| && s[k] >= 1
    && var p := BaseParsed(s, k + 2, s[k] - 1, priors);
       p.Ok? && p.value == r && p.at == k + 1 + s[k] && p.left == 2
  }

  /** The count of subgroups is read from the byte before them. */
  ghost predicate CountedSubgroups(s: seq<Byte>, k: nat, left: nat, priors: seq<Metadata.Contexts>,
                                   gs: seq<Subgroup>, m: nat)
  {
    1 <= k <= |s| && Gives(SubgroupsParsed(s, k, left, 0, s[k - 1], priors), gs, k, left, m)
  }

  lemma StandingSubgroupsAreParsed(s: seq<Byte>, k: nat, gs: Subgroups, left: nat, priors: seq<Metadata.Contexts>)
    requires 1 <= k <= |s| && s[k - 1] == |gs| && AllYield(s, k, gs) && left == SubgroupsSize(gs) + 2
    ensures CountedSubgroups(s, k, left, priors, ResolvedSubgroups(gs, 0, priors), SubgroupsSize(gs))
  {
    SubgroupsAreParsed(s, k, gs, left, 0, |gs|, priors);
  }

  lemma CountedBaseIsParsed(s: seq<Byte>, k: nat, size: nat, priors: seq<Metadata.Contexts>, gs: seq<Subgroup>, delay: nat)
    requires 8 <= size <= 0xFF && k + size <= |s| && s[k] == size - 1 && Read(s, k + 4, 3) == delay
    requires CountedSubgroups(s, k + 8, size - 6, priors, gs, size - 8)
    ensures |gs| < 0x100 && delay < 0x100_0000 && ParsesTo(s, k, priors, Base(delay, gs))
  {
    BaseStep(s, k + 2, size - 2, priors, gs, size - 8);
  }

  lemma StandingBaseIsParsed(s: seq<Byte>, k: nat, base: Base, priors: seq<Metadata.Contexts>)
    requires BaseSize(base) <= 0xFF && BaseStands(s, k, BaseSize(base) - 1, base)
    ensures ParsesTo(s, k, priors, Resolved(base, priors))
  {
    var gs := ResolvedSubgroups(base.subgroups, 0, priors);
    StandingSubgroupsAreParsed(s, k + 8, base.subgroups, BaseSize(base) - 6, priors);
    CountedBaseIsParsed(s, k, BaseSize(base), priors, gs, base.delay % 0x100_0000);
  }

  /** A BASE that fits in the buffer and in 255 bytes: parsing the announcement by the length
      byte that was written gives it back with every BIS resolved, for any number of subgroups
      and BISes. */
  lemma BaseRoundTrip(s: seq<Byte>, k: nat, dstLen: nat, base: Base, priors: seq<Metadata.Contexts>)
    requires Sound(base) && BaseSize(base) <= dstLen && BaseSize(base) <= 0xFF
    requires At(s, k, BaseBytes(LengthByte(Written(dstLen, base)), dstLen, base))
    ensures ParsesTo(s, k, priors, Resolved(base, priors))
  {
    var length := LengthByte(Written(dstLen, base));
    LengthIsSize(dstLen, base);
    BuiltBaseStands(s, k, length, dstLen, base);
    StandingBaseIsParsed(s, k, base, priors);
  }

  /** So does parsing the buffer as the builder leaves it. */
  lemma BuiltBaseIsParsed(now: seq<Byte>, start: seq<Byte>, dstLen: nat, base: Base, priors: seq<Metadata.Contexts>)
    requires Sound(base) && BaseSize(base) <= dstLen && BaseSize(base) <= 0xFF
    requires Built(now, start, BaseBytes(LengthByte(Written(dstLen, base)), dstLen, base))
    ensures ParsesTo(now, 0, priors, Resolved(base, priors))
  {
    var b := BaseBytes(LengthByte(Written(dstLen, base)), dstLen, base);
    AtIsSlice(now, 0, b);
    assert now[0..|b|] == b;
    BaseRoundTrip(now, 0, dstLen, base, priors);
  }

  lemma OverridingTwice(d: Csc, c: Csc)
    ensures CodecConfig.Overridden(d, CodecConfig.Overridden(d, c)) == CodecConfig.Overridden(d, c)
  {
  }

  /** Resolving a resolved BASE changes nothing. */
  lemma ResolvedTwice(base: Base, priors: seq<Metadata.Contexts>)
    ensures Resolved(Resolved(base, priors), priors) == Resolved(base, priors)
  {
    var r := Resolved(base, priors);
    forall i | 0 <= i < |r.subgroups|
      ensures ResolvedSubgroup(r.subgroups[i], Prior(priors, i)) == r.subgroups[i]
    {
      var g := base.subgroups[i];
      forall j | 0 <= j < |g.bises|
        ensures ResolvedBises(r.subgroups[i].bises, g.csc)[j] == r.subgroups[i].bises[j]
      {
        OverridingTwice(g.csc, g.bises[j].csc);
      }
      assert ResolvedBises(r.subgroups[i].bises, g.csc) == r.subgroups[i].bises;
    }
    assert ResolvedSubgroups(r.subgroups, 0, priors) == r.subgroups;
  }

  /** Contexts that the announcement does not set stay as the target held them before; those it
      sets, and everything else of a subgroup but what its BISes take over, are its own. */
  lemma UnsetContextsStay(base: Base, priors: seq<Metadata.Contexts>, i: nat)
    requires i < |base.subgroups|
    ensures var (g, r) := (base.subgroups[i], Resolved(base, priors).subgroups[i]);
            && r.codec == g.codec && r.csc == g.csc && |r.bises| == |g.bises|
            && (g.metadata.preferred != 0 ==> r.metadata.preferred == g.metadata.preferred)
            && (g.metadata.streaming != 0 ==> r.metadata.streaming == g.metadata.streaming)
            && (g.metadata.preferred == 0 && i < |priors| ==> r.metadata.preferred == priors[i].preferred)
            && (g.metadata.streaming == 0 && i < |priors| ==> r.metadata.streaming == priors[i].streaming)
            && (g.metadata.streaming == 0 && i >= |priors| ==> r.metadata.streaming == 0)
    ensures var (g, r) := (base.subgroups[i], Resolved(base, priors).subgroups[i]);
            forall j :: 0 <= j < |g.bises| ==>
              && r.bises[j].index == g.bises[j].index
              && (g.bises[j].csc.frequency == 0 ==> r.bises[j].csc.frequency == g.csc.frequency)
              && (g.bises[j].csc.octets != 0 ==> r.bises[j].csc.octets == g.bises[j].csc.octets)
  {
  }

  predicate SoundPriors(priors: seq<Metadata.Contexts>) {
    forall i :: 0 <= i < |priors| ==> Metadata.Defined(priors[i].preferred) && Metadata.Defined(priors[i].streaming)
  }

  lemma ResolvedIsSound(base: Base, priors: seq<Metadata.Contexts>)
    requires Sound(base) && SoundPriors(priors)
    ensures Sound(Resolved(base, priors))
  {
    var r := Resolved(base, priors);
    forall i | 0 <= i < |r.subgroups|
      ensures SoundSubgroup(r.subgroups[i])
    {
      assert SoundSubgroup(base.subgroups[i]);
    }
  }

  /** Building and parsing is idempotent: what one pass gives, a second pass gives again, in any
      buffer that what the first pass gave fits in. */
  lemma BuildThenParseIsIdempotent(s: seq<Byte>, k: nat, dstLen: nat, base: Base, priors: seq<Metadata.Contexts>)
    requires Sound(base) && SoundPriors(priors)
    requires var r := Resolved(base, priors);
             && BaseSize(r) <= dstLen && BaseSize(r) <= 0xFF
             && At(s, k, BaseBytes(LengthByte(Written(dstLen, r)), dstLen, r))
    ensures ParsesTo(s, k, priors, Resolved(base, priors))
  {
    ResolvedIsSound(base, priors);
    BaseRoundTrip(s, k, dstLen, Resolved(base, priors), priors);
    ResolvedTwice(base, priors);
  }
}
