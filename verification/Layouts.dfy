/** The octets themselves, one by one: what Assigned Numbers, the Basic Audio Profile and the
    Audio Stream Control Service put on the air. A writer and a reader that agreed on other
    codes or another order would not meet this. */
module Layouts {
  import opened Bytes
  import opened CodecConfig
  import opened AscsCommands
  import opened Broadcast
  import Metadata

  // ---- Numbers ----

  lemma TwoOctets(v: U16)
    ensures Le(v, 2) == [v % 0x100, v / 0x100]
  {
    SingleByte(v / 0x100);
    assert Le(v, 2) == [v % 0x100] + Le(v / 0x100, 1);
  }

  lemma ThreeOctets(v: nat)
    ensures Le(v, 3) == [v % 0x100, v / 0x100 % 0x100, v / 0x1_0000 % 0x100]
  {
    assert v / 0x100 / 0x100 == v / 0x1_0000;
    LowOctet(v / 0x1_0000);
    assert Le(v / 0x100, 2) == [v / 0x100 % 0x100] + Le(v / 0x1_0000, 1);
    assert Le(v, 3) == [v % 0x100] + Le(v / 0x100, 2);
  }

  lemma LowOctet(v: nat)
    ensures Le(v, 1) == [v % 0x100]
  {
    assert Le(v, 1) == [v % 0x100] + Le(v / 0x100, 0);
  }

  lemma FourOctets(v: U32)
    ensures Le(v, 4) == [v % 0x100, v / 0x100 % 0x100, v / 0x1_0000 % 0x100, v / 0x100_0000]
  {
    ThreeOctets(v / 0x100);
    assert v / 0x100 / 0x100 == v / 0x1_0000 && v / 0x100 / 0x1_0000 == v / 0x100_0000;
    assert v / 0x100_0000 < 0x100;
    assert Le(v, 4) == [v % 0x100] + Le(v / 0x100, 3);
  }

  // ---- Codec configuration ----

  /** The codes of the sampling frequencies, in hertz, and of the frame durations, in
      microseconds; anything else has no code. */
  lemma AssignedCodes(hz: U32, us: U32)
    ensures FrequencyIndex(hz) ==
            match hz
            case 8000 => 0x01
            case 11025 => 0x02
            case 16000 => 0x03
            case 22050 => 0x04
            case 24000 => 0x05
            case 32000 => 0x06
            case 44100 => 0x07
            case 48000 => 0x08
            case 88200 => 0x09
            case 96000 => 0x0A
            case 176400 => 0x0B
            case 192000 => 0x0C
            case 384000 => 0x0D
            case _ => 0
    ensures DurationIndex(us) == 0x00 <==> us == 7500
    ensures DurationIndex(us) == 0x01 <==> us == 10000
    ensures us != 7500 && us != 10000 ==> DurationIndex(us) == 0xFF
  {
    FrequencyIndexIsInverse(hz);
    IndexFinds(hz, 0);
  }

  /** The table ascends, so a code is one more than the number of lower frequencies. */
  lemma CodesAscend(i: Byte, j: Byte)
    requires 1 <= i < j <= 13
    ensures 0 < FrequencyAt(i) < FrequencyAt(j) && FrequencyAt(13) == 384000
    ensures FrequencyIndex(FrequencyAt(i)) == i
  {
    AssignedCodes(FrequencyAt(i), 0);
  }

  /** Each field: its length, its type, its value. */
  lemma FieldOctets(index: Byte, locations: U32, octets: U16)
    ensures Encode(Frequency(index)) == [2, 0x01, index]
    ensures Encode(Duration(index)) == [2, 0x02, index]
    ensures Encode(Allocation(locations)) ==
            [5, 0x03, locations % 0x100, locations / 0x100 % 0x100, locations / 0x1_0000 % 0x100, locations / 0x100_0000]
    ensures Encode(Octets(octets)) == [3, 0x04, octets % 0x100, octets / 0x100]
    ensures Encode(Blocks(index)) == [2, 0x05, index]
  {
    SingleByte(index);
    TwoOctets(octets);
    FourOctets(locations);
  }

  lemma MemberIsNext(c: Csc, i: nat, used: nat, maxLen: int)
    requires 1 <= i <= 5 && Member(c, i) != 0 && used + 2 + SizeOf(i) <= maxLen
    ensures FieldBytes(c, i, used, maxLen) == Encode(Candidate(c, i)) + FieldBytes(c, i + 1, used + 2 + SizeOf(i), maxLen)
  {
  }

  /** A configuration with all its members set, in a buffer that holds its twenty octets. */
  lemma ConfigurationOctets(c: Csc, maxLen: int)
    requires c.frequency != 0 && c.duration != 0 && c.allocation != 0 && c.octets != 0 && c.blocks != 0
    requires maxLen >= 20
    ensures Filled(maxLen, c) ==
            [19, 2, 0x01, FrequencyIndex(c.frequency), 2, 0x02, DurationIndex(c.duration)]
            + [5, 0x03, c.allocation % 0x100, c.allocation / 0x100 % 0x100, c.allocation / 0x1_0000 % 0x100,
               c.allocation / 0x100_0000]
            + [3, 0x04, c.octets % 0x100, c.octets / 0x100, 2, 0x05, c.blocks]
  {
    FieldOctets(FrequencyIndex(c.frequency), c.allocation, c.octets);
    FieldOctets(DurationIndex(c.duration), c.allocation, c.octets);
    MemberIsNext(c, 1, 1, maxLen);
    MemberIsNext(c, 2, 4, maxLen);
    LaterOctets(c, maxLen);
  }

  lemma LaterOctets(c: Csc, maxLen: int)
    requires c.allocation != 0 && c.octets != 0 && c.blocks != 0 && maxLen >= 20
    ensures FieldBytes(c, 3, 7, maxLen) ==
            [5, 0x03, c.allocation % 0x100, c.allocation / 0x100 % 0x100, c.allocation / 0x1_0000 % 0x100,
             c.allocation / 0x100_0000]
            + [3, 0x04, c.octets % 0x100, c.octets / 0x100, 2, 0x05, c.blocks]
  {
    FieldOctets(c.blocks, c.allocation, c.octets);
    MemberIsNext(c, 3, 7, maxLen);
    MemberIsNext(c, 4, 13, maxLen);
    MemberIsNext(c, 5, 17, maxLen);
    assert FieldBytes(c, 6, 20, maxLen) == [];
    assert FieldBytes(c, 4, 13, maxLen) == [3, 0x04, c.octets % 0x100, c.octets / 0x100, 2, 0x05, c.blocks];
  }

  // ---- Metadata ----

  lemma ContextOctets(fieldType: Byte, context: U16)
    ensures Ltv(fieldType, Le(context, 2)) == [3, fieldType, context % 0x100, context / 0x100]
  {
    TwoOctets(context);
  }

  /** Preferred contexts are type 1, streaming contexts type 2; the twelve low bits of a context
      are defined. */
  lemma MetadataOctets(p: U16, s: U16, maxLen: int)
    requires p != 0 && s != 0 && maxLen >= 9
    ensures Metadata.Filled(maxLen, Metadata.Contexts(p, s)) ==
            [8, 3, 0x01, p % 0x100, p / 0x100, 3, 0x02, s % 0x100, s / 0x100]
    ensures Metadata.Defined(p) <==> p <= 0x0FFF
    ensures Metadata.CCID_LIST == 0x05
    ensures Metadata.Filled(maxLen, Metadata.Contexts(0, s)) == [4, 3, 0x02, s % 0x100, s / 0x100]
  {
    ContextOctets(1, p);
    ContextOctets(2, s);
  }

  // ---- Control-point commands and endpoint values ----

  lemma CodecIdOctets(b: seq<Byte>, c: CodecId)
    ensures CodecIdBytes(b, c) == b + [c.format, c.company % 0x100, c.company / 0x100, c.vendor % 0x100, c.vendor / 0x100]
  {
    SingleByte(c.format);
    TwoOctets(c.company);
    TwoOctets(c.vendor);
  }

  lemma ConfigCodecHeadOctets(id: Byte, a: ConfigCodecArgs)
    ensures ConfigCodecHead(id, a) ==
            [id, a.targetLatency, a.targetPhy,
             a.codec.format, a.codec.company % 0x100, a.codec.company / 0x100,
             a.codec.vendor % 0x100, a.codec.vendor / 0x100]
  {
    SingleByte(id);
    SingleByte(a.targetLatency);
    SingleByte(a.targetPhy);
    var b: seq<Byte> := [id, a.targetLatency, a.targetPhy];
    assert Le(id, 1) + Le(a.targetLatency, 1) + Le(a.targetPhy, 1) == b;
    CodecIdOctets(b, a.codec);
  }

  /** Endpoint, target latency, target PHY, codec, and the counted configuration behind them. */
  lemma ConfigCodecOctets(len: int, id: Byte, a: ConfigCodecArgs)
    ensures ConfigCodecBuilt(len, id, a)[..8] ==
            [id, a.targetLatency, a.targetPhy,
             a.codec.format, a.codec.company % 0x100, a.codec.company / 0x100,
             a.codec.vendor % 0x100, a.codec.vendor / 0x100]
    ensures ConfigCodecBuilt(len, id, a)[8..] == Filled(len - 8, a.csc)
  {
    ConfigCodecHeadOctets(id, a);
  }

  lemma ConfigQosOctets(id: Byte, q: ConfigQosArgs)
    ensures ConfigQosBuilt(id, q) ==
            [id, q.cig, q.cis, q.sduInterval % 0x100, q.sduInterval / 0x100 % 0x100, q.sduInterval / 0x1_0000 % 0x100,
             q.framing, q.phy,
             q.maxSdu % 0x100, q.maxSdu / 0x100, q.retransmissions, q.latency % 0x100, q.latency / 0x100,
             q.delay % 0x100, q.delay / 0x100 % 0x100, q.delay / 0x1_0000 % 0x100]
  {
    QosHeadOctets(id, q);
    TwoOctets(q.maxSdu);
    SingleByte(q.retransmissions);
    TwoOctets(q.latency);
    ThreeOctets(q.delay);
  }

  lemma QosHeadOctets(id: Byte, q: ConfigQosArgs)
    ensures QosHead(id, q) ==
            [id, q.cig, q.cis, q.sduInterval % 0x100, q.sduInterval / 0x100 % 0x100, q.sduInterval / 0x1_0000 % 0x100,
             q.framing, q.phy]
  {
    SingleByte(id);
    SingleByte(q.cig);
    SingleByte(q.cis);
    ThreeOctets(q.sduInterval);
    SingleByte(q.framing);
    SingleByte(q.phy);
  }

  function Octets3(v: nat): seq<Byte> {
    [v % 0x100, v / 0x100 % 0x100, v / 0x1_0000 % 0x100]
  }

  lemma CodecConfiguredOctets(v: CodecConfigured)
    ensures CodecConfiguredHead(v) ==
            [v.framing, v.phy, v.retransmissions, v.latency % 0x100, v.latency / 0x100]
            + Octets3(v.delayMin) + Octets3(v.delayMax) + Octets3(v.preferredMin) + Octets3(v.preferredMax)
            + [v.codec.format, v.codec.company % 0x100, v.codec.company / 0x100,
               v.codec.vendor % 0x100, v.codec.vendor / 0x100]
  {
    SingleByte(v.framing);
    SingleByte(v.phy);
    SingleByte(v.retransmissions);
    TwoOctets(v.latency);
    ThreeOctets(v.delayMin);
    ThreeOctets(v.delayMax);
    ThreeOctets(v.preferredMin);
    ThreeOctets(v.preferredMax);
    CodecIdOctets(DelaysBytes(PreferencesBytes(v), v), v.codec);
  }

  // ---- The broadcast announcement ----

  /** Service data with the UUID of the Basic Audio Announcement, 0x1851. */
  lemma BaseOctets(length: Byte, base: Base)
    ensures BaseHead(length, base) ==
            [length, 0x16, 0x51, 0x18] + Octets3(base.delay) + [|base.subgroups|]
  {
    TwoOctets(BASIC_AUDIO_ANNOUNCEMENT);
    ThreeOctets(base.delay);
  }

  lemma SubgroupOctets(g: Subgroup)
    ensures SubgroupHead(g) ==
            [|g.bises|, g.codec.format, g.codec.company % 0x100, g.codec.company / 0x100,
             g.codec.vendor % 0x100, g.codec.vendor / 0x100]
  {
    SingleByte(|g.bises|);
    CodecIdOctets([|g.bises|], g.codec);
  }

  /** A BIS is its index and its configuration, and a subgroup's BISes follow one another behind
      its configuration and its contexts. */
  lemma BisOctets(used: nat, dstLen: nat, b: Bis)
    ensures BisBytes(used, dstLen, b) == [b.index] + Filled(dstLen - used - 1, b.csc)
  {
    SingleByte(b.index);
  }
}
