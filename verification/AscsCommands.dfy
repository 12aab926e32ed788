/** Endpoint control-point commands and the Codec Configured value: what one side builds, the
    other side parses. */
module AscsCommands {
  import opened Bytes
  import opened CodecConfig
  import opened QosNegotiation
  import Metadata

  datatype CodecId = CodecId(format: Byte, company: U16, vendor: U16)

  datatype ConfigCodecArgs = ConfigCodecArgs(targetLatency: Byte, targetPhy: Byte, codec: CodecId, csc: Csc)

  datatype ConfigQosArgs = ConfigQosArgs(
    cig: Byte, cis: Byte, sduInterval: U32, framing: Byte, phy: Byte,
    maxSdu: U16, retransmissions: Byte, latency: U16, delay: U32)

  /** The preferences a server attaches to a Codec Configured value. */
  datatype CodecConfigured = CodecConfigured(
    framing: Byte, phy: Byte, retransmissions: Byte, latency: U16,
    delayMin: U32, delayMax: U32, preferredMin: U32, preferredMax: U32,
    codec: CodecId, csc: Csc)

  // ---- Writing numbers one after the other ----

  /** Appends a number behind the bytes `b` already written. */
  method Append(dst: array<Byte>, at: nat, k: nat, v: nat, n: nat, ghost start: seq<Byte>, ghost b: seq<Byte>)
    returns (next: nat)
    requires |start| == dst.Length && k == at + |b| && k + n <= dst.Length
    requires dst[..] == Splice(start, at, b)
    modifies dst
    ensures next == at + |b + Le(v, n)| && dst[..] == Splice(start, at, b + Le(v, n))
  {
    Put(dst, k, v, n);
    SpliceTwice(start, at, b, Le(v, n));
    next := k + n;
  }

  /** The last number of a stretch, and what stands before it. */
  lemma LastNumber(s: seq<Byte>, k: nat, b: seq<Byte>, v: nat, n: nat)
    requires At(s, k, b + Le(v, n)) && v < Capacity(n)
    ensures At(s, k, b) && k + |b| + n <= |s| && Read(s, k + |b|, n) == v
  {
    AtSplit(s, k, b, Le(v, n));
    ReadBack(s, k + |b|, v, n);
  }

  lemma SameLowByte(low: nat, k: nat)
    ensures (low + 0x100 * k) % 0x100 == low % 0x100 && (low + 0x100 * k) / 0x100 == low / 0x100 + k
  {
  }

  lemma CapacityTimes(high: nat, n: nat)
    requires n > 0
    ensures high * Capacity(n) == 0x100 * (high * Capacity(n - 1))
  {
  }

  lemma HighBytesShift(low: nat, high: nat, n: nat)
    requires n > 0 && low < Capacity(n)
    ensures (low + high * Capacity(n)) % 0x100 == low % 0x100
    ensures (low + high * Capacity(n)) / 0x100 == low / 0x100 + high * Capacity(n - 1)
    ensures low / 0x100 < Capacity(n - 1)
  {
    CapacityTimes(high, n);
    SameLowByte(low, high * Capacity(n - 1));
  }

  lemma {:induction false} HighBytesAreLost(low: nat, high: nat, n: nat)
    requires low < Capacity(n)
    ensures Le(low + high * Capacity(n), n) == Le(low, n)
  {
    if n > 0 {
      HighBytesShift(low, high, n);
      HighBytesAreLost(low / 0x100, high, n - 1);
    }
  }

  /** A 32-bit number written in three bytes loses its highest byte. */
  lemma LastDelay(s: seq<Byte>, k: nat, b: seq<Byte>, v: U32)
    requires At(s, k, b + Le(v, 3))
    ensures At(s, k, b) && k + |b| + 3 <= |s| && Read(s, k + |b|, 3) == v % 0x100_0000
  {
    Capacities();
    HighBytesAreLost(v % 0x100_0000, v / 0x100_0000, 3);
    LastNumber(s, k, b, v % 0x100_0000, 3);
  }

  // ---- Config Codec ----

  function CodecIdBytes(b: seq<Byte>, c: CodecId): (r: seq<Byte>)
    ensures |r| == |b| + 5
  {
    b + Le(c.format, 1) + Le(c.company, 2) + Le(c.vendor, 2)
  }

  /** Target latency, target PHY and codec, behind the endpoint id. */
  function ConfigCodecHead(id: Byte, a: ConfigCodecArgs): (r: seq<Byte>)
    ensures |r| == 8
  {
    CodecIdBytes(Le(id, 1) + Le(a.targetLatency, 1) + Le(a.targetPhy, 1), a.codec)
  }

  function ConfigCodecBuilt(len: int, id: Byte, a: ConfigCodecArgs): seq<Byte> {
    ConfigCodecHead(id, a) + Filled(len - 8, a.csc)
  }

  method PutCodecId(dst: array<Byte>, at: nat, k: nat, c: CodecId, ghost start: seq<Byte>, ghost b: seq<Byte>)
    returns (next: nat)
    requires |start| == dst.Length && k == at + |b| && k + 5 <= dst.Length
    requires dst[..] == Splice(start, at, b)
    modifies dst
    ensures next == k + 5 && dst[..] == Splice(start, at, CodecIdBytes(b, c))
  {
    next := Append(dst, at, k, c.format, 1, start, b);
    next := Append(dst, at, next, c.company, 2, start, b + Le(c.format, 1));
    next := Append(dst, at, next, c.vendor, 2, start, b + Le(c.format, 1) + Le(c.company, 2));
  }

  method BuildConfigCodec(dst: array<Byte>, at: nat, len: int, id: Byte, a: ConfigCodecArgs) returns (n: nat)
    requires 9 <= len && at + len <= dst.Length
    modifies dst
    ensures n == |ConfigCodecBuilt(len, id, a)|
    ensures dst[..] == Splice(old(dst[..]), at, ConfigCodecBuilt(len, id, a))
  {
    ghost var start := dst[..];
    assert dst[..] == Splice(start, at, []);
    var k := Append(dst, at, at, id, 1, start, []);
    assert [] + Le(id, 1) == Le(id, 1);
    k := Append(dst, at, k, a.targetLatency, 1, start, Le(id, 1));
    k := Append(dst, at, k, a.targetPhy, 1, start, Le(id, 1) + Le(a.targetLatency, 1));
    k := PutCodecId(dst, at, k, a.codec, start, Le(id, 1) + Le(a.targetLatency, 1) + Le(a.targetPhy, 1));
    n := FillCsc(dst, k, len - (k - at), a.csc);
    SpliceTwice(start, at, ConfigCodecHead(id, a), Filled(len - 8, a.csc));
    n := n + (k - at);
  }

  /** `k` is where the arguments start, behind the endpoint id; `length` is what is left of the
      command. The answer comes with the arguments read so far and the number of bytes read. */
  function ConfigCodecParsed(s: seq<Byte>, k: nat, length: U16, d: Csc): (r: (ConfigCodecArgs, Answer, nat))
    requires k + 8 <= |s|
  {
    var a := ConfigCodecArgs(s[k], s[k + 1], CodecId(s[k + 2], Read(s, k + 3, 2), Read(s, k + 5, 2)), d);
    if length - 8 < s[k + 7] then (a, InvalidLength, 8)
    else
      var (c, answer, e) := ParsedStrictly(s, k + 8, s[k + 7], d);
      (a.(csc := c), answer, if e < k then 0 else e - k)
  }

  method ParseConfigCodec(data: array<Byte>, at: nat, length: U16, d: Csc)
    returns (a: ConfigCodecArgs, answer: Answer, n: nat)
    requires at + 8 <= data.Length
    ensures (a, answer, n) == ConfigCodecParsed(data[..], at, length, d)
  {
    var company, vendor := Read(data[..], at + 3, 2), Read(data[..], at + 5, 2);
    a := ConfigCodecArgs(data[at], data[at + 1], CodecId(data[at + 2], company, vendor), d);
    var count := data[at + 7];
    if length - 8 < count {
      return a, InvalidLength, 8;
    }
    var c, ans, e := ParseStrictly(data, at + 8, count, d);
    return a.(csc := c), ans, if e < at then 0 else e - at;
  }

  lemma CodecIdAt(s: seq<Byte>, k: nat, b: seq<Byte>, c: CodecId)
    requires At(s, k, CodecIdBytes(b, c))
    ensures var e := k + |b|;
            && At(s, k, b) && e + 5 <= |s|
            && Read(s, e, 1) == c.format && Read(s, e + 1, 2) == c.company && Read(s, e + 3, 2) == c.vendor
  {
    Capacities();
    LastNumber(s, k, b + Le(c.format, 1) + Le(c.company, 2), c.vendor, 2);
    LastNumber(s, k, b + Le(c.format, 1), c.company, 2);
    LastNumber(s, k, b, c.format, 1);
  }

  lemma ReadByte(s: seq<Byte>, k: nat)
    requires k + 1 <= |s|
    ensures Read(s, k, 1) == s[k]
  {
    assert s[k..k + 1] == [s[k]];
    assert Value([s[k]]) == s[k] + 0x100 * Value([s[k]][1..]);
  }

  lemma ConfigCodecHeadAt(s: seq<Byte>, k: nat, id: Byte, a: ConfigCodecArgs)
    requires At(s, k, ConfigCodecHead(id, a))
    ensures k + 8 <= |s| && s[k] == id && s[k + 1] == a.targetLatency && s[k + 2] == a.targetPhy
    ensures s[k + 3] == a.codec.format && Read(s, k + 4, 2) == a.codec.company && Read(s, k + 6, 2) == a.codec.vendor
  {
    var b := Le(id, 1) + Le(a.targetLatency, 1) + Le(a.targetPhy, 1);
    CodecIdAt(s, k, b, a.codec);
    Capacities();
    LastNumber(s, k, Le(id, 1) + Le(a.targetLatency, 1), a.targetPhy, 1);
    LastNumber(s, k, Le(id, 1), a.targetLatency, 1);
    ReadBack(s, k, id, 1);
    ReadByte(s, k);
    ReadByte(s, k + 1);
    ReadByte(s, k + 2);
    ReadByte(s, k + 3);
  }

  /** The configuration part of the command, as the control-point parser takes it. */
  lemma CscIsTaken(s: seq<Byte>, k: nat, maxLen: int, c: Csc, d: Csc)
    requires Tabulated(c) && maxLen >= FullSize(c) && At(s, k, Filled(maxLen, c))
    ensures k < |s| && s[k] == FullSize(c) - 1 && |Filled(maxLen, c)| == FullSize(c)
    ensures ParsedStrictly(s, k + 1, s[k], d).0 == CodecConfig.Overridden(d, c)
    ensures ParsedStrictly(s, k + 1, s[k], d).1 == Accepted
    ensures ParsedStrictly(s, k + 1, s[k], d).2 == k + FullSize(c)
  {
    ReducedIsWholeIfItFits(maxLen, c);
    FilledIsParsedStrictly(s, k, maxLen, c, d);
    FilledIsCounted(s, k, maxLen, c);
  }

  /** The command without its configuration, as the parser reads it. */
  lemma ConfigCodecParsedBy(s: seq<Byte>, k: nat, length: U16, d: Csc, c: Csc, e: nat)
    requires k + 8 <= |s| && length - 8 >= s[k + 7] && k <= e
    requires ParsedStrictly(s, k + 8, s[k + 7], d).0 == c
    requires ParsedStrictly(s, k + 8, s[k + 7], d).1 == Accepted
    requires ParsedStrictly(s, k + 8, s[k + 7], d).2 == e
    ensures ConfigCodecParsed(s, k, length, d).0 ==
            ConfigCodecArgs(s[k], s[k + 1], CodecId(s[k + 2], Read(s, k + 3, 2), Read(s, k + 5, 2)), c)
    ensures ConfigCodecParsed(s, k, length, d).1 == Accepted
    ensures ConfigCodecParsed(s, k, length, d).2 == e - k
  {
  }

  /** A Config Codec command parses back to its arguments, the configuration laid over what the
      endpoint had before; the parser reads the command to its end. */
  lemma ConfigCodecRoundTrip(s: seq<Byte>, k: nat, len: int, id: Byte, a: ConfigCodecArgs, length: U16, d: Csc)
    requires Tabulated(a.csc) && len - 8 >= FullSize(a.csc)
    requires At(s, k, ConfigCodecBuilt(len, id, a)) && length >= |ConfigCodecBuilt(len, id, a)| - 1
    ensures k + 9 <= |s| && s[k] == id
    ensures ConfigCodecParsed(s, k + 1, length, d).0 == a.(csc := CodecConfig.Overridden(d, a.csc))
    ensures ConfigCodecParsed(s, k + 1, length, d).1 == Accepted
    ensures ConfigCodecParsed(s, k + 1, length, d).2 == |ConfigCodecBuilt(len, id, a)| - 1
  {
    AtSplit(s, k, ConfigCodecHead(id, a), Filled(len - 8, a.csc));
    ConfigCodecHeadAt(s, k, id, a);
    CscIsTaken(s, k + 8, len - 8, a.csc, d);
    ConfigCodecParsedBy(s, k + 1, length, d, CodecConfig.Overridden(d, a.csc), k + 8 + FullSize(a.csc));
  }

  // ---- Config QoS ----

  function QosHead(id: Byte, q: ConfigQosArgs): (r: seq<Byte>)
    ensures |r| == 8
  {
    Le(id, 1) + Le(q.cig, 1) + Le(q.cis, 1) + Le(q.sduInterval, 3) + Le(q.framing, 1) + Le(q.phy, 1)
  }

  function QosTail(b: seq<Byte>, q: ConfigQosArgs): (r: seq<Byte>)
    ensures |r| == |b| + 8
  {
    b + Le(q.maxSdu, 2) + Le(q.retransmissions, 1) + Le(q.latency, 2) + Le(q.delay, 3)
  }

  function ConfigQosBuilt(id: Byte, q: ConfigQosArgs): (r: seq<Byte>)
    ensures |r| == 16
  {
    QosTail(QosHead(id, q), q)
  }

  method PutQosHead(dst: array<Byte>, at: nat, id: Byte, q: ConfigQosArgs) returns (k: nat)
    requires at + 16 <= dst.Length
    modifies dst
    ensures k == at + 8 && dst[..] == Splice(old(dst[..]), at, QosHead(id, q))
  {
    ghost var start := dst[..];
    assert dst[..] == Splice(start, at, []) && [] + Le(id, 1) == Le(id, 1);
    ghost var b := Le(id, 1);
    k := Append(dst, at, at, id, 1, start, []);
    k := Append(dst, at, k, q.cig, 1, start, b);
    b := b + Le(q.cig, 1);
    k := Append(dst, at, k, q.cis, 1, start, b);
    b := b + Le(q.cis, 1);
    k := Append(dst, at, k, q.sduInterval, 3, start, b);
    b := b + Le(q.sduInterval, 3);
    k := Append(dst, at, k, q.framing, 1, start, b);
    b := b + Le(q.framing, 1);
    k := Append(dst, at, k, q.phy, 1, start, b);
  }

  method BuildConfigQos(dst: array<Byte>, at: nat, id: Byte, q: ConfigQosArgs) returns (n: nat)
    requires at + 16 <= dst.Length
    modifies dst
    ensures n == 16 && dst[..] == Splice(old(dst[..]), at, ConfigQosBuilt(id, q))
  {
    ghost var start := dst[..];
    var k := PutQosHead(dst, at, id, q);
    ghost var b := QosHead(id, q);
    k := Append(dst, at, k, q.maxSdu, 2, start, b);
    b := b + Le(q.maxSdu, 2);
    k := Append(dst, at, k, q.retransmissions, 1, start, b);
    b := b + Le(q.retransmissions, 1);
    k := Append(dst, at, k, q.latency, 2, start, b);
    b := b + Le(q.latency, 2);
    k := Append(dst, at, k, q.delay, 3, start, b);
    n := k - at;
  }

  datatype QosReason = SduInterval | Framing | Phy | MaximumSdu | TransportLatency

  datatype QosAnswer = QosAccepted | QosTooShort | QosRefused(reason: QosReason)

  function QosRead(s: seq<Byte>, k: nat): ConfigQosArgs
    requires k + 15 <= |s|
  {
    ConfigQosArgs(s[k], s[k + 1], Read(s, k + 2, 3), s[k + 5], s[k + 6], Read(s, k + 7, 2), s[k + 9],
                  Read(s, k + 10, 2), Read(s, k + 12, 3))
  }

  /** The checks, in the order in which they are made. */
  function QosChecked(q: ConfigQosArgs): QosAnswer {
    if q.sduInterval < 0xFF || q.sduInterval > 0xFF_FFFF then QosRefused(SduInterval)
    else if q.framing >= 2 then QosRefused(Framing)
    else if q.phy >= 4 then QosRefused(Phy)
    else if q.maxSdu > 0xFFF then QosRefused(MaximumSdu)
    else if !LatencyAccepted(q.latency) then QosRefused(TransportLatency)
    else QosAccepted
  }

  method ParseConfigQos(data: array<Byte>, at: nat, length: U16, d: ConfigQosArgs)
    returns (q: ConfigQosArgs, answer: QosAnswer, n: nat)
    requires length >= 15 ==> at + 15 <= data.Length
    ensures length < 15 ==> q == d && answer == QosTooShort && n == 0
    ensures length >= 15 ==> q == QosRead(data[..], at) && answer == QosChecked(q) && n == 15
  {
    if length < 15 {
      return d, QosTooShort, 0;
    }
    q := QosRead(data[..], at);
    n := 15;
    if q.sduInterval < 0xFF || q.sduInterval > 0xFF_FFFF {
      return q, QosRefused(SduInterval), n;
    }
    if q.framing >= 2 {
      return q, QosRefused(Framing), n;
    }
    if q.phy >= 4 {
      return q, QosRefused(Phy), n;
    }
    if q.maxSdu > 0xFFF {
      return q, QosRefused(MaximumSdu), n;
    }
    if q.latency < 0x5 || q.latency > 0xFA0 {
      return q, QosRefused(TransportLatency), n;
    }
    answer := QosAccepted;
  }

  lemma QosHeadAt(s: seq<Byte>, k: nat, id: Byte, q: ConfigQosArgs)
    requires At(s, k, QosHead(id, q))
    ensures k + 8 <= |s| && s[k] == id && s[k + 1] == q.cig && s[k + 2] == q.cis
    ensures Read(s, k + 3, 3) == q.sduInterval % 0x100_0000 && s[k + 6] == q.framing && s[k + 7] == q.phy
  {
    Capacities();
    var b2 := Le(id, 1) + Le(q.cig, 1);
    var b3 := b2 + Le(q.cis, 1);
    var b4 := b3 + Le(q.sduInterval, 3);
    LastNumber(s, k, b4 + Le(q.framing, 1), q.phy, 1);
    LastNumber(s, k, b4, q.framing, 1);
    LastDelay(s, k, b3, q.sduInterval);
    LastNumber(s, k, b2, q.cis, 1);
    LastNumber(s, k, Le(id, 1), q.cig, 1);
    ReadBack(s, k, id, 1);
    ReadByte(s, k);
    ReadByte(s, k + 1);
    ReadByte(s, k + 2);
    ReadByte(s, k + 6);
    ReadByte(s, k + 7);
  }

  lemma QosTailAt(s: seq<Byte>, k: nat, b: seq<Byte>, q: ConfigQosArgs)
    requires At(s, k, QosTail(b, q))
    ensures var e := k + |b|;
            && At(s, k, b) && e + 8 <= |s|
            && Read(s, e, 2) == q.maxSdu && s[e + 2] == q.retransmissions
            && Read(s, e + 3, 2) == q.latency && Read(s, e + 5, 3) == q.delay % 0x100_0000
  {
    Capacities();
    var b2 := b + Le(q.maxSdu, 2) + Le(q.retransmissions, 1);
    LastDelay(s, k, b2 + Le(q.latency, 2), q.delay);
    LastNumber(s, k, b2, q.latency, 2);
    LastNumber(s, k, b + Le(q.maxSdu, 2), q.retransmissions, 1);
    LastNumber(s, k, b, q.maxSdu, 2);
    ReadByte(s, k + |b| + 2);
  }

  /** A Config QoS command parses back to its arguments, the two three-byte values cut to three
      bytes, and is accepted exactly if what arrives is in range: an interval that does not fit
      is judged by what is left of it. */
  lemma ConfigQosRoundTrip(s: seq<Byte>, k: nat, id: Byte, q: ConfigQosArgs)
    requires At(s, k, ConfigQosBuilt(id, q))
    ensures k + 16 <= |s| && s[k] == id
    ensures QosRead(s, k + 1) == q.(sduInterval := q.sduInterval % 0x100_0000, delay := q.delay % 0x100_0000)
    ensures QosChecked(QosRead(s, k + 1)) == QosAccepted
            <==> && q.sduInterval % 0x100_0000 >= 0xFF
                 && q.framing <= 1 && q.phy <= 3 && q.maxSdu <= 0xFFF && 5 <= q.latency <= 4000
  {
    QosTailAt(s, k, QosHead(id, q), q);
    QosHeadAt(s, k, id, q);
  }

  /** No latency that a negotiation arrives at, whatever the reports, trips the range check of
      the server. */
  lemma NegotiatedLatencyPasses(cfg: StreamConfig, dir: Direction, rs: seq<Report>, q: ConfigQosArgs)
    requires q.latency == Folded(Of(Prepared(cfg, dir), dir).qos, rs).latency
    ensures QosChecked(q) != QosRefused(TransportLatency)
  {
    NegotiatedLatencyIsAccepted(cfg, dir, rs);
  }

  // ---- Enable and Update Metadata ----

  function MetadataBuilt(len: int, id: Byte, m: Metadata.Contexts): seq<Byte> {
    [id] + Metadata.Filled(len - 1, m)
  }

  method BuildMetadata(dst: array<Byte>, at: nat, len: int, id: Byte, m: Metadata.Contexts) returns (n: nat)
    requires 2 <= len && at + len <= dst.Length
    modifies dst
    ensures n == |MetadataBuilt(len, id, m)|
    ensures dst[..] == Splice(old(dst[..]), at, MetadataBuilt(len, id, m))
  {
    ghost var start := dst[..];
    dst[at] := id;
    assert dst[..] == Splice(start, at, [id]);
    var k := Metadata.FillMetadata(dst, at + 1, len - 1, m);
    SpliceTwice(start, at, [id], Metadata.Filled(len - 1, m));
    n := 1 + k;
  }

  datatype MetadataAnswer = MetadataTaken | MetadataTooShort

  /** What the reader finds wrong with the contexts is not reported. */
  function MetadataParsed(s: seq<Byte>, k: nat, length: U16, d: Metadata.Contexts):
    (r: (Metadata.Contexts, MetadataAnswer, nat))
    requires k + (if length < 1 then 0 else 1) <= |s|
  {
    if length < 1 then (d, MetadataTooShort, 0)
    else if s[k] > length - 1 then (d, MetadataTooShort, 1)
    else (Metadata.Got(s, k + 1, s[k], d).0, MetadataTaken, s[k] as int + 1)
  }

  method ParseMetadata(data: array<Byte>, at: nat, length: U16, d: Metadata.Contexts)
    returns (m: Metadata.Contexts, answer: MetadataAnswer, n: nat)
    requires length >= 1 ==> at + 1 <= data.Length
    ensures length < 1 ==> (m, answer, n) == (d, MetadataTooShort, 0)
    ensures length >= 1 ==> (m, answer, n) == MetadataParsed(data[..], at, length, d)
  {
    if length < 1 {
      return d, MetadataTooShort, 0;
    }
    var count := data[at];
    if count > length - 1 {
      return d, MetadataTooShort, 1;
    }
    var status;
    m, status := Metadata.GetMetadata(data, at + 1, count, d);
    return m, MetadataTaken, count as int + 1;
  }

  /** An Enable or Update Metadata command parses back to its contexts, laid over those the
      endpoint had before. */
  lemma MetadataRoundTrip(s: seq<Byte>, k: nat, len: int, id: Byte, m: Metadata.Contexts,
                          length: U16, d: Metadata.Contexts)
    requires Metadata.Defined(m.preferred) && Metadata.Defined(m.streaming)
    requires len - 1 >= Metadata.FullSize(m)
    requires At(s, k, MetadataBuilt(len, id, m)) && length >= |MetadataBuilt(len, id, m)| - 1
    ensures k + 2 <= |s| && s[k] == id
    ensures MetadataParsed(s, k + 1, length, d).0 == Metadata.Overridden(d, m)
    ensures MetadataParsed(s, k + 1, length, d).1 == MetadataTaken
    ensures MetadataParsed(s, k + 1, length, d).2 == |MetadataBuilt(len, id, m)| - 1
  {
    AtSplit(s, k, [id], Metadata.Filled(len - 1, m));
    ByteAt(s, k, [id], 0);
    Metadata.ReducedIsWholeIfItFits(len - 1, m);
    CountedAt(s, k + 1, Metadata.Fields(len - 1, m));
    Metadata.FilledIsRead(s, k + 1, len - 1, m, d);
  }

  // ---- The Codec Configured value ----

  function PreferencesBytes(v: CodecConfigured): (r: seq<Byte>)
    ensures |r| == 5
  {
    Le(v.framing, 1) + Le(v.phy, 1) + Le(v.retransmissions, 1) + Le(v.latency, 2)
  }

  function DelaysBytes(b: seq<Byte>, v: CodecConfigured): (r: seq<Byte>)
    ensures |r| == |b| + 12
  {
    b + Le(v.delayMin, 3) + Le(v.delayMax, 3) + Le(v.preferredMin, 3) + Le(v.preferredMax, 3)
  }

  function CodecConfiguredHead(v: CodecConfigured): (r: seq<Byte>)
    ensures |r| == 22
  {
    CodecIdBytes(DelaysBytes(PreferencesBytes(v), v), v.codec)
  }

  function CodecConfiguredFilled(maxLen: int, v: CodecConfigured): seq<Byte> {
    CodecConfiguredHead(v) + Filled(maxLen - 22, v.csc)
  }

  method PutPreferences(dst: array<Byte>, at: nat, v: CodecConfigured) returns (k: nat)
    requires at + 5 <= dst.Length
    modifies dst
    ensures k == at + 5 && dst[..] == Splice(old(dst[..]), at, PreferencesBytes(v))
  {
    ghost var start := dst[..];
    ghost var b := Le(v.framing, 1);
    assert dst[..] == Splice(start, at, []) && [] + b == b;
    k := Append(dst, at, at, v.framing, 1, start, []);
    k := Append(dst, at, k, v.phy, 1, start, b);
    b := b + Le(v.phy, 1);
    k := Append(dst, at, k, v.retransmissions, 1, start, b);
    b := b + Le(v.retransmissions, 1);
    k := Append(dst, at, k, v.latency, 2, start, b);
  }

  method PutDelays(dst: array<Byte>, at: nat, k0: nat, v: CodecConfigured, ghost start: seq<Byte>, ghost b0: seq<Byte>)
    returns (k: nat)
    requires |start| == dst.Length && k0 == at + |b0| && k0 + 12 <= dst.Length
    requires dst[..] == Splice(start, at, b0)
    modifies dst
    ensures k == k0 + 12 && dst[..] == Splice(start, at, DelaysBytes(b0, v))
  {
    ghost var b := b0;
    k := Append(dst, at, k0, v.delayMin, 3, start, b);
    b := b + Le(v.delayMin, 3);
    k := Append(dst, at, k, v.delayMax, 3, start, b);
    b := b + Le(v.delayMax, 3);
    k := Append(dst, at, k, v.preferredMin, 3, start, b);
    b := b + Le(v.preferredMin, 3);
    k := Append(dst, at, k, v.preferredMax, 3, start, b);
  }

  method FillCodecParams(dst: array<Byte>, at: nat, maxLen: int, v: CodecConfigured) returns (n: nat)
    requires 23 <= maxLen && at + maxLen <= dst.Length
    modifies dst
    ensures n == |CodecConfiguredFilled(maxLen, v)|
    ensures dst[..] == Splice(old(dst[..]), at, CodecConfiguredFilled(maxLen, v))
  {
    ghost var start := dst[..];
    var k := PutPreferences(dst, at, v);
    k := PutDelays(dst, at, k, v, start, PreferencesBytes(v));
    k := PutCodecId(dst, at, k, v.codec, start, DelaysBytes(PreferencesBytes(v), v));
    n := FillCsc(dst, k, maxLen - (k - at), v.csc);
    SpliceTwice(start, at, CodecConfiguredHead(v), Filled(maxLen - 22, v.csc));
    n := n + (k - at);
  }

  /** What the client makes of the value: it forgets the old one first, and does not look at
      what the configuration parser says about its input. */
  function CodecConfiguredRead(s: seq<Byte>, k: nat): CodecConfigured
    requires k + 23 <= |s|
  {
    CodecConfigured(s[k], s[k + 1], s[k + 2], Read(s, k + 3, 2),
      Read(s, k + 5, 3), Read(s, k + 8, 3), Read(s, k + 11, 3), Read(s, k + 14, 3),
      CodecId(s[k + 17], Read(s, k + 18, 2), Read(s, k + 20, 2)),
      Parsed(s, k + 23, s[k + 22], NO_CSC).0)
  }

  method ReadCodecConfigured(data: array<Byte>, at: nat) returns (v: CodecConfigured)
    requires at + 23 <= data.Length
    ensures v == CodecConfiguredRead(data[..], at)
  {
    var s := data[..];
    var csc, status := ParseCsc(data, at + 23, s[at + 22], NO_CSC);
    v := CodecConfigured(s[at], s[at + 1], s[at + 2], Read(s, at + 3, 2),
      Read(s, at + 5, 3), Read(s, at + 8, 3), Read(s, at + 11, 3), Read(s, at + 14, 3),
      CodecId(s[at + 17], Read(s, at + 18, 2), Read(s, at + 20, 2)), csc);
  }

  /** The value with its delays cut to the three bytes they travel in. */
  function Cut(v: CodecConfigured): CodecConfigured {
    v.(delayMin := v.delayMin % 0x100_0000, delayMax := v.delayMax % 0x100_0000,
       preferredMin := v.preferredMin % 0x100_0000, preferredMax := v.preferredMax % 0x100_0000)
  }

  lemma PreferencesAt(s: seq<Byte>, k: nat, v: CodecConfigured)
    requires At(s, k, PreferencesBytes(v))
    ensures k + 5 <= |s| && s[k] == v.framing && s[k + 1] == v.phy && s[k + 2] == v.retransmissions
    ensures Read(s, k + 3, 2) == v.latency
  {
    Capacities();
    var b2 := Le(v.framing, 1) + Le(v.phy, 1);
    LastNumber(s, k, b2 + Le(v.retransmissions, 1), v.latency, 2);
    LastNumber(s, k, b2, v.retransmissions, 1);
    LastNumber(s, k, Le(v.framing, 1), v.phy, 1);
    ReadBack(s, k, v.framing, 1);
    ReadByte(s, k);
    ReadByte(s, k + 1);
    ReadByte(s, k + 2);
  }

  lemma DelaysAt(s: seq<Byte>, k: nat, b: seq<Byte>, v: CodecConfigured)
    requires At(s, k, DelaysBytes(b, v))
    ensures var (e, c) := (k + |b|, Cut(v));
            && At(s, k, b) && e + 12 <= |s|
            && Read(s, e, 3) == c.delayMin && Read(s, e + 3, 3) == c.delayMax
            && Read(s, e + 6, 3) == c.preferredMin && Read(s, e + 9, 3) == c.preferredMax
  {
    var b2 := b + Le(v.delayMin, 3) + Le(v.delayMax, 3);
    LastDelay(s, k, b2 + Le(v.preferredMin, 3), v.preferredMax);
    LastDelay(s, k, b2, v.preferredMin);
    LastDelay(s, k, b + Le(v.delayMin, 3), v.delayMax);
    LastDelay(s, k, b, v.delayMin);
  }

  /** The client reads back what the server filled in. */
  lemma CodecConfiguredRoundTrip(s: seq<Byte>, k: nat, maxLen: int, v: CodecConfigured)
    requires Tabulated(v.csc) && maxLen - 22 >= FullSize(v.csc)
    requires At(s, k, CodecConfiguredFilled(maxLen, v))
    ensures k + 23 <= |s| && CodecConfiguredRead(s, k) == Cut(v)
  {
    AtSplit(s, k, CodecConfiguredHead(v), Filled(maxLen - 22, v.csc));
    CodecIdAt(s, k, DelaysBytes(PreferencesBytes(v), v), v.codec);
    DelaysAt(s, k, PreferencesBytes(v), v);
    PreferencesAt(s, k, v);
    ReadByte(s, k + 17);
    CodecConfig.RoundTrip(s, k + 22, maxLen - 22, v.csc);
  }
}
