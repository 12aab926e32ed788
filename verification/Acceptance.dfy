/** What the parsers accept: nothing but what a writer of the same fields could have written. */
module Acceptance {
  import opened Bytes
  import opened CodecConfig
  import opened AscsCommands
  import Metadata

  lemma {:induction false} ValueThenLe(b: seq<Byte>)
    ensures Le(Value(b), |b|) == b
  {
    if b != [] {
      ValueThenLe(b[1..]);
      var v := Value(b[1..]);
      assert (b[0] + 0x100 * v) % 0x100 == b[0] && (b[0] + 0x100 * v) / 0x100 == v;
      assert b == [b[0]] + b[1..];
    }
  }

  // ---- Fields of a codec configuration ----

  /** The number under a known type at `k`. */
  function FieldThere(s: seq<Byte>, k: nat): Field
    requires k + 2 <= |s| && 1 <= s[k + 1] <= 5 && k + 2 + SizeOf(s[k + 1]) <= |s|
  {
    FieldOf(s[k + 1], Read(s, k + 2, SizeOf(s[k + 1])))
  }

  lemma FieldThereIsEncoded(s: seq<Byte>, k: nat)
    requires k + 2 <= |s| && 1 <= s[k + 1] <= 5 && k + 2 + SizeOf(s[k + 1]) <= |s| && s[k] == SizeOf(s[k + 1]) + 1
    ensures At(s, k, Encode(FieldThere(s, k))) && |Encode(FieldThere(s, k))| == s[k] + 1
    ensures TypeOf(FieldThere(s, k)) == s[k + 1]
  {
    var n := SizeOf(s[k + 1]);
    var b := s[k + 2..k + 2 + n];
    ValueThenLe(b);
    assert Number(FieldThere(s, k)) == Value(b);
    AtIsSlice(s, k + 2, b);
    assert s[k..k + 2] == [n + 1, s[k + 1]];
    AtIsSlice(s, k, [n + 1, s[k + 1]]);
    AtSplit(s, k, [n + 1, s[k + 1]], b);
  }

  /** The control-point parser accepts lists of fields only: whatever the bytes are, if it accepts,
      fields stand there that add up to the count it was given, in eight bits, and it has applied
      them all and stops right behind them. */
  lemma {:induction false} StrictAcceptsOnlyFields(s: seq<Byte>, k: nat, left: Byte, d: Csc) returns (fs: seq<Field>)
    requires ParsedStrictly(s, k, left, d).1 == Accepted
    ensures At(s, k, EncodeAll(fs)) || (fs == [] && k > |s|)
    ensures |EncodeAll(fs)| % 0x100 == left
    ensures ParsedStrictly(s, k, left, d).0 == ApplyAll(fs, d)
    ensures ParsedStrictly(s, k, left, d).2 == k + |EncodeAll(fs)|
    decreases |s| - k
  {
    if left == 0 {
      fs := [];
    } else {
      var f := FieldThere(s, k);
      FieldThereIsEncoded(s, k);
      var rest := StrictAcceptsOnlyFields(s, k + s[k] + 1, LeftAfter(left, s[k]), Applied(f, d));
      fs := [f] + rest;
      assert fs[0] == f && fs[1..] == rest;
      AtSplit(s, k, Encode(f), EncodeAll(rest));
      WrapsAround(left, s[k], |EncodeAll(rest)|);
    }
  }

  lemma WrapsAround(left: Byte, length: Byte, rest: nat)
    requires length <= left && rest % 0x100 == LeftAfter(left, length)
    ensures (length + 1 + rest) % 0x100 == left
  {
  }

  /** Without the wrap-around the count is exact, and acceptance is an equivalence. */
  lemma StrictAcceptsIffFields(s: seq<Byte>, k: nat, left: Byte, d: Csc)
    requires k <= |s| && |s| - k < 0x100
    ensures ParsedStrictly(s, k, left, d).1 == Accepted <==> exists fs :: At(s, k, EncodeAll(fs)) && |EncodeAll(fs)| == left
  {
    if ParsedStrictly(s, k, left, d).1 == Accepted {
      var fs := StrictAcceptsOnlyFields(s, k, left, d);
      assert |EncodeAll(fs)| < 0x100;
    }
    if fs :| At(s, k, EncodeAll(fs)) && |EncodeAll(fs)| == left {
      FieldsAreParsedStrictly(s, k, fs, d);
    }
  }

  /** Types and values of fields from `k` on; their length bytes may say anything, and `left` is
      what they say in all. */
  predicate StandLoosely(s: seq<Byte>, k: nat, fs: seq<Field>, left: int)
    decreases |fs|
  {
    if fs == [] then left == 0
    else
      var n := SizeOf(TypeOf(fs[0]));
      && left > 0 && k + 2 + n <= |s| && s[k + 1] == TypeOf(fs[0]) && Read(s, k + 2, n) == Number(fs[0])
      && StandLoosely(s, k + 2 + n, fs[1..], left - (s[k] as int + 1))
  }

  /** The other parser succeeds exactly on lists of fields with known indices whose length bytes
      add up to the count, be each of them right or wrong. */
  lemma {:induction false} LooseAcceptsOnlyFields(s: seq<Byte>, k: nat, left: int, d: Csc) returns (fs: seq<Field>)
    requires Parsed(s, k, left, d).1 == Success
    ensures StandLoosely(s, k, fs, left) && AllLegal(fs)
    ensures Parsed(s, k, left, d).0 == ApplyAll(fs, d)
    decreases if left <= 0 then 0 else left
  {
    if left <= 0 {
      fs := [];
    } else {
      var f := FieldThere(s, k);
      var n := SizeOf(s[k + 1]);
      var rest := LooseAcceptsOnlyFields(s, k + 2 + n, left - (s[k] as int + 1), Applied(f, d));
      fs := [f] + rest;
      assert fs[0] == f && fs[1..] == rest;
      OneMoreLegal(f, rest);
      assert TypeOf(f) == s[k + 1] && Number(f) == Read(s, k + 2, n);
    }
  }

  lemma {:induction false} LooseFieldsAreAccepted(s: seq<Byte>, k: nat, fs: seq<Field>, left: int, d: Csc)
    requires StandLoosely(s, k, fs, left)
    ensures Parsed(s, k, left, d).1 == (if AllLegal(fs) then Success else Error)
    decreases |fs|
  {
    if fs != [] {
      var n := SizeOf(TypeOf(fs[0]));
      NumberGivesField(fs[0]);
      LooseFieldsAreAccepted(s, k + 2 + n, fs[1..], left - (s[k] as int + 1), Applied(fs[0], d));
      assert AllLegal(fs) <==> Legal(fs[0]) && AllLegal(fs[1..]);
    }
  }

  /** At the first unknown index the other parser stops, with that field applied as well: the
      target is left with a 0 for it. */
  lemma {:induction false} UnknownIndexIsApplied(s: seq<Byte>, k: nat, fs: seq<Field>, bad: Field, more: seq<Field>,
                                                 left: int, d: Csc)
    requires StandLoosely(s, k, fs + [bad] + more, left) && AllLegal(fs) && !Legal(bad)
    ensures Parsed(s, k, left, d).0 == ApplyAll(fs + [bad], d) && Parsed(s, k, left, d).1 == Error
    ensures bad.Frequency? ==> Parsed(s, k, left, d).0.frequency == 0
    ensures bad.Duration? ==> Parsed(s, k, left, d).0.duration == 0
    decreases |fs|
  {
    var all := fs + [bad] + more;
    NumberGivesField(all[0]);
    if fs == [] {
      assert fs + [bad] == [bad] && ApplyAll([bad], d) == ApplyAll([], Applied(bad, d));
    } else {
      var n := SizeOf(TypeOf(fs[0]));
      assert all[0] == fs[0] && all[1..] == fs[1..] + [bad] + more && (fs + [bad])[1..] == fs[1..] + [bad];
      assert Legal(fs[0]) && AllLegal(fs[1..]);
      UnknownIndexIsApplied(s, k + 2 + n, fs[1..], bad, more, left - (s[k] as int + 1), Applied(fs[0], d));
    }
  }

  lemma {:induction false} FieldsAreSteppedOver(s: seq<Byte>, k: nat, fs: seq<Field>, left: Byte, d: Csc)
    requires At(s, k, EncodeAll(fs)) && |EncodeAll(fs)| < left
    ensures ParsedStrictly(s, k, left, d) == ParsedStrictly(s, k + |EncodeAll(fs)|, left - |EncodeAll(fs)|, ApplyAll(fs, d))
    decreases |fs|
  {
    if fs != [] {
      AtSplit(s, k, Encode(fs[0]), EncodeAll(fs[1..]));
      FieldAt(s, k, fs[0]);
      FieldsAreSteppedOver(s, k + |Encode(fs[0])|, fs[1..], left - |Encode(fs[0])|, Applied(fs[0], d));
    }
  }

  /** What the control-point parser says of the first field that is wrong, behind any fields that
      are right, which it has applied by then. */
  lemma FirstFaultIsAnswered(s: seq<Byte>, k: nat, fs: seq<Field>, left: Byte, d: Csc)
    requires At(s, k, EncodeAll(fs)) && |EncodeAll(fs)| < left && k + |EncodeAll(fs)| + 2 <= |s|
    ensures var (e, r) := (k + |EncodeAll(fs)|, ParsedStrictly(s, k, left, d));
            && (s[e] > left - |EncodeAll(fs)| ==> r.1 == InvalidLength && r.0 == ApplyAll(fs, d) && r.2 == e + 2)
            && (s[e] <= left - |EncodeAll(fs)| && (s[e + 1] < 1 || s[e + 1] > 5 || s[e] != SizeOf(s[e + 1]) + 1) ==>
                  r.1 == InvalidValue && r.0 == ApplyAll(fs, d) && r.2 == e + 2)
  {
    FieldsAreSteppedOver(s, k, fs, left, d);
  }

  lemma NumberGivesField(f: Field)
    ensures SizeOf(TypeOf(f)) == 1 ==> Number(f) < 0x100
    ensures SizeOf(TypeOf(f)) == 2 ==> Number(f) < 0x1_0000
    ensures SizeOf(TypeOf(f)) == 4 ==> Number(f) < 0x1_0000_0000
    ensures FieldOf(TypeOf(f), Number(f)) == f
  {
  }

  // ---- Commands that are cut short ----

  /** A Config Codec command is accepted exactly if the length it came with covers it; otherwise
      the configuration is not looked at. */
  lemma ConfigCodecIsTakenIffWhole(s: seq<Byte>, k: nat, len: int, id: Byte, a: ConfigCodecArgs, length: U16, d: Csc)
    requires Tabulated(a.csc) && len - 8 >= FullSize(a.csc) && At(s, k, ConfigCodecBuilt(len, id, a))
    ensures k + 9 <= |s|
    ensures ConfigCodecParsed(s, k + 1, length, d).1 == Accepted <==> length >= |ConfigCodecBuilt(len, id, a)| - 1
    ensures length < |ConfigCodecBuilt(len, id, a)| - 1 ==>
              ConfigCodecParsed(s, k + 1, length, d).0.csc == d && ConfigCodecParsed(s, k + 1, length, d).1 == InvalidLength
  {
    AtSplit(s, k, ConfigCodecHead(id, a), Filled(len - 8, a.csc));
    ConfigCodecHeadAt(s, k, id, a);
    CscIsTaken(s, k + 8, len - 8, a.csc, d);
    if length >= |ConfigCodecBuilt(len, id, a)| - 1 {
      ConfigCodecRoundTrip(s, k, len, id, a, length, d);
    }
  }

  lemma MetadataIsTakenIffWhole(s: seq<Byte>, k: nat, len: int, id: Byte, m: Metadata.Contexts,
                                length: U16, d: Metadata.Contexts)
    requires At(s, k, MetadataBuilt(len, id, m))
    ensures k + 2 <= |s|
    ensures MetadataParsed(s, k + 1, length, d).1 == MetadataTaken <==> length >= |MetadataBuilt(len, id, m)| - 1
    ensures length < |MetadataBuilt(len, id, m)| - 1 ==> MetadataParsed(s, k + 1, length, d).0 == d
  {
    AtSplit(s, k, [id], Metadata.Filled(len - 1, m));
    CountedAt(s, k + 1, Metadata.Fields(len - 1, m));
  }
}
