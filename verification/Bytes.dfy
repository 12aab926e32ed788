/** Byte buffers: little-endian numbers, and writing into a stretch of an array. */
module Bytes {
  type Byte = x: int | 0 <= x < 0x100
  type U16 = x: int | 0 <= x < 0x1_0000
  type U24 = x: int | 0 <= x < 0x100_0000
  type U32 = x: int | 0 <= x < 0x1_0000_0000

  /** The low `n` bytes of `v`, least significant first. Higher bytes are lost. */
  function Le(v: nat, n: nat): (r: seq<Byte>)
    ensures |r| == n
  {
    if n == 0 then [] else [v % 0x100] + Le(v / 0x100, n - 1)
  }

  function Value(s: seq<Byte>): nat {
    if s == [] then 0 else s[0] + 0x100 * Value(s[1..])
  }

  function Capacity(n: nat): nat {
    if n == 0 then 1 else 0x100 * Capacity(n - 1)
  }

  lemma {:induction false} LeThenValue(v: nat, n: nat)
    requires v < Capacity(n)
    ensures Value(Le(v, n)) == v
  {
    if n > 0 {
      LeThenValue(v / 0x100, n - 1);
      assert Le(v, n)[1..] == Le(v / 0x100, n - 1);
    }
  }

  lemma {:induction false} ValueIsBounded(s: seq<Byte>)
    ensures Value(s) < Capacity(|s|)
  {
    if s != [] {
      ValueIsBounded(s[1..]);
    }
  }

  lemma Capacities()
    ensures Capacity(1) == 0x100 && Capacity(2) == 0x1_0000 && Capacity(3) == 0x100_0000 && Capacity(4) == 0x1_0000_0000
  {
    assert Capacity(2) == 0x100 * Capacity(1);
    assert Capacity(3) == 0x100 * Capacity(2);
    assert Capacity(4) == 0x100 * Capacity(3);
  }

  /** `n` bytes at `k`, as a number. */
  function Read(s: seq<Byte>, k: nat, n: nat): (v: nat)
    requires k + n <= |s|
    ensures n == 1 ==> v < 0x100
    ensures n == 2 ==> v < 0x1_0000
    ensures n == 3 ==> v < 0x100_0000
    ensures n == 4 ==> v < 0x1_0000_0000
  {
    ValueIsBounded(s[k..k + n]);
    Capacities();
    Value(s[k..k + n])
  }

  /** `b` stands in `s` at position `k`. */
  predicate At(s: seq<Byte>, k: nat, b: seq<Byte>) {
    k + |b| <= |s| && forall i :: 0 <= i < |b| ==> s[k + i] == b[i]
  }

  lemma ByteAt(s: seq<Byte>, k: nat, b: seq<Byte>, i: nat)
    requires At(s, k, b) && i < |b|
    ensures k + i < |s| && s[k + i] == b[i]
  {
  }

  lemma AtIsSlice(s: seq<Byte>, k: nat, b: seq<Byte>)
    ensures At(s, k, b) <==> k + |b| <= |s| && s[k..k + |b|] == b
  {
    if k + |b| <= |s| && s[k..k + |b|] == b {
      assert forall i :: 0 <= i < |b| ==> s[k..k + |b|][i] == b[i];
    }
  }

  lemma ReadBack(s: seq<Byte>, k: nat, v: nat, n: nat)
    requires At(s, k, Le(v, n)) && v < Capacity(n)
    ensures Read(s, k, n) == v
  {
    AtIsSlice(s, k, Le(v, n));
    LeThenValue(v, n);
  }

  lemma AtSplit(s: seq<Byte>, k: nat, a: seq<Byte>, b: seq<Byte>)
    ensures At(s, k, a + b) <==> At(s, k, a) && At(s, k + |a|, b)
  {
    if At(s, k, a + b) {
      assert forall i :: 0 <= i < |a| ==> (a + b)[i] == a[i];
      assert forall i :: 0 <= i < |b| ==> (a + b)[|a| + i] == b[i];
    }
  }

  // ---- Writing ----

  /** `s` with the bytes from `k` on replaced by `b`. */
  function Splice(s: seq<Byte>, k: nat, b: seq<Byte>): (r: seq<Byte>)
    requires k + |b| <= |s|
    ensures |r| == |s|
    ensures r[k..k + |b|] == b
  {
    s[..k] + b + s[k + |b|..]
  }

  lemma SpliceTwice(s: seq<Byte>, k: nat, a: seq<Byte>, b: seq<Byte>)
    requires k + |a| + |b| <= |s|
    ensures Splice(Splice(s, k, a), k + |a|, b) == Splice(s, k, a + b)
  {
  }

  /** Writes the low `n` bytes of `v` at `k`, one byte at a time. */
  method Put(dst: array<Byte>, k: nat, v: nat, n: nat)
    requires k + n <= dst.Length
    modifies dst
    ensures dst[..] == Splice(old(dst[..]), k, Le(v, n))
  {
    var i, rest := 0, v;
    ghost var done: seq<Byte> := [];
    assert dst[..] == Splice(old(dst[..]), k, []);
    while i < n
      invariant 0 <= i == |done| <= n
      invariant Le(v, n) == done + Le(rest, n - i)
      invariant dst[..] == Splice(old(dst[..]), k, done)
    {
      ghost var before := dst[..];
      dst[k + i] := rest % 0x100;
      assert dst[..] == Splice(before, k + i, [rest % 0x100]);
      SpliceTwice(old(dst[..]), k, done, [rest % 0x100]);
      done := done + [rest % 0x100];
      assert Le(rest, n - i) == [rest % 0x100] + Le(rest / 0x100, n - i - 1);
      rest := rest / 0x100;
      i := i + 1;
    }
    assert done + Le(rest, 0) == done;
  }

  /** Writes `b` at `k`. */
  method PutAll(dst: array<Byte>, k: nat, b: seq<Byte>)
    requires k + |b| <= dst.Length
    modifies dst
    ensures dst[..] == Splice(old(dst[..]), k, b)
  {
    var i := 0;
    assert dst[..] == Splice(old(dst[..]), k, b[..0]);
    while i < |b|
      invariant 0 <= i <= |b|
      invariant dst[..] == Splice(old(dst[..]), k, b[..i])
    {
      ghost var before := dst[..];
      dst[k + i] := b[i];
      assert dst[..] == Splice(before, k + i, [b[i]]);
      SpliceTwice(old(dst[..]), k, b[..i], [b[i]]);
      assert b[..i] + [b[i]] == b[..i + 1];
      i := i + 1;
    }
    assert b[..|b|] == b;
  }
}
