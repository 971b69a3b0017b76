// The snapshot file format: for every type a printer that puts a value in front of a tail of bytes, and a parser
// that takes it off again. Numbers are little-endian, strings and lists are length-prefixed.

module Codec {
  import opened Types

  type Bytes = seq<byte>

  // The longest string and the largest count a reader accepts.
  datatype Limits = Limits(text: uint32, count: uint32)

  const FILE_LIMITS := Limits(1048576, 1000000)
  const WIDE_LIMITS := Limits(0xFFFF_FFFF, 0xFFFF_FFFF)

  // ----- laws -----

  // get undoes put, accepts nothing but what put prints for an acceptable value, and put works in front of any tail.
  ghost predicate Lawful<T(!new)>(put: (T, Bytes) -> Bytes, get: Bytes -> Option<(T, Bytes)>, ok: T -> bool) {
    && (forall x, t {:trigger put(x, t)} :: ok(x) ==> get(put(x, t)) == Some((x, t)))
    && (forall b {:trigger get(b)} :: get(b).Some? ==> b == put(get(b).value.0, get(b).value.1) && ok(get(b).value.0))
    && (forall x, t, c {:trigger put(x, t + c)} {:trigger put(x, t) + c} :: put(x, t) + c == put(x, t + c))
  }

  // ----- numbers -----

  function Pow256(n: nat): nat {
    if n == 0 then 1 else 256 * Pow256(n - 1)
  }

  function PutLE(n: nat, v: nat, t: Bytes): Bytes {
    if n == 0 then t else [v % 256] + PutLE(n - 1, v / 256, t)
  }

  function GetLE(n: nat, b: Bytes): (r: Option<(nat, Bytes)>)
    ensures r.Some? ==> r.value.0 < Pow256(n)
  {
    if n == 0 then Some((0, b))
    else if b == [] then None
    else
      var (v, t) :- GetLE(n - 1, b[1..]);
      Some((b[0] + 256 * v, t))
  }

  lemma {:induction false} RoundTripLE(n: nat, v: nat, t: Bytes)
    requires v < Pow256(n)
    ensures GetLE(n, PutLE(n, v, t)) == Some((v, t))
  {
    if n > 0 {
      RoundTripLE(n - 1, v / 256, t);
      assert PutLE(n, v, t)[1..] == PutLE(n - 1, v / 256, t);
    }
  }

  lemma {:induction false} CanonicalLE(n: nat, b: Bytes)
    ensures GetLE(n, b).Some? ==> PutLE(n, GetLE(n, b).value.0, GetLE(n, b).value.1) == b
  {
    if n > 0 && b != [] {
      CanonicalLE(n - 1, b[1..]);
      assert b == [b[0]] + b[1..];
    }
  }

  lemma {:induction false} AppendLE(n: nat, v: nat, t: Bytes, c: Bytes)
    ensures PutLE(n, v, t) + c == PutLE(n, v, t + c)
  {
    if n > 0 {
      AppendLE(n - 1, v / 256, t, c);
    }
  }

  function PutU32(v: uint32, t: Bytes): Bytes {
    PutLE(4, v, t)
  }

  function GetU32(b: Bytes): Option<(uint32, Bytes)> {
    assert Pow256(4) == 0x1_0000_0000;
    var (v, t) :- GetLE(4, b);
    Some((v, t))
  }

  function PutU64(v: uint64, t: Bytes): Bytes {
    PutLE(8, v, t)
  }

  function GetU64(b: Bytes): Option<(uint64, Bytes)> {
    assert Pow256(4) == 0x1_0000_0000;
    assert Pow256(8) == 0x1_0000_0000_0000_0000;
    var (v, t) :- GetLE(8, b);
    Some((v, t))
  }

  lemma U32Laws()
    ensures Lawful(PutU32, GetU32, (v: uint32) => true)
  {
    assert Pow256(4) == 0x1_0000_0000;
    forall v: uint32, t ensures GetU32(PutU32(v, t)) == Some((v, t)) { RoundTripLE(4, v, t); }
    forall b | GetU32(b).Some? ensures b == PutU32(GetU32(b).value.0, GetU32(b).value.1) { CanonicalLE(4, b); }
    forall v: uint32, t, c ensures PutU32(v, t) + c == PutU32(v, t + c) { AppendLE(4, v, t, c); }
  }

  lemma U64Laws()
    ensures Lawful(PutU64, GetU64, (v: uint64) => true)
  {
    assert Pow256(4) == 0x1_0000_0000;
    assert Pow256(8) == 0x1_0000_0000_0000_0000;
    forall v: uint64, t ensures GetU64(PutU64(v, t)) == Some((v, t)) { RoundTripLE(8, v, t); }
    forall b | GetU64(b).Some? ensures b == PutU64(GetU64(b).value.0, GetU64(b).value.1) { CanonicalLE(8, b); }
    forall v: uint64, t, c ensures PutU64(v, t) + c == PutU64(v, t + c) { AppendLE(8, v, t, c); }
  }

  // Two's complement.
  function PutI32(v: int32, t: Bytes): Bytes {
    PutU32(if v < 0 then v + 0x1_0000_0000 else v, t)
  }

  function GetI32(b: Bytes): Option<(int32, Bytes)> {
    var (v, t) :- GetU32(b);
    Some((if v < 0x8000_0000 then v else v - 0x1_0000_0000, t))
  }

  lemma I32Laws()
    ensures Lawful(PutI32, GetI32, (v: int32) => true)
  {
    U32Laws();
  }

  function PutBool(v: bool, t: Bytes): Bytes {
    PutU32(if v then 1 else 0, t)
  }

  function GetBool(b: Bytes): Option<(bool, Bytes)> {
    var (v, t) :- GetU32(b);
    if v > 1 then None else Some((v == 1, t))
  }

  lemma BoolLaws()
    ensures Lawful(PutBool, GetBool, (v: bool) => true)
  {
    U32Laws();
  }

  // ----- strings -----

  function PutText(s: Text, t: Bytes): Bytes {
    PutU32(|s| % 0x1_0000_0000, s + t)
  }

  function GetText(lim: Limits, b: Bytes): Option<(Text, Bytes)> {
    var (n, r) :- GetU32(b);
    if n > lim.text || |r| < n then None else Some((r[..n], r[n..]))
  }

  lemma TextRoundTrip(lim: Limits, s: Text, t: Bytes)
    requires |s| <= lim.text
    ensures GetText(lim, PutText(s, t)) == Some((s, t))
  {
    U32Laws();
    assert GetU32(PutText(s, t)) == Some((|s|, s + t));
  }

  lemma TextCanonical(lim: Limits, b: Bytes)
    ensures var r := GetText(lim, b);
      r.Some? ==> b == PutText(r.value.0, r.value.1) && |r.value.0| <= lim.text
  {
    if GetText(lim, b).Some? {
      var (n, r) := GetU32(b).value;
      CanonicalLE(4, b);
      assert r == r[..n] + r[n..];
    }
  }

  lemma TextAppend(s: Text, t: Bytes, c: Bytes)
    ensures PutText(s, t) + c == PutText(s, t + c)
  {
    AppendLE(4, |s| % 0x1_0000_0000, s + t, c);
    assert (s + t) + c == s + (t + c);
  }

  // ----- lists -----

  function PutAll<T>(put: (T, Bytes) -> Bytes, xs: seq<T>, t: Bytes): Bytes {
    if xs == [] then t else put(xs[0], PutAll(put, xs[1..], t))
  }

  function GetAll<T>(get: Bytes -> Option<(T, Bytes)>, n: nat, b: Bytes): (r: Option<(seq<T>, Bytes)>)
    ensures r.Some? ==> |r.value.0| == n
  {
    if n == 0 then Some(([], b))
    else
      var (x, u) :- get(b);
      var (xs, t) :- GetAll(get, n - 1, u);
      Some(([x] + xs, t))
  }

  function PutList<T>(put: (T, Bytes) -> Bytes, xs: seq<T>, t: Bytes): Bytes {
    PutU32(|xs| % 0x1_0000_0000, PutAll(put, xs, t))
  }

  function GetList<T>(lim: Limits, get: Bytes -> Option<(T, Bytes)>, b: Bytes): Option<(seq<T>, Bytes)> {
    var (n, r) :- GetU32(b);
    if n > lim.count then None else GetAll(get, n, r)
  }

  ghost predicate ListOk<T(!new)>(lim: Limits, ok: T -> bool, xs: seq<T>) {
    |xs| <= lim.count && forall i :: 0 <= i < |xs| ==> ok(xs[i])
  }

  lemma {:induction false} AllRoundTrip<T(!new)>(put: (T, Bytes) -> Bytes, get: Bytes -> Option<(T, Bytes)>,
    ok: T -> bool, xs: seq<T>, t: Bytes)
    requires Lawful(put, get, ok) && forall i :: 0 <= i < |xs| ==> ok(xs[i])
    ensures GetAll(get, |xs|, PutAll(put, xs, t)) == Some((xs, t))
  {
    if xs != [] {
      AllRoundTrip(put, get, ok, xs[1..], t);
      assert xs == [xs[0]] + xs[1..];
    }
  }

  lemma {:induction false} AllCanonical<T(!new)>(put: (T, Bytes) -> Bytes, get: Bytes -> Option<(T, Bytes)>,
    ok: T -> bool, n: nat, b: Bytes)
    requires Lawful(put, get, ok)
    ensures var r := GetAll(get, n, b);
      r.Some? ==> b == PutAll(put, r.value.0, r.value.1) && forall i :: 0 <= i < n ==> ok(r.value.0[i])
  {
    if n > 0 && get(b).Some? {
      var u := get(b).value.1;
      AllCanonical(put, get, ok, n - 1, u);
      var r := GetAll(get, n, b);
      if r.Some? {
        assert r.value.0[1..] == GetAll(get, n - 1, u).value.0;
      }
    }
  }

  lemma {:induction false} AllAppend<T(!new)>(put: (T, Bytes) -> Bytes, get: Bytes -> Option<(T, Bytes)>,
    ok: T -> bool, xs: seq<T>, t: Bytes, c: Bytes)
    requires Lawful(put, get, ok)
    ensures PutAll(put, xs, t) + c == PutAll(put, xs, t + c)
  {
    if xs != [] {
      AllAppend(put, get, ok, xs[1..], t, c);
    }
  }

  // The three laws for a list, given those of its elements.
  lemma ListRoundTrip<T(!new)>(lim: Limits, put: (T, Bytes) -> Bytes, get: Bytes -> Option<(T, Bytes)>,
    ok: T -> bool, xs: seq<T>, t: Bytes)
    requires Lawful(put, get, ok) && ListOk(lim, ok, xs)
    ensures GetList(lim, get, PutList(put, xs, t)) == Some((xs, t))
  {
    U32Laws();
    AllRoundTrip(put, get, ok, xs, t);
    assert GetU32(PutList(put, xs, t)) == Some((|xs|, PutAll(put, xs, t)));
  }

  lemma ListCanonical<T(!new)>(lim: Limits, put: (T, Bytes) -> Bytes, get: Bytes -> Option<(T, Bytes)>,
    ok: T -> bool, b: Bytes)
    requires Lawful(put, get, ok)
    ensures var r := GetList(lim, get, b);
      r.Some? ==> b == PutList(put, r.value.0, r.value.1) && ListOk(lim, ok, r.value.0)
  {
    U32Laws();
    if GetU32(b).Some? {
      AllCanonical(put, get, ok, GetU32(b).value.0, GetU32(b).value.1);
    }
  }

  lemma ListAppend<T(!new)>(put: (T, Bytes) -> Bytes, get: Bytes -> Option<(T, Bytes)>, ok: T -> bool,
    xs: seq<T>, t: Bytes, c: Bytes)
    requires Lawful(put, get, ok)
    ensures PutList(put, xs, t) + c == PutList(put, xs, t + c)
  {
    U32Laws();
    AllAppend(put, get, ok, xs, t, c);
  }
}
