/**
 Bytes, searching them, and little-endian integers.
 */
module Bytes {

  type Byte = b: nat | b < 256

  // Position of the first b, or the length when there is none.
  function Find(s: seq<Byte>, b: Byte): (k: nat)
    ensures k <= |s| && b !in s[..k] && (k < |s| ==> s[k] == b)
  {
    if s == [] || s[0] == b then 0 else
      var k := Find(s[1..], b) + 1;
      assert s[..k] == [s[0]] + s[1..][..k - 1];
      k
  }

  lemma {:induction false} FindIn(a: seq<Byte>, b: Byte, rest: seq<Byte>)
    requires b !in a
    ensures Find(a + [b] + rest, b) == |a|
  {
    var s := a + [b] + rest;
    if a != [] {
      assert s[1..] == a[1..] + [b] + rest;
      FindIn(a[1..], b, rest);
    }
  }

  function Pow256(w: nat): nat {
    if w == 0 then 1 else 256 * Pow256(w - 1)
  }

  // The w low bytes of n, least significant first.
  function LittleEndian(n: nat, w: nat): (s: seq<Byte>)
    ensures |s| == w
  {
    if w == 0 then [] else [n % 256] + LittleEndian(n / 256, w - 1)
  }

  function FromLittleEndian(s: seq<Byte>): nat {
    if s == [] then 0 else s[0] + 256 * FromLittleEndian(s[1..])
  }

  lemma {:induction false} LittleEndianInverts(n: nat, w: nat)
    requires n < Pow256(w)
    ensures FromLittleEndian(LittleEndian(n, w)) == n
  {
    if w > 0 {
      LittleEndianInverts(n / 256, w - 1);
      assert LittleEndian(n, w)[1..] == LittleEndian(n / 256, w - 1);
    }
  }

  lemma {:induction false} FromLittleEndianInverts(s: seq<Byte>)
    ensures FromLittleEndian(s) < Pow256(|s|) && LittleEndian(FromLittleEndian(s), |s|) == s
  {
    if s != [] {
      FromLittleEndianInverts(s[1..]);
      var n := FromLittleEndian(s);
      assert n % 256 == s[0] && n / 256 == FromLittleEndian(s[1..]);
    }
  }

  lemma Powers256()
    ensures Pow256(2) == 65536 && Pow256(4) == 0x1_0000_0000
  {
  }
}
