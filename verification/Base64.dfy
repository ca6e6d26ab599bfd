/**
 Base64 (section 4 of RFC 4648) and the decoder that admits only canonical text.
 */
module Base64 {
  import opened Options
  import opened Bytes

  // ── The encoding ──────────────────────────────────────────────────────────

  function Letter(v: nat): char
    requires v < 64
  {
    if v < 26 then 'A' + v as char
    else if v < 52 then 'a' + (v - 26) as char
    else if v < 62 then '0' + (v - 52) as char
    else if v == 62 then '+' else '/'
  }

  function Value(c: char): Option<nat> {
    if 'A' <= c <= 'Z' then Some(c as nat - 'A' as nat)
    else if 'a' <= c <= 'z' then Some(c as nat - 'a' as nat + 26)
    else if '0' <= c <= '9' then Some(c as nat - '0' as nat + 52)
    else if c == '+' then Some(62)
    else if c == '/' then Some(63)
    else None
  }

  lemma LetterInverts(v: nat)
    requires v < 64
    ensures Value(Letter(v)) == Some(v) && Letter(v) != '='
  {
  }

  // The four six-bit groups of three bytes, and the three bytes of four groups.
  function Group0(a: Byte): (v: nat) ensures v < 64 { a / 4 }
  function Group1(a: Byte, b: Byte): (v: nat) ensures v < 64 { a % 4 * 16 + b / 16 }
  function Group2(b: Byte, c: Byte): (v: nat) ensures v < 64 { b % 16 * 4 + c / 64 }
  function Group3(c: Byte): (v: nat) ensures v < 64 { c % 64 }
  function Byte0(p: nat, q: nat): Byte { (p * 4 + q / 16) % 256 }
  function Byte1(q: nat, r: nat): Byte { (q % 16 * 16 + r / 4) % 256 }
  function Byte2(r: nat, s: nat): Byte { (r % 4 * 64 + s) % 256 }

  lemma SplitOff(high: nat, low: nat, base: nat)
    requires low < base && (base == 4 || base == 16)
    ensures (high * base + low) / base == high && (high * base + low) % base == low
  {
  }

  lemma FirstByte(a: Byte, b: Byte)
    ensures Byte0(Group0(a), Group1(a, b)) == a
  {
    SplitOff(a % 4, b / 16, 16);
  }

  lemma SecondByte(a: Byte, b: Byte, c: Byte)
    ensures Byte1(Group1(a, b), Group2(b, c)) == b
  {
    var q, r := Group1(a, b), Group2(b, c);
    assert q % 16 == b / 16 by { SplitOff(a % 4, b / 16, 16); }
    assert r / 4 == b % 16 by { SplitOff(b % 16, c / 64, 4); }
    hide Group1, Group2;
    assert b / 16 * 16 + b % 16 == b;
  }

  lemma ThirdByte(b: Byte, c: Byte)
    ensures Byte2(Group2(b, c), Group3(c)) == c
  {
    SplitOff(b % 16, c / 64, 4);
  }

  lemma GroupsInvert(a: Byte, b: Byte, c: Byte)
    ensures Byte0(Group0(a), Group1(a, b)) == a
    ensures Byte1(Group1(a, b), Group2(b, c)) == b
    ensures Byte2(Group2(b, c), Group3(c)) == c
  {
    hide *;
    FirstByte(a, b);
    SecondByte(a, b, c);
    ThirdByte(b, c);
  }

  function Encode(x: seq<Byte>): string {
    if x == [] then []
    else if |x| == 1 then [Letter(Group0(x[0])), Letter(Group1(x[0], 0)), '=', '=']
    else if |x| == 2 then [Letter(Group0(x[0])), Letter(Group1(x[0], x[1])), Letter(Group2(x[1], 0)), '=']
    else
      [Letter(Group0(x[0])), Letter(Group1(x[0], x[1])), Letter(Group2(x[1], x[2])), Letter(Group3(x[2]))]
      + Encode(x[3..])
  }

  lemma {:induction false} EncodeLength(x: seq<Byte>)
    ensures |Encode(x)| == 4 * ((|x| + 2) / 3)
  {
    hide Letter;
    if |x| >= 3 {
      EncodeLength(x[3..]);
    }
  }

  // ── A decoder ─────────────────────────────────────────────────────────────

  // Groups of four letters, the last padded; spare bits of a padded group are dropped.
  function Decode(s: string): Option<seq<Byte>> {
    if s == [] then Some([])
    else if |s| < 4 || Value(s[0]).None? || Value(s[1]).None? then None
    else
      var p, q := Value(s[0]).value, Value(s[1]).value;
      if s[2] == '=' then (if s[3] == '=' && |s| == 4 then Some([Byte0(p, q)]) else None)
      else if Value(s[2]).None? then None
      else
        var r := Value(s[2]).value;
        if s[3] == '=' then (if |s| == 4 then Some([Byte0(p, q), Byte1(q, r)]) else None)
        else if Value(s[3]).None? then None
        else
          var rest := Decode(s[4..]);
          if rest.None? then None else Some([Byte0(p, q), Byte1(q, r), Byte2(r, Value(s[3]).value)] + rest.value)
  }

  lemma DecodeShort(x: seq<Byte>)
    requires |x| == 1 || |x| == 2
    ensures Decode(Encode(x)) == Some(x)
  {
    hide Letter, Value, Group0, Group1, Group2, Group3, Byte0, Byte1, Byte2;
    var b := if |x| == 2 then x[1] else 0;
    GroupsInvert(x[0], b, 0);
    LetterInverts(Group0(x[0]));
    LetterInverts(Group1(x[0], b));
    LetterInverts(Group2(b, 0));
    if |x| == 2 {
      assert x == [x[0], x[1]];
    } else {
      assert x == [x[0]];
    }
  }

  lemma DecodeGroup(x: seq<Byte>, rest: string)
    requires |x| == 3
    ensures var four := [Letter(Group0(x[0])), Letter(Group1(x[0], x[1])),
                         Letter(Group2(x[1], x[2])), Letter(Group3(x[2]))];
            Decode(four + rest) == if Decode(rest).None? then None else Some(x + Decode(rest).value)
  {
    hide Letter, Value, Group0, Group1, Group2, Group3, Byte0, Byte1, Byte2;
    GroupsInvert(x[0], x[1], x[2]);
    LetterInverts(Group0(x[0]));
    LetterInverts(Group1(x[0], x[1]));
    LetterInverts(Group2(x[1], x[2]));
    LetterInverts(Group3(x[2]));
    var four := [Letter(Group0(x[0])), Letter(Group1(x[0], x[1])), Letter(Group2(x[1], x[2])), Letter(Group3(x[2]))];
    assert (four + rest)[4..] == rest;
    assert x == [x[0], x[1], x[2]];
  }

  lemma {:induction false} DecodeInverts(x: seq<Byte>)
    ensures Decode(Encode(x)) == Some(x)
  {
    if x == [] {
    } else if |x| < 3 {
      DecodeShort(x);
    } else {
      hide Decode, Letter;
      DecodeInverts(x[3..]);
      DecodeGroup(x[..3], Encode(x[3..]));
      assert x == x[..3] + x[3..];
    }
  }

  // ── unbase ────────────────────────────────────────────────────────────────

  // A library decoder: at the least, it undoes the encoder.
  ghost predicate Undoes(dec: string -> Option<seq<Byte>>) {
    forall x :: dec(Encode(x)) == Some(x)
  }

  lemma DecodeUndoes()
    ensures Undoes(Decode)
  {
    forall x ensures Decode(Encode(x)) == Some(x) {
      DecodeInverts(x);
    }
  }

  function Unbase(dec: string -> Option<seq<Byte>>, text: string, limit: nat): Option<seq<Byte>> {
    if |text| > 4 * ((limit + 2) / 3) then None
    else
      var raw := dec(text);
      if raw.Some? && |raw.value| <= limit && Encode(raw.value) == text then raw else None
  }

  // Exactly the canonical encodings of byte strings up to the limit, whatever the library
  // makes of other text; the length test in front never turns one of them away.
  lemma UnbaseExact(dec: string -> Option<seq<Byte>>, text: string, limit: nat, raw: seq<Byte>)
    requires Undoes(dec)
    ensures Unbase(dec, text, limit) == Some(raw) <==> text == Encode(raw) && |raw| <= limit
  {
    hide Encode;
    EncodeLength(raw);
    if text == Encode(raw) {
      assert dec(Encode(raw)) == Some(raw);
    }
  }

  // The hypothesis can be met: with the decoder above, `unbase` is the inverse of the
  // encoder on byte strings up to the limit, and undefined elsewhere.
  lemma UnbaseWithDecode(text: string, limit: nat, raw: seq<Byte>)
    ensures Unbase(Decode, text, limit) == Some(raw) <==> text == Encode(raw) && |raw| <= limit
  {
    hide Undoes, Unbase, Encode;
    DecodeUndoes();
    UnbaseExact(Decode, text, limit, raw);
  }
}
