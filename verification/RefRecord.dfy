/**
 The length-prefixed reference record: its printer, and the cursor that parses it.
 */
module RefRecord {
  import opened Options
  import opened Bytes

  datatype Ref = Ref(name: seq<Byte>, root: seq<Byte>, parent: Option<seq<Byte>>, time: seq<Byte>, version: seq<Byte>)

  const MAX_RECORD: nat := 131147

  // ── Names ─────────────────────────────────────────────────────────────────

  predicate LowerOrDigit(b: Byte) { 97 <= b <= 122 || 48 <= b <= 57 }

  predicate BaseName(s: seq<Byte>) {
    1 <= |s| <= 64 && forall b | b in s :: LowerOrDigit(b) || b == 46 || b == 95 || b == 45
  }

  predicate Namespace(s: seq<Byte>) {
    1 <= |s| <= 32 && forall b | b in s :: LowerOrDigit(b) || b == 45
  }

  // An optional "@namespace/" followed by a base name.
  predicate IsName(s: seq<Byte>) {
    if s != [] && s[0] == 64 then
      var k := Find(s, 47);
      0 < k < |s| && Namespace(s[1..k]) && BaseName(s[k + 1..])
    else BaseName(s)
  }

  lemma NameLength(s: seq<Byte>)
    requires IsName(s)
    ensures 1 <= |s| <= 98
  {
  }

  // ── The record ────────────────────────────────────────────────────────────

  predicate ValidRef(utf8: seq<Byte> -> bool, r: Ref) {
    && IsName(r.name) && utf8(r.name) && |r.root| == 32
    && (r.parent.Some? ==> |r.parent.value| == 32)
    && |r.time| == 8 && |r.version| < 65536 && utf8(r.version)
  }

  function ParentText(parent: Option<seq<Byte>>): seq<Byte> {
    if parent.None? then [0] else [1] + parent.value
  }

  function ParentBytes(r: Ref): seq<Byte> { ParentText(r.parent) }

  function Print(r: Ref): seq<Byte> {
    LittleEndian(|r.name|, 2) + r.name + r.root + ParentBytes(r) + r.time + LittleEndian(|r.version|, 2) + r.version
  }

  // Where the fields of a record lie in anything that starts with it.
  ghost predicate LaidOut(s: seq<Byte>, r: Ref)
    requires |r.root| == 32 && (r.parent.Some? ==> |r.parent.value| == 32) && |r.time| == 8
  {
    var p := 34 + |r.name|;
    var t := p + |ParentBytes(r)|;
    && |s| >= t + 10 + |r.version|
    && s[..2] == LittleEndian(|r.name|, 2) && s[2..2 + |r.name|] == r.name && s[2 + |r.name|..p] == r.root
    && s[p..t] == ParentBytes(r) && s[p] == (if r.parent.None? then 0 else 1)
    && s[t..t + 8] == r.time && s[t + 8..t + 10] == LittleEndian(|r.version|, 2)
    && s[t + 10..t + 10 + |r.version|] == r.version
  }

  function Size(r: Ref): nat {
    |r.name| + |r.root| + |ParentBytes(r)| + |r.time| + |r.version| + 4
  }

  lemma PrintLayout(r: Ref, tail: seq<Byte>)
    requires |r.root| == 32 && (r.parent.Some? ==> |r.parent.value| == 32) && |r.time| == 8
    ensures LaidOut(Print(r) + tail, r) && |Print(r)| == Size(r)
  {
    hide LittleEndian;
  }

  lemma SameName(s: seq<Byte>, x: Ref, y: Ref)
    requires |s| >= 2 && s[..2] == LittleEndian(|x.name|, 2) == LittleEndian(|y.name|, 2)
    requires |x.name| < 65536 && |y.name| < 65536
    ensures |x.name| == |y.name|
  {
    Powers256();
    LittleEndianInverts(|x.name|, 2);
    LittleEndianInverts(|y.name|, 2);
  }

  // A byte string starts with at most one record.
  lemma LayoutUnique(utf8: seq<Byte> -> bool, s: seq<Byte>, x: Ref, y: Ref)
    requires ValidRef(utf8, x) && ValidRef(utf8, y) && LaidOut(s, x) && LaidOut(s, y)
    ensures x == y
  {
    NameLength(x.name);
    NameLength(y.name);
    SameName(s, x, y);
    hide LittleEndian, IsName;
    assert x.name == y.name && x.root == y.root;
    assert |ParentBytes(x)| == |ParentBytes(y)| && x.parent == y.parent by {
      var p := 34 + |x.name|;
      assert s[p..p + |ParentBytes(x)|] == ParentBytes(x) && s[p..p + |ParentBytes(y)|] == ParentBytes(y);
      if x.parent.Some? {
        assert ParentBytes(x)[1..] == x.parent.value && ParentBytes(y)[1..] == y.parent.value;
      }
    }
    VersionLength(|x.version|, |y.version|);
  }

  lemma VersionLength(n: nat, m: nat)
    requires n < 65536 && m < 65536
    ensures LittleEndian(n, 2) == LittleEndian(m, 2) ==> n == m
  {
    Powers256();
    LittleEndianInverts(n, 2);
    LittleEndianInverts(m, 2);
  }

  // No record is a strict prefix of another; in particular the printer is injective.
  lemma PrefixFree(utf8: seq<Byte> -> bool, x: Ref, y: Ref)
    requires ValidRef(utf8, x) && ValidRef(utf8, y) && Print(x) <= Print(y)
    ensures x == y
  {
    hide Print, LaidOut, IsName;
    var tail := Print(y)[|Print(x)|..];
    PrintLayout(x, tail);
    PrintLayout(y, []);
    assert Print(y) + [] == Print(x) + tail;
    LayoutUnique(utf8, Print(y) + [], x, y);
  }

  lemma RecordsFit(utf8: seq<Byte> -> bool, r: Ref)
    requires ValidRef(utf8, r)
    ensures |Print(r)| <= MAX_RECORD
  {
    hide Print;
    NameLength(r.name);
    PrintLayout(r, []);
  }

  // ── Parsing ───────────────────────────────────────────────────────────────

  // What parsing means: the one record that prints as these bytes, if there is one.
  ghost function Parse(utf8: seq<Byte> -> bool, raw: seq<Byte>): Option<Ref> {
    if exists r :: ValidRef(utf8, r) && Print(r) == raw
    then var r :| ValidRef(utf8, r) && Print(r) == raw; Some(r)
    else None
  }

  lemma ParseInverts(utf8: seq<Byte> -> bool, r: Ref)
    requires ValidRef(utf8, r)
    ensures Parse(utf8, Print(r)) == Some(r)
  {
    hide Print, ValidRef;
    var other := Parse(utf8, Print(r)).value;
    assert ValidRef(utf8, other) && Print(other) == Print(r);
    PrefixFree(utf8, other, r);
  }

  // A byte string that starts with two zero bytes, as every frame tag does, is no record.
  lemma FrameTagsAreNotRecords(utf8: seq<Byte> -> bool, raw: seq<Byte>)
    requires |raw| >= 2 && raw[0] == 0 && raw[1] == 0
    ensures Parse(utf8, raw) == None
  {
    forall r | ValidRef(utf8, r) ensures Print(r) != raw {
      NameLength(r.name);
      NonzeroLength(|r.name|);
      assert Print(r)[0] == LittleEndian(|r.name|, 2)[0] && Print(r)[1] == LittleEndian(|r.name|, 2)[1];
    }
  }

  lemma NonzeroLength(n: nat)
    requires 0 < n < 65536
    ensures LittleEndian(n, 2)[0] != 0 || LittleEndian(n, 2)[1] != 0
  {
    assert LittleEndian(n, 2)[1..] == LittleEndian(n / 256, 1);
  }

  class Cursor {
    const raw: seq<Byte>
    var pos: nat

    constructor (bytes: seq<Byte>)
      ensures raw == bytes && pos == 0
    {
      raw, pos := bytes, 0;
    }

    method Take(size: nat) returns (r: Option<seq<Byte>>)
      requires pos <= |raw|
      modifies this
      ensures pos <= |raw|
      ensures r == if old(pos) + size <= |raw| then Some(raw[old(pos)..old(pos) + size]) else None
      ensures pos == if r.Some? then old(pos) + size else old(pos)
    {
      if pos + size > |raw| {
        return None;
      }
      r := Some(raw[pos..pos + size]);
      pos := pos + size;
    }

    method TakeMiddle() returns (ok: bool, root: seq<Byte>, parent: Option<seq<Byte>>, time: seq<Byte>)
      requires pos <= |raw|
      modifies this
      ensures pos <= |raw| && (ok <==> MiddleFits(raw, old(pos)))
      ensures ok ==> MiddleIs(raw, old(pos), root, parent, time)
      ensures ok ==> pos == old(pos) + 40 + |ParentText(parent)|
      ensures ok ==> |ParentText(parent)| == if raw[old(pos) + 32] == 0 then 1 else 33
    {
      ok, root, parent, time := false, [], None, [];
      var first := Take(32);
      if first.None? {
        return;
      }
      root := first.value;
      var tag := Take(1);
      if tag.None? || tag.value[0] > 1 {
        return;
      }
      if tag.value[0] == 1 {
        parent := Take(32);
        if parent.None? {
          return;
        }
      }
      var last := Take(8);
      if last.None? {
        return;
      }
      ok, time := true, last.value;
      ghost var q := old(pos) + 32;
      if parent.Some? {
        assert raw[q..q + 33] == raw[q..q + 1] + raw[q + 1..q + 33];
        assert raw[q..q + 1] == [1];
      } else {
        assert raw[q..q + 1] == [0];
      }
    }

    // A two-byte length and that many bytes.
    method TakeCounted() returns (r: Option<seq<Byte>>)
      requires pos <= |raw|
      modifies this
      ensures pos <= |raw|
      ensures r.Some? <==> Counted(raw, old(pos)).Some?
      ensures r.Some? ==> r == Counted(raw, old(pos)) && pos == old(pos) + 2 + |r.value|
    {
      var count := Take(2);
      if count.None? {
        return None;
      }
      r := Take(FromLittleEndian(count.value));
    }
  }

  // Root, parent tag, parent and time, when they fit and the tag is known.
  predicate MiddleFits(s: seq<Byte>, p: nat) {
    && p + 32 < |s| && s[p + 32] <= 1
    && p + 32 + (if s[p + 32] == 0 then 1 else 33) + 8 <= |s|
  }

  predicate MiddleIs(s: seq<Byte>, p: nat, root: seq<Byte>, parent: Option<seq<Byte>>, time: seq<Byte>) {
    var t := p + 32 + |ParentText(parent)|;
    && t + 8 <= |s| && s[p..p + 32] == root && s[p + 32..t] == ParentText(parent) && s[t..t + 8] == time
    && (parent.Some? ==> |parent.value| == 32)
  }

  function Counted(s: seq<Byte>, pos: nat): Option<seq<Byte>> {
    if pos + 2 > |s| then None else
      var n := FromLittleEndian(s[pos..pos + 2]);
      if pos + 2 + n > |s| then None else Some(s[pos + 2..pos + 2 + n])
  }

  lemma CountedIs(s: seq<Byte>, pos: nat, bytes: seq<Byte>)
    requires |bytes| < 65536 && pos + 2 + |bytes| <= |s|
    requires s[pos..pos + 2] == LittleEndian(|bytes|, 2) && s[pos + 2..pos + 2 + |bytes|] == bytes
    ensures Counted(s, pos) == Some(bytes)
  {
    Powers256();
    LittleEndianInverts(|bytes|, 2);
    hide LittleEndian, FromLittleEndian, Pow256;
  }

  lemma CountedPrints(s: seq<Byte>, pos: nat)
    requires Counted(s, pos).Some?
    ensures var b := Counted(s, pos).value; |b| < 65536 && s[pos..pos + 2 + |b|] == LittleEndian(|b|, 2) + b
  {
    Powers256();
    FromLittleEndianInverts(s[pos..pos + 2]);
    var b := Counted(s, pos).value;
    assert s[pos..pos + 2 + |b|] == s[pos..pos + 2] + s[pos + 2..pos + 2 + |b|];
  }

  // Each step of the parser, for a record that is really there.
  lemma StepsOf(utf8: seq<Byte> -> bool, raw: seq<Byte>, r: Ref)
    requires ValidRef(utf8, r) && Print(r) == raw
    ensures var p := 34 + |r.name|;
            var t := p + |ParentBytes(r)|;
            && Counted(raw, 0) == Some(r.name) && t + 8 <= |raw| && raw[2 + |r.name|..p] == r.root
            && raw[p] == (if r.parent.None? then 0 else 1) && |ParentBytes(r)| == (if raw[p] == 0 then 1 else 33)
            && Counted(raw, t + 8) == Some(r.version) && t + 10 + |r.version| == |raw|
  {
    hide Print, IsName, LittleEndian, Counted;
    PrintLayout(r, []);
    assert Print(r) + [] == raw;
    NameLength(r.name);
    CountedIs(raw, 0, r.name);
    CountedIs(raw, 34 + |r.name| + |ParentBytes(r)| + 8, r.version);
  }

  // Conversely, the parsed pieces print as the bytes they were taken from.
  lemma PiecesPrint(raw: seq<Byte>, r: Ref)
    requires Counted(raw, 0) == Some(r.name)
    requires |raw| > 34 + |r.name| && raw[2 + |r.name|..34 + |r.name|] == r.root
    requires var p := 34 + |r.name|; var t := p + |ParentBytes(r)|;
             && t + 8 <= |raw| && raw[p..t] == ParentBytes(r) && raw[t..t + 8] == r.time
             && Counted(raw, t + 8) == Some(r.version) && t + 10 + |r.version| == |raw|
    ensures Print(r) == raw
  {
    CountedPrints(raw, 0);
    var p := 34 + |r.name|;
    var t := p + |ParentBytes(r)|;
    CountedPrints(raw, t + 8);
    hide Counted, LittleEndian, ParentBytes, ParentText;
    var n, v := LittleEndian(|r.name|, 2), LittleEndian(|r.version|, 2);
    var head := n + r.name;
    assert head == raw[..2 + |r.name|];
    Glue(raw, 2 + |r.name|, p);
    Glue(raw, p, t);
    Glue(raw, t, t + 8);
    var before := head + r.root + ParentBytes(r) + r.time;
    assert before == raw[..t + 8];
    assert v + r.version == raw[t + 8..|raw|];
    Glue(raw, t + 8, |raw|);
    assert before + v + r.version == before + (v + r.version);
  }

  lemma Glue(s: seq<Byte>, i: nat, j: nat)
    requires i <= j <= |s|
    ensures s[..i] + s[i..j] == s[..j] && s[..|s|] == s
  {
  }

  // The parser's checks, in one place.
  predicate Passes(utf8: seq<Byte> -> bool, raw: seq<Byte>) {
    && |raw| <= MAX_RECORD && Counted(raw, 0).Some?
    && var name := Counted(raw, 0).value;
    && utf8(name) && IsName(name) && 34 + |name| < |raw| && raw[34 + |name|] <= 1
    && var t := 34 + |name| + if raw[34 + |name|] == 0 then 1 else 33;
    && t + 8 <= |raw| && Counted(raw, t + 8).Some?
    && utf8(Counted(raw, t + 8).value) && t + 10 + |Counted(raw, t + 8).value| == |raw|
  }

  lemma RejectsRightly(utf8: seq<Byte> -> bool, raw: seq<Byte>)
    requires !Passes(utf8, raw)
    ensures Parse(utf8, raw) == None
  {
    hide Print, IsName, Counted;
    forall x | ValidRef(utf8, x) ensures Print(x) != raw {
      if Print(x) == raw {
        RecordsFit(utf8, x);
        StepsOf(utf8, raw, x);
      }
    }
  }

  // One lemma per place where the parser gives up.
  lemma RejectsName(utf8: seq<Byte> -> bool, raw: seq<Byte>)
    requires || |raw| > MAX_RECORD || Counted(raw, 0).None?
             || !utf8(Counted(raw, 0).value) || !IsName(Counted(raw, 0).value)
    ensures Parse(utf8, raw) == None
  {
    hide Parse, Counted, IsName;
    RejectsRightly(utf8, raw);
  }

  lemma RejectsMiddle(utf8: seq<Byte> -> bool, raw: seq<Byte>, n: nat)
    requires Counted(raw, 0).Some? && |Counted(raw, 0).value| == n && !MiddleFits(raw, 2 + n)
    ensures Parse(utf8, raw) == None
  {
    hide Parse, Counted, IsName;
    RejectsRightly(utf8, raw);
  }

  lemma RejectsTail(utf8: seq<Byte> -> bool, raw: seq<Byte>, n: nat, t: nat)
    requires Counted(raw, 0).Some? && |Counted(raw, 0).value| == n && MiddleFits(raw, 2 + n) && 34 + n < |raw|
    requires t == 42 + n + if raw[34 + n] == 0 then 1 else 33
    requires || Counted(raw, t).None? || !utf8(Counted(raw, t).value)
             || t + 2 + |Counted(raw, t).value| != |raw|
    ensures Parse(utf8, raw) == None
  {
    hide Parse, Counted, IsName;
    RejectsRightly(utf8, raw);
  }

  // refrecord: the cursor's result is the inverse of the printer, errors included.
  method ParseRefRecord(utf8: seq<Byte> -> bool, raw: seq<Byte>) returns (r: Option<Ref>)
    ensures r == Parse(utf8, raw)
  {
    hide Print, Parse, IsName, Counted, LittleEndian, MiddleFits, MiddleIs, ParentText;
    r := None;
    if |raw| > MAX_RECORD {
      RejectsName(utf8, raw);
      return;
    }
    var cursor := new Cursor(raw);
    var name := cursor.TakeCounted();
    if name.None? || !utf8(name.value) || !IsName(name.value) {
      RejectsName(utf8, raw);
      return;
    }
    var fits, root, parent, time := cursor.TakeMiddle();
    if !fits {
      RejectsMiddle(utf8, raw, |name.value|);
      return;
    }
    ghost var t := cursor.pos;
    var version := cursor.TakeCounted();
    if version.None? || !utf8(version.value) || cursor.pos != |raw| {
      RejectsTail(utf8, raw, |name.value|, t);
      return;
    }
    var parsed := Ref(name.value, root, parent, time, version.value);
    AcceptsRightly(utf8, raw, parsed);
    r := Some(parsed);
  }

  lemma AcceptsRightly(utf8: seq<Byte> -> bool, raw: seq<Byte>, r: Ref)
    requires Counted(raw, 0) == Some(r.name) && utf8(r.name) && IsName(r.name)
    requires MiddleIs(raw, 2 + |r.name|, r.root, r.parent, r.time)
    requires var t := 42 + |r.name| + |ParentBytes(r)|;
             Counted(raw, t) == Some(r.version) && utf8(r.version) && t + 2 + |r.version| == |raw|
    ensures Parse(utf8, raw) == Some(r)
  {
    hide Print, Parse, IsName, Counted;
    PiecesPrint(raw, r);
    CountedFits(raw, 34 + |r.name| + |ParentBytes(r)| + 8);
    ParseInverts(utf8, r);
  }

  lemma CountedFits(s: seq<Byte>, pos: nat)
    requires Counted(s, pos).Some?
    ensures |Counted(s, pos).value| < 65536
  {
    CountedPrints(s, pos);
  }
}
