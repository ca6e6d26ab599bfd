/**
 Bounding JSON input before it is parsed: the read loop, and the byte scanner that limits
 nesting, against a concrete syntax tree of the document.
 */
module JsonDepth {
  import opened Bytes

  const MAX_INPUT_BYTES: nat := 8 * 1024 * 1024
  const MAX_JSON_DEPTH: nat := 16

  // ── The read loop ─────────────────────────────────────────────────────────

  // A blocking stream: a read may be short, and is empty only at the end.
  class Stream {
    var left: seq<Byte>

    constructor (content: seq<Byte>)
      ensures left == content
    {
      left := content;
    }

    method Read(n: nat) returns (block: seq<Byte>)
      requires n > 0
      modifies this
      ensures old(left) == block + left && |block| <= n
      ensures block == [] ==> old(left) == []
    {
      var k: int := *;
      var size := if k <= 0 then 1 else if k < n then k else n;
      if size > |left| {
        size := |left|;
      }
      block := left[..size];
      left := left[size..];
    }
  }

  // All the bytes, whatever the sizes of the reads, or nothing when there are too many.
  method ReadAll(stream: Stream) returns (data: seq<Byte>, ok: bool)
    modifies stream
    ensures ok <==> |old(stream.left)| <= MAX_INPUT_BYTES
    ensures ok ==> data == old(stream.left)
  {
    data := [];
    while true
      invariant data + stream.left == old(stream.left) && |data| <= MAX_INPUT_BYTES
      decreases |stream.left|
    {
      var block := stream.Read(MAX_INPUT_BYTES + 1 - |data|);
      if block == [] {
        return data, true;
      }
      data := data + block;
      if |data| > MAX_INPUT_BYTES {
        return data, false;
      }
    }
  }

  // ── Documents ─────────────────────────────────────────────────────────────

  // A character of a string: itself, or a backslash and whatever it escapes.
  datatype StringChar = Plain(b: Byte) | Escape(b: Byte)

  // A value with everything written around it. An atom is a number or a literal; the parts
  // of an array or object are its values and, in an object, its member names, with the
  // white space, commas and colons between them.
  datatype Json = Atom(text: seq<Byte>) | Text(chars: seq<StringChar>) | Node(square: bool, parts: Parts)
  datatype Parts = Last(glue: seq<Byte>) | More(glue: seq<Byte>, part: Json, rest: Parts)

  const QUOTE: Byte := 34
  const BACKSLASH: Byte := 92

  predicate Opening(b: Byte) { b == 91 || b == 123 }
  predicate Closing(b: Byte) { b == 93 || b == 125 }
  predicate Neutral(b: Byte) { b != QUOTE && !Opening(b) && !Closing(b) }

  predicate AllNeutral(s: seq<Byte>) { forall b | b in s :: Neutral(b) }

  predicate Grammatical(j: Json) {
    match j
    case Atom(text) => AllNeutral(text)
    case Text(chars) => forall c | c in chars :: c.Plain? ==> c.b != QUOTE && c.b != BACKSLASH
    case Node(_, parts) => GrammaticalParts(parts)
  }

  predicate GrammaticalParts(ps: Parts) {
    match ps
    case Last(glue) => AllNeutral(glue)
    case More(glue, part, rest) => AllNeutral(glue) && Grammatical(part) && GrammaticalParts(rest)
  }

  function PrintChars(cs: seq<StringChar>): seq<Byte> {
    if cs == [] then []
    else (match cs[0] case Plain(b) => [b] case Escape(b) => [BACKSLASH, b]) + PrintChars(cs[1..])
  }

  function Print(j: Json): seq<Byte> {
    match j
    case Atom(text) => text
    case Text(chars) => [QUOTE] + (PrintChars(chars) + [QUOTE])
    case Node(square, parts) => [if square then 91 else 123] + (PrintParts(parts) + [if square then 93 else 125])
  }

  function PrintParts(ps: Parts): seq<Byte> {
    match ps
    case Last(glue) => glue
    case More(glue, part, rest) => glue + (Print(part) + PrintParts(rest))
  }

  // How deeply arrays and objects nest.
  function Depth(j: Json): nat {
    match j
    case Atom(_) => 0
    case Text(_) => 0
    case Node(_, parts) => 1 + DepthParts(parts)
  }

  function DepthParts(ps: Parts): nat {
    match ps
    case Last(_) => 0
    case More(_, part, rest) => Max(Depth(part), DepthParts(rest))
  }

  function Max(a: int, b: int): int { if a < b then b else a }

  // ── The scanner ───────────────────────────────────────────────────────────

  datatype Scan = Scan(depth: int, peak: int, quoted: bool, escaped: bool)

  function Step(s: Scan, b: Byte): Scan {
    if s.quoted then
      if s.escaped then s.(escaped := false)
      else if b == BACKSLASH then s.(escaped := true)
      else if b == QUOTE then s.(quoted := false)
      else s
    else if b == QUOTE then s.(quoted := true)
    else if Opening(b) then s.(depth := s.depth + 1, peak := Max(s.peak, s.depth + 1))
    else if Closing(b) then s.(depth := s.depth - 1)
    else s
  }

  function Run(s: Scan, data: seq<Byte>): Scan
    decreases |data|
  {
    if data == [] then s else Run(Step(s, data[0]), data[1..])
  }

  const START := Scan(0, 0, false, false)

  lemma {:induction false} RunAppend(s: Scan, a: seq<Byte>, b: seq<Byte>)
    ensures Run(s, a + b) == Run(Run(s, a), b)
    decreases |a|
  {
    if a == [] {
      assert a + b == b;
    } else {
      assert (a + b)[1..] == a[1..] + b;
      RunAppend(Step(s, a[0]), a[1..], b);
    }
  }

  lemma {:induction false} PeakGrows(s: Scan, data: seq<Byte>)
    ensures Run(s, data).peak >= s.peak
    decreases |data|
  {
    if data != [] {
      PeakGrows(Step(s, data[0]), data[1..]);
    }
  }

  // The loop stops at the first bracket that goes too deep, which is when the peak of the
  // whole input does.
  method DepthAllowed(data: seq<Byte>) returns (ok: bool)
    ensures ok <==> Run(START, data).peak <= MAX_JSON_DEPTH
  {
    var depth, quoted, escaped := 0, false, false;
    ghost var state := START;
    for i := 0 to |data|
      invariant state == Run(START, data[..i]) && state.peak <= MAX_JSON_DEPTH
      invariant state.depth == depth && state.quoted == quoted && state.escaped == escaped
    {
      var b := data[i];
      assert data[..i + 1] == data[..i] + [b];
      RunAppend(START, data[..i], [b]);
      ghost var next := Step(state, b);
      assert Run(START, data[..i + 1]) == next by { assert [b][1..] == []; }
      if quoted {
        if escaped {
          escaped := false;
        } else if b == BACKSLASH {
          escaped := true;
        } else if b == QUOTE {
          quoted := false;
        }
      } else if b == QUOTE {
        quoted := true;
      } else if Opening(b) {
        depth := depth + 1;
        if depth > MAX_JSON_DEPTH {
          assert data == data[..i + 1] + data[i + 1..];
          RunAppend(START, data[..i + 1], data[i + 1..]);
          PeakGrows(next, data[i + 1..]);
          return false;
        }
      } else if Closing(b) {
        depth := depth - 1;
      }
      state := next;
    }
    assert data[..|data|] == data;
    ok := true;
  }

  // ── The scanner against the tree ──────────────────────────────────────────

  lemma {:induction false} RunNeutral(s: Scan, data: seq<Byte>)
    requires !s.quoted && AllNeutral(data)
    ensures Run(s, data) == s
  {
    if data != [] {
      assert Neutral(data[0]);
      assert Step(s, data[0]) == s;
      RunNeutral(s, data[1..]);
    }
  }

  lemma {:induction false} RunChars(s: Scan, cs: seq<StringChar>)
    requires s.quoted && !s.escaped && forall c | c in cs :: c.Plain? ==> c.b != QUOTE && c.b != BACKSLASH
    ensures Run(s, PrintChars(cs)) == s
  {
    if cs != [] {
      var first := match cs[0] case Plain(b) => [b] case Escape(b) => [BACKSLASH, b];
      RunAppend(s, first, PrintChars(cs[1..]));
      OneChar(s, cs[0]);
      RunChars(s, cs[1..]);
    }
  }

  lemma OneChar(s: Scan, c: StringChar)
    requires s.quoted && !s.escaped && (c.Plain? ==> c.b != QUOTE && c.b != BACKSLASH)
    ensures Run(s, match c case Plain(b) => [b] case Escape(b) => [BACKSLASH, b]) == s
  {
    match c
    case Plain(b) =>
      assert [b][1..] == [];
    case Escape(b) =>
      OneByte(s, BACKSLASH);
      OneByte(s.(escaped := true), b);
      RunAppend(s, [BACKSLASH], [b]);
      assert [BACKSLASH, b] == [BACKSLASH] + [b];
  }

  lemma OneByte(s: Scan, b: Byte)
    ensures Run(s, [b]) == Step(s, b)
  {
    assert [b][1..] == [];
  }

  // Over the text of a value the scanner comes back to where it was, unquoted and at the
  // same depth, having been exactly as deep as the value nests.
  lemma {:induction false} RunValue(s: Scan, j: Json)
    requires Grammatical(j) && !s.quoted && !s.escaped && s.peak >= s.depth
    ensures Run(s, Print(j)) == s.(peak := Max(s.peak, s.depth + Depth(j)))
    decreases j
  {
    hide Run, Step;
    match j
    case Atom(text) =>
      RunNeutral(s, text);
    case Text(chars) =>
      RunText(s, chars);
    case Node(square, parts) =>
      var open, close := if square then 91 else 123, if square then 93 else 125;
      var inside := s.(depth := s.depth + 1, peak := Max(s.peak, s.depth + 1));
      RunAppend(s, [open], PrintParts(parts) + [close]);
      OneByte(s, open);
      Brackets(s, open, close);
      RunAppend(inside, PrintParts(parts), [close]);
      RunParts(inside, parts);
      var after := inside.(peak := Max(inside.peak, inside.depth + DepthParts(parts)));
      OneByte(after, close);
      Brackets(after, open, close);
  }

  lemma Brackets(s: Scan, open: Byte, close: Byte)
    requires !s.quoted && Opening(open) && Closing(close)
    ensures Step(s, open) == s.(depth := s.depth + 1, peak := Max(s.peak, s.depth + 1))
    ensures Step(s, close) == s.(depth := s.depth - 1)
  {
  }

  lemma RunText(s: Scan, chars: seq<StringChar>)
    requires Grammatical(Text(chars)) && !s.quoted && !s.escaped
    ensures Run(s, Print(Text(chars))) == s
  {
    var inside := s.(quoted := true);
    RunAppend(s, [QUOTE], PrintChars(chars) + [QUOTE]);
    OneByte(s, QUOTE);
    RunAppend(inside, PrintChars(chars), [QUOTE]);
    RunChars(inside, chars);
    OneByte(inside, QUOTE);
  }

  lemma {:induction false} RunParts(s: Scan, ps: Parts)
    requires GrammaticalParts(ps) && !s.quoted && !s.escaped && s.peak >= s.depth
    ensures Run(s, PrintParts(ps)) == s.(peak := Max(s.peak, s.depth + DepthParts(ps)))
    decreases ps
  {
    hide Run, Step;
    match ps
    case Last(glue) =>
      RunNeutral(s, glue);
    case More(glue, part, rest) =>
      RunNeutral(s, glue);
      RunAppend(s, glue, Print(part) + PrintParts(rest));
      RunAppend(s, Print(part), PrintParts(rest));
      RunValue(s, part);
      RunParts(s.(peak := Max(s.peak, s.depth + Depth(part))), rest);
  }

  // For every document, with any white space around it: the scan ends unquoted at depth 0,
  // and it passes exactly when the value nests at most sixteen deep.
  lemma DocumentDepth(before: seq<Byte>, j: Json, after: seq<Byte>)
    requires Grammatical(j) && AllNeutral(before) && AllNeutral(after)
    ensures Run(START, before + (Print(j) + after)) == Scan(0, Depth(j), false, false)
    ensures Run(START, before + (Print(j) + after)).peak <= MAX_JSON_DEPTH <==> Depth(j) <= MAX_JSON_DEPTH
  {
    hide Run, Step, Print, Depth;
    RunNeutral(START, before);
    RunAppend(START, before, Print(j) + after);
    RunValue(START, j);
    var s := START.(peak := Max(0, Depth(j)));
    RunAppend(START, Print(j), after);
    RunNeutral(s, after);
  }
}
