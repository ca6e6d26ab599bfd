/**
 The console tap that looks for the guest's exit marker in a bounded buffer, against a
 search of the whole stream.
 */
module ConsoleScanner {
  import opened Options
  import opened Bytes

  const KEEP: nat := 2048
  const MAX_BUFFER: nat := 16384

  // "LIGHTR_EXIT:"
  const MARKER: seq<Byte> := [76, 73, 71, 72, 84, 82, 95, 69, 88, 73, 84, 58]

  // ── Reading a number ──────────────────────────────────────────────────────

  predicate IsLineEnd(b: Byte) { b == 10 || b == 13 }

  // Space, tab and no-break space: the white space one byte can be.
  predicate IsBlank(b: Byte) { b == 32 || b == 9 || b == 160 }

  predicate IsDigit(b: Byte) { 48 <= b <= 57 }

  function TrimLeft(t: seq<Byte>): seq<Byte> {
    if t != [] && IsBlank(t[0]) then TrimLeft(t[1..]) else t
  }

  function TrimRight(t: seq<Byte>): seq<Byte> {
    if t != [] && IsBlank(t[|t| - 1]) then TrimRight(t[..|t| - 1]) else t
  }

  function Magnitude(t: seq<Byte>): nat {
    if t == [] then 0 else 10 * Magnitude(t[..|t| - 1]) + if IsDigit(t[|t| - 1]) then t[|t| - 1] - 48 else 0
  }

  predicate AllDigits(t: seq<Byte>) { forall b | b in t :: IsDigit(b) }

  // A 32-bit integer: an optional sign and at least one digit, in range.
  function ParseInt32(t: seq<Byte>): Option<int> {
    var signed := t != [] && (t[0] == 43 || t[0] == 45);
    var digits := if signed then t[1..] else t;
    if digits == [] || !AllDigits(digits) then None
    else
      var n: int := if signed && t[0] == 45 then 0 - Magnitude(digits) else Magnitude(digits);
      if -0x8000_0000 <= n < 0x8000_0000 then Some(n) else None
  }

  function ExitCode(t: seq<Byte>): Option<int> {
    ParseInt32(TrimRight(TrimLeft(t)))
  }

  predicate Numeric(b: Byte) { IsBlank(b) || IsDigit(b) || b == 43 || b == 45 }

  lemma {:induction false} TrimLeftKeeps(t: seq<Byte>)
    requires forall b | b in TrimLeft(t) :: Numeric(b)
    ensures forall b | b in t :: Numeric(b)
  {
    if t != [] && IsBlank(t[0]) {
      TrimLeftKeeps(t[1..]);
      assert t == [t[0]] + t[1..];
    }
  }

  lemma {:induction false} TrimRightKeeps(t: seq<Byte>)
    requires forall b | b in TrimRight(t) :: Numeric(b)
    ensures forall b | b in t :: Numeric(b)
  {
    if t != [] && IsBlank(t[|t| - 1]) {
      TrimRightKeeps(t[..|t| - 1]);
      assert t == t[..|t| - 1] + [t[|t| - 1]];
    }
  }

  // Text that reads as a code is made of blanks, digits and signs.
  lemma CodesAreNumeric(t: seq<Byte>)
    requires ExitCode(t).Some?
    ensures forall b | b in t :: Numeric(b)
  {
    var u := TrimRight(TrimLeft(t));
    assert forall b | b in u :: Numeric(b) by {
      if u != [] && (u[0] == 43 || u[0] == 45) {
        assert u == [u[0]] + u[1..];
      }
    }
    TrimRightKeeps(TrimLeft(t));
    TrimLeftKeeps(t);
  }

  // ── Searching ─────────────────────────────────────────────────────────────

  predicate MarkerAt(s: seq<Byte>, k: nat) {
    k + 12 <= |s| && s[k..k + 12] == MARKER
  }

  // A marker in a slice is a marker of the whole.
  lemma MarkerWithin(s: seq<Byte>, a: nat, b: nat, k: nat)
    requires a <= b <= |s|
    ensures MarkerAt(s[a..b], k) <==> a + k + 12 <= b && MarkerAt(s, a + k)
  {
    if a + k + 12 <= b {
      SliceOfSlice(s, a, b, k, k + 12);
    }
  }

  lemma SliceOfSlice(s: seq<Byte>, a: nat, b: nat, i: nat, j: nat)
    requires a <= b <= |s| && i <= j <= b - a
    ensures s[a..b][i..j] == s[a + i..a + j]
  {
    var x, y := s[a..b][i..j], s[a + i..a + j];
    assert |x| == |y|;
    forall n | 0 <= n < |x| ensures x[n] == y[n] {
      assert x[n] == s[a..b][i + n] == s[a + i + n];
    }
  }

  // Position of the first marker, or the length.
  function FindMarker(s: seq<Byte>): (k: nat)
    ensures k <= |s| && (k < |s| ==> MarkerAt(s, k)) && (forall j: nat | j < k :: !MarkerAt(s, j))
    ensures k == |s| ==> forall j: nat :: !MarkerAt(s, j)
  {
    if s == [] then 0
    else if MarkerAt(s, 0) then 0
    else
      var k := FindMarker(s[1..]) + 1;
      assert forall j: nat | j > 0 :: MarkerAt(s, j) <==> MarkerAt(s[1..], j - 1) by {
        forall j: nat | j > 0 ensures MarkerAt(s, j) <==> MarkerAt(s[1..], j - 1) {
          MarkerWithin(s, 1, |s|, j - 1);
          assert s[1..|s|] == s[1..];
        }
      }
      k
  }

  // Position of the first line end at or after i, or the length.
  function LineEnd(s: seq<Byte>, i: nat): (k: nat)
    requires i <= |s|
    ensures i <= k <= |s| && (k < |s| ==> IsLineEnd(s[k])) && (forall j | i <= j < k :: !IsLineEnd(s[j]))
    decreases |s| - i
  {
    if i == |s| || IsLineEnd(s[i]) then i else LineEnd(s, i + 1)
  }

  // The code a buffer shows: the first marker's line is complete and reads as a number.
  function Visible(buf: seq<Byte>): Option<int> {
    var k := FindMarker(buf);
    if k == |buf| then None
    else
      var e := LineEnd(buf, k + 12);
      if e == |buf| then None else ExitCode(buf[k + 12..e])
  }

  function Trimmed(buf: seq<Byte>): seq<Byte> {
    if |buf| > MAX_BUFFER then buf[|buf| - KEEP..] else buf
  }

  // ── The callback ──────────────────────────────────────────────────────────

  datatype Scanner = Scanner(buf: seq<Byte>, captured: Option<int>)

  const FRESH := Scanner([], None)

  function OnChunk(s: Scanner, chunk: seq<Byte>): Scanner {
    if chunk == [] || s.captured.Some? then s
    else Scanner(Trimmed(s.buf + chunk), Visible(s.buf + chunk))
  }

  function Feed(s: Scanner, chunks: seq<seq<Byte>>): Scanner {
    if chunks == [] then s else OnChunk(Feed(s, chunks[..|chunks| - 1]), chunks[|chunks| - 1])
  }

  function Joined(chunks: seq<seq<Byte>>): seq<Byte> {
    if chunks == [] then [] else Joined(chunks[..|chunks| - 1]) + chunks[|chunks| - 1]
  }

  // The scan in the callback: collect the first marker's line, byte by byte.
  method Scan(buf: seq<Byte>) returns (code: Option<int>)
    ensures code == Visible(buf)
  {
    hide ExitCode;
    var r := FindMarker(buf);
    if r == |buf| {
      return None;
    }
    var digits: seq<Byte>, sawNewline := [], false;
    var i := r + 12;
    while i < |buf| && !sawNewline
      invariant r + 12 <= i <= |buf| && digits == buf[r + 12..i]
      invariant forall j | r + 12 <= j < i :: !IsLineEnd(buf[j])
      invariant sawNewline ==> i < |buf| && IsLineEnd(buf[i])
      decreases |buf| - i, !sawNewline
    {
      if IsLineEnd(buf[i]) {
        sawNewline := true;
      } else {
        digits := digits + [buf[i]];
        i := i + 1;
      }
    }
    assert LineEnd(buf, r + 12) == i;
    code := if sawNewline then ExitCode(digits) else None;
  }

  class Tap {
    var scanBuf: seq<Byte>
    var capturedExit: Option<int>
    var console: seq<Byte>                 // everything forwarded

    constructor ()
      ensures State() == FRESH && console == []
    {
      scanBuf, capturedExit, console := [], None, [];
    }

    ghost function State(): Scanner
      reads this
    {
      Scanner(scanBuf, capturedExit)
    }

    method OnReadable(chunk: seq<Byte>)
      modifies this
      ensures State() == OnChunk(old(State()), chunk) && console == old(console) + chunk
    {
      hide Visible;
      if chunk == [] {
        return;
      }
      console := console + chunk;
      if capturedExit.Some? {
        return;
      }
      scanBuf := scanBuf + chunk;
      capturedExit := Scan(scanBuf);
      if |scanBuf| > MAX_BUFFER {
        scanBuf := scanBuf[|scanBuf| - KEEP..];
      }
    }

    method Deliver(chunks: seq<seq<Byte>>)
      requires State() == FRESH && console == []
      modifies this
      ensures State() == Feed(FRESH, chunks) && console == Joined(chunks)
    {
      for i := 0 to |chunks|
        invariant State() == Feed(FRESH, chunks[..i]) && console == Joined(chunks[..i])
      {
        assert chunks[..i + 1][..i] == chunks[..i];
        OnReadable(chunks[i]);
      }
      assert chunks[..|chunks|] == chunks;
    }
  }

  // ── Against the whole stream ──────────────────────────────────────────────

  // The buffer never keeps more than its bound, whatever arrives.
  lemma {:induction false} BufferIsBounded(chunks: seq<seq<Byte>>)
    ensures |Feed(FRESH, chunks).buf| <= MAX_BUFFER
  {
    hide Visible;
    if chunks != [] {
      BufferIsBounded(chunks[..|chunks| - 1]);
    }
  }

  // What has arrived is the beginning of s.
  predicate CutOf(s: seq<Byte>, chunks: seq<seq<Byte>>) { Joined(chunks) <= s }

  predicate NextIs(s: seq<Byte>, n: nat, last: seq<Byte>) { n + |last| <= |s| && s[n..n + |last|] == last }

  // The buffer is the window from a to n of s, and nothing has been captured.
  predicate Windowed(s: seq<Byte>, sc: Scanner, a: nat, n: nat) {
    a <= n <= |s| && sc == Scanner(s[a..n], None)
  }

  function Shown(s: seq<Byte>, a: nat, n: nat): Option<int>
    requires a <= n <= |s|
  {
    Visible(s[a..n])
  }

  function StartAfter(a: nat, m: nat, last: seq<Byte>): nat
    requires a <= m
  {
    if last != [] && m - a > MAX_BUFFER then m - KEEP else a
  }

  // With a + KEEP bytes there, a window from b on is over its bound and shows nothing, so it
  // is trimmed to start at a.
  predicate TrimsTo(s: seq<Byte>, b: nat, a: nat) {
    b + MAX_BUFFER < a + KEEP <= |s| && Shown(s, b, a + KEEP).None?
  }

  // Some cut of s trims the buffer to start at a.
  ghost predicate Left(s: seq<Byte>, a: nat) {
    exists b: nat | b < a :: (b == 0 || Left(s, b)) && TrimsTo(s, b, a)
  }

  // Where a window can start when m bytes have arrived: at the beginning, or where a trim
  // has left it.
  ghost predicate Starts(s: seq<Byte>, a: nat, m: nat) {
    a == 0 || (Left(s, a) && a + KEEP <= m)
  }

  lemma TrimStarts(s: seq<Byte>, a: nat, n: nat, m: nat, last: seq<Byte>)
    requires Starts(s, a, n) && a <= n <= m <= |s| && Shown(s, a, m).None?
    ensures Starts(s, StartAfter(a, m, last), m)
  {
    hide Shown;
    if m - a > MAX_BUFFER {
      assert TrimsTo(s, a, m - KEEP);
    }
  }

  lemma Arrived(s: seq<Byte>, chunks: seq<seq<Byte>>, first: seq<seq<Byte>>, last: seq<Byte>)
    requires chunks != [] && first == chunks[..|chunks| - 1] && last == chunks[|chunks| - 1] && CutOf(s, chunks)
    ensures CutOf(s, first) && |Joined(chunks)| == |Joined(first)| + |last| && NextIs(s, |Joined(first)|, last)
    ensures Feed(FRESH, chunks) == OnChunk(Feed(FRESH, first), last)
  {
    hide OnChunk;
  }

  // One chunk on: what the longer window shows, and where the window then starts.
  lemma WindowGrows(s: seq<Byte>, sc: Scanner, a: nat, n: nat, last: seq<Byte>)
    requires Windowed(s, sc, a, n) && NextIs(s, n, last)
    ensures a <= n && n + |last| <= |s|
    ensures OnChunk(sc, last).captured == if last == [] then None else Shown(s, a, n + |last|)
    ensures OnChunk(sc, last).captured.None? ==>
              Windowed(s, OnChunk(sc, last), StartAfter(a, n + |last|, last), n + |last|)
  {
    hide Visible;
    var m := n + |last|;
    assert s[a..n] + last == s[a..m];
    if m - a > MAX_BUFFER {
      SliceOfSlice(s, a, m, m - a - KEEP, m - a);
      assert s[a..m][m - a - KEEP..] == s[a..m][m - a - KEEP..m - a];
    }
  }

  lemma NothingArrived(s: seq<Byte>)
    ensures Windowed(s, Feed(FRESH, []), 0, 0) && |Joined([])| == 0
  {
  }

  // Until a code is captured, the buffer is the end of what has arrived.
  lemma {:induction false} BufferIsWindow(s: seq<Byte>, chunks: seq<seq<Byte>>) returns (a: nat)
    requires CutOf(s, chunks) && Feed(FRESH, chunks).captured.None?
    ensures Windowed(s, Feed(FRESH, chunks), a, |Joined(chunks)|) && Starts(s, a, |Joined(chunks)|)
    decreases |chunks|
  {
    hide CutOf, Windowed, Feed, Joined, OnChunk, Shown, NextIs, Left;
    if chunks == [] {
      a := 0;
      NothingArrived(s);
    } else {
      var first, last := chunks[..|chunks| - 1], chunks[|chunks| - 1];
      Arrived(s, chunks, first, last);
      StaysCaptured(Feed(FRESH, first), last);
      a := BufferIsWindow(s, first);
      WindowGrows(s, Feed(FRESH, first), a, |Joined(first)|, last);
      if last != [] {
        TrimStarts(s, a, |Joined(first)|, |Joined(chunks)|, last);
      }
      a := StartAfter(a, |Joined(chunks)|, last);
    }
  }

  lemma StaysCaptured(sc: Scanner, last: seq<Byte>)
    ensures sc.captured.Some? ==> OnChunk(sc, last) == sc
  {
  }

  lemma NothingVisible(s: seq<Byte>, a: nat, b: nat)
    requires a <= b <= |s| && forall k: nat :: !MarkerAt(s, k)
    ensures Shown(s, a, b).None?
  {
    hide MarkerAt, LineEnd, ExitCode;
    var k := FindMarker(s[a..b]);
    if k < b - a {
      MarkerWithin(s, a, b, k);
    }
  }

  // A stream without a marker captures nothing, however it is cut.
  lemma {:induction false} NoMarkerNoCode(s: seq<Byte>, chunks: seq<seq<Byte>>)
    requires CutOf(s, chunks) && forall k: nat :: !MarkerAt(s, k)
    ensures Feed(FRESH, chunks).captured.None?
    decreases |chunks|
  {
    hide *;
    if chunks == [] {
      NothingArrived(s);
      WindowIsOpen(s, Feed(FRESH, []), 0, 0);
    } else {
      var first, last := chunks[..|chunks| - 1], chunks[|chunks| - 1];
      Arrived(s, chunks, first, last);
      NoMarkerNoCode(s, first);
      var a := BufferIsWindow(s, first);
      WindowGrows(s, Feed(FRESH, first), a, |Joined(first)|, last);
      NothingVisible(s, a, |Joined(chunks)|);
    }
  }

  lemma WindowIsOpen(s: seq<Byte>, sc: Scanner, a: nat, n: nat)
    requires Windowed(s, sc, a, n)
    ensures sc.captured.None? && a <= n <= |s|
  {
  }

  // The first marker of s is at p, its line ends at q, and the text between is a code.
  predicate MarkedLine(s: seq<Byte>, p: nat, q: nat, code: int) {
    && FindMarker(s) == p < |s| && p + 12 <= q < |s| && LineEnd(s, p + 12) == q && ExitCode(s[p + 12..q]) == Some(code)
  }

  // Near enough: the line ends within 2048 bytes of the marker, or within the first 16384.
  predicate NearEnough(p: nat, q: nat) {
    q <= p + KEEP || q <= MAX_BUFFER
  }

  // A window that starts at or before the marker shows the code once the line end is in it,
  // and nothing before.
  lemma WindowShows(s: seq<Byte>, p: nat, q: nat, code: int, a: nat, n: nat)
    requires MarkedLine(s, p, q, code) && a <= p && a <= n <= |s|
    ensures Shown(s, a, n) == if n > q then Some(code) else None
  {
    hide ExitCode, MarkerAt;
    var k := FirstMarkerIn(s, p, a, n);
    if p + 12 <= n {
      LineEndIn(s, p + 12, q, a, n);
      if n > q {
        SliceOfSlice(s, a, n, k + 12, q - a);
      }
    }
  }

  // The first marker of s is the first of a window that starts before it and holds it whole.
  lemma FirstMarkerIn(s: seq<Byte>, p: nat, a: nat, n: nat) returns (k: nat)
    requires FindMarker(s) == p < |s| && a <= p && a <= n <= |s|
    ensures k == FindMarker(s[a..n]) == if p + 12 <= n then p - a else n - a
  {
    hide MarkerAt;
    k := FindMarker(s[a..n]);
    MarkerWithin(s, a, n, p - a);
    if k < n - a {
      MarkerWithin(s, a, n, k);
    }
  }

  lemma LineEndIn(s: seq<Byte>, i: nat, q: nat, a: nat, n: nat)
    requires a <= i <= n <= |s| && LineEnd(s, i) == q < |s|
    ensures LineEnd(s[a..n], i - a) == if n > q then q - a else n - a
  {
    var w := s[a..n];
    assert forall j | 0 <= j < n - a :: w[j] == s[a + j];
  }

  // Before the line end the marker is never trimmed away.
  lemma {:induction false} WindowHolds(s: seq<Byte>, p: nat, q: nat, code: int, chunks: seq<seq<Byte>>) returns (a: nat)
    requires MarkedLine(s, p, q, code) && NearEnough(p, q) && CutOf(s, chunks) && |Joined(chunks)| <= q
    ensures a <= p && Windowed(s, Feed(FRESH, chunks), a, |Joined(chunks)|)
    ensures q <= MAX_BUFFER ==> a == 0
    decreases |chunks|
  {
    hide MarkedLine, CutOf, Windowed, Feed, Joined, OnChunk, Shown, NextIs;
    if chunks == [] {
      a := 0;
      NothingArrived(s);
    } else {
      var first, last := chunks[..|chunks| - 1], chunks[|chunks| - 1];
      Arrived(s, chunks, first, last);
      a := WindowHolds(s, p, q, code, first);
      WindowGrows(s, Feed(FRESH, first), a, |Joined(first)|, last);
      WindowShows(s, p, q, code, a, |Joined(chunks)|);
      a := StartAfter(a, |Joined(chunks)|, last);
    }
  }

  // Near enough, every way of cutting the stream captures exactly that code, with the first
  // chunk that brings the line end.
  lemma {:induction false} EveryChunkingCaptures(s: seq<Byte>, p: nat, q: nat, code: int, chunks: seq<seq<Byte>>)
    requires MarkedLine(s, p, q, code) && NearEnough(p, q) && CutOf(s, chunks)
    ensures Feed(FRESH, chunks).captured == if |Joined(chunks)| > q then Some(code) else None
    decreases |chunks|
  {
    hide *;
    if |Joined(chunks)| <= q {
      var a := WindowHolds(s, p, q, code, chunks);
      WindowIsOpen(s, Feed(FRESH, chunks), a, |Joined(chunks)|);
    } else {
      NothingArrived(s);
      assert chunks != [];
      var first, last := chunks[..|chunks| - 1], chunks[|chunks| - 1];
      Arrived(s, chunks, first, last);
      if |Joined(first)| <= q {
        var a := WindowHolds(s, p, q, code, first);
        WindowGrows(s, Feed(FRESH, first), a, |Joined(first)|, last);
        WindowShows(s, p, q, code, a, |Joined(chunks)|);
      } else {
        EveryChunkingCaptures(s, p, q, code, first);
        StaysCaptured(Feed(FRESH, first), last);
      }
    }
  }

  lemma MarkerBytes(s: seq<Byte>, k: nat, i: nat)
    requires MarkerAt(s, k) && i < 12
    ensures s[k + i] == MARKER[i]
  {
    assert s[k + i] == s[k..k + 12][i];
  }

  // No second marker inside the first marker's line.
  lemma NoMarkerInLine(s: seq<Byte>, p: nat, q: nat, code: int, k: nat)
    requires MarkedLine(s, p, q, code) && p < k && k + 12 <= q + 1
    ensures !MarkerAt(s, k)
  {
    hide *;
    LineText(s, p, q, code);
    if k < p + 12 {
      MarkerBytes(s, p, k - p);
      OneL(k - p);
    } else {
      assert s[k] in s[p + 12..q] by { assert s[p + 12..q][k - p - 12] == s[k]; }
      NotNumeric();
    }
    if MarkerAt(s, k) {
      MarkerBytes(s, k, 0);
      OneL(0);
    }
  }

  lemma OneL(i: nat)
    requires i < 12
    ensures MARKER[i] == 76 <==> i == 0
  {
  }

  lemma NotNumeric()
    ensures !Numeric(76)
  {
  }

  lemma LineText(s: seq<Byte>, p: nat, q: nat, code: int)
    requires MarkedLine(s, p, q, code)
    ensures p + 12 <= q < |s| && MarkerAt(s, p) && forall b | b in s[p + 12..q] :: Numeric(b)
  {
    hide LineEnd, Numeric;
    CodesAreNumeric(s[p + 12..q]);
  }

  // The first n bytes of s, cut once at q.
  function CutAt(s: seq<Byte>, q: nat, n: nat): seq<seq<Byte>>
    requires q <= n <= |s|
  {
    [s[..q], s[q..n]]
  }

  lemma TwoChunks(s: seq<Byte>, q: nat, n: nat)
    requires 0 < q < n <= |s|
    ensures CutOf(s, CutAt(s, q, n)) && |Joined(CutAt(s, q, n))| == n
    ensures NextIs(s, 0, s[..q]) && |s[..q]| == q && s[..q] != [] && NextIs(s, q, s[q..n]) && s[q..n] != []
    ensures Feed(FRESH, []) == FRESH && Feed(FRESH, CutAt(s, q, n)) == OnChunk(OnChunk(FRESH, s[..q]), s[q..n])
  {
    hide OnChunk;
    var cut: seq<seq<Byte>> := CutAt(s, q, n);
    var one: seq<seq<Byte>> := [s[..q]];
    assert cut[..1] == one && one[..0] == [];
    assert Joined(one) == Joined([]) + s[..q];
    assert Joined([]) + s[..q] == s[..q];
    assert s[..q] + s[q..n] == s[..n];
    assert Feed(FRESH, one) == OnChunk(Feed(FRESH, []), s[..q]);
  }

  // A first chunk that overflows the buffer and shows nothing leaves its last 2048 bytes,
  // and the second chunk is read in that window.
  lemma TrimmedOnce(s: seq<Byte>, q: nat, n: nat)
    requires MAX_BUFFER < q < n <= |s| && Shown(s, 0, q).None?
    ensures Feed(FRESH, CutAt(s, q, n)).captured == Shown(s, q - KEEP, n)
  {
    hide CutOf, Windowed, Feed, Joined, OnChunk, Shown, NextIs, CutAt;
    TwoChunks(s, q, n);
    NothingArrived(s);
    WindowGrows(s, FRESH, 0, 0, s[..q]);
    WindowGrows(s, OnChunk(FRESH, s[..q]), StartAfter(0, q, s[..q]), q, s[q..n]);
  }

  // Too far: cut just before the line end, the trim drops the marker and the code is lost.
  lemma FarLineIsLost(s: seq<Byte>, p: nat, q: nat, code: int)
    requires MarkedLine(s, p, q, code) && !NearEnough(p, q)
    ensures q < |s| && CutOf(s, CutAt(s, q, q + 1)) && |Joined(CutAt(s, q, q + 1))| == q + 1
    ensures Feed(FRESH, CutAt(s, q, q + 1)).captured.None?
  {
    hide *;
    FarFacts(s, p, q, code);
    WindowShows(s, p, q, code, 0, q);
    LostWindow(s, p, q, code);
    TwoChunks(s, q, q + 1);
    TrimmedOnce(s, q, q + 1);
  }

  lemma FarFacts(s: seq<Byte>, p: nat, q: nat, code: int)
    requires MarkedLine(s, p, q, code) && !NearEnough(p, q)
    ensures p + KEEP < q < |s| && q > MAX_BUFFER
  {
  }

  lemma LostWindow(s: seq<Byte>, p: nat, q: nat, code: int)
    requires MarkedLine(s, p, q, code) && q > p + KEEP
    ensures q < |s| && Shown(s, q - KEEP, q + 1).None?
  {
    hide ExitCode, LineEnd, MarkerAt;
    var k := FindMarker(s[q - KEEP..q + 1]);
    if k < KEEP + 1 {
      MarkerWithin(s, q - KEEP, q + 1, k);
      NoMarkerInLine(s, p, q, code, q - KEEP + k);
    }
  }

  // Exactly when: every chunking that brings the line end captures the code, if and only if
  // the line end is near enough.
  lemma CapturedByEveryChunkingIff(s: seq<Byte>, p: nat, q: nat, code: int)
    requires MarkedLine(s, p, q, code)
    ensures NearEnough(p, q) <==>
            forall chunks | CutOf(s, chunks) && |Joined(chunks)| == q + 1 :: Feed(FRESH, chunks).captured == Some(code)
  {
    hide *;
    if NearEnough(p, q) {
      forall chunks | CutOf(s, chunks) && |Joined(chunks)| == q + 1 ensures Feed(FRESH, chunks).captured == Some(code) {
        EveryChunkingCaptures(s, p, q, code, chunks);
      }
    } else {
      FarLineIsLost(s, p, q, code);
    }
  }
}
