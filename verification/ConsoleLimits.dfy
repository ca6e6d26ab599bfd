/**
 Where the console tap and a search of the whole stream part: streams on which a code is
 lost, streams on which one is picked up that the search does not find, and what the shim
 then returns to its caller.
 */
module ConsoleLimits {
  import opened Options
  import opened Bytes
  import opened ConsoleScanner

  // ── Lines in a stream ─────────────────────────────────────────────────────

  const FIRST_LETTER: Byte := 76    // the marker starts with the only one it has

  predicate NoLineEnd(t: seq<Byte>) { forall b | b in t :: !IsLineEnd(b) }

  // Text f without the marker's first letter, then a marker line with text t, then the rest.
  function Stream(f: seq<Byte>, t: seq<Byte>, rest: seq<Byte>): seq<Byte> {
    f + (MARKER + (t + ([10] + rest)))
  }

  lemma FirstMarkerAfter(f: seq<Byte>, t: seq<Byte>, rest: seq<Byte>)
    requires FIRST_LETTER !in f
    ensures FindMarker(Stream(f, t, rest)) == |f| < |Stream(f, t, rest)|
  {
    hide FindMarker;
    var s := Stream(f, t, rest);
    assert MarkerAt(s, |f|) by { assert s[|f|..|f| + 12] == MARKER; }
    forall j: nat | j < |f| ensures !MarkerAt(s, j) {
      assert s[j] == f[j] && f[j] in f;
      if MarkerAt(s, j) {
        MarkerBytes(s, j, 0);
      }
    }
  }

  lemma LineAfter(f: seq<Byte>, t: seq<Byte>, rest: seq<Byte>)
    requires NoLineEnd(t)
    ensures var s, e := Stream(f, t, rest), |f| + 12 + |t|;
            e < |s| && LineEnd(s, |f| + 12) == e && s[|f| + 12..e] == t
  {
    var s, e := Stream(f, t, rest), |f| + 12 + |t|;
    assert s[e] == 10;
    forall j | |f| + 12 <= j < e ensures !IsLineEnd(s[j]) {
      assert s[j] == t[j - |f| - 12] && t[j - |f| - 12] in t;
    }
  }

  // What a buffer of this shape shows is what its first marker line reads as.
  lemma ShowsItsLine(f: seq<Byte>, t: seq<Byte>, rest: seq<Byte>)
    requires FIRST_LETTER !in f && NoLineEnd(t)
    ensures Visible(Stream(f, t, rest)) == ExitCode(t)
  {
    hide ExitCode, MarkerAt;
    FirstMarkerAfter(f, t, rest);
    LineAfter(f, t, rest);
  }

  function Run(b: Byte, n: nat): seq<Byte> { seq(n, _ => b) }

  lemma {:induction false} TrimBlanks(n: nat, t: seq<Byte>)
    requires t != [] && !IsBlank(t[0])
    ensures TrimLeft(Run(32, n) + t) == t
  {
    if n == 0 {
      assert Run(32, n) + t == t;
    } else {
      TrimBlanks(n - 1, t);
      assert (Run(32, n) + t)[1..] == Run(32, n - 1) + t;
    }
  }

  lemma OneDigit(d: Byte)
    requires IsDigit(d)
    ensures ExitCode([d]) == Some(d - 48)
  {
    assert [d][..0] == [];
    assert Magnitude([d]) == d - 48;
  }

  // ── A code that is lost ───────────────────────────────────────────────────

  function FarText(): seq<Byte> { Run(32, 2049) + [48] }
  function FarStream(): seq<Byte> { Stream(Run(0, 16384), FarText(), []) }

  lemma FarTextIsZero()
    ensures NoLineEnd(FarText()) && ExitCode(FarText()) == Some(0) && |FarText()| == 2050
  {
    TrimBlanks(2049, [48]);
    OneDigit(48);
    assert TrimRight([48]) == [48] && TrimLeft([48]) == [48];
  }

  lemma MarkedStream(f: seq<Byte>, t: seq<Byte>, rest: seq<Byte>, code: int)
    requires FIRST_LETTER !in f && NoLineEnd(t) && ExitCode(t) == Some(code)
    ensures MarkedLine(Stream(f, t, rest), |f|, |f| + 12 + |t|, code)
    ensures |Stream(f, t, rest)| == |f| + 13 + |t| + |rest|
  {
    hide ExitCode;
    FirstMarkerAfter(f, t, rest);
    LineAfter(f, t, rest);
  }

  // 16384 bytes of other output, the marker, 2049 blanks, a zero and a newline: a line that
  // reads as exit code 0, and a cut of the stream that never captures it.
  lemma CodeCanBeLost()
    ensures |FarStream()| == 18447 && MarkedLine(FarStream(), 16384, 18446, 0) && !NearEnough(16384, 18446)
    ensures Joined(CutAt(FarStream(), 18446, 18447)) == FarStream()
    ensures Feed(FRESH, CutAt(FarStream(), 18446, 18447)).captured.None?
  {
    FarTextIsZero();
    hide FarText, ExitCode, MarkedLine, Stream, CutAt, Feed, Joined, NoLineEnd;
    MarkedStream(Run(0, 16384), FarText(), [], 0);
    hide FarStream, Run;
    FarLineIsLost(FarStream(), 16384, 18446, 0);
    WholeCut(FarStream(), 18446);
  }

  lemma WholeCut(s: seq<Byte>, q: nat)
    requires 0 < q < |s|
    ensures Joined(CutAt(s, q, |s|)) == s
  {
    hide CutAt, Feed, OnChunk, NextIs;
    TwoChunks(s, q, |s|);
  }

  // ── A code the search does not find ───────────────────────────────────────

  // A window keeps showing its code as more bytes arrive.
  lemma ShownStays(s: seq<Byte>, a: nat, n: nat, m: nat)
    requires a <= n <= m <= |s| && Shown(s, a, n).Some?
    ensures Shown(s, a, m) == Shown(s, a, n)
  {
    hide ExitCode, MarkerAt;
    var v, w := s[a..n], s[a..m];
    var k := FindMarker(v);
    var e := LineEnd(v, k + 12);
    SliceOfSlice(s, a, m, 0, n - a);
    MarkerWithin(w, 0, n - a, k);
    assert w[0..n - a] == v;
    forall j: nat | j < k ensures !MarkerAt(w, j) {
      MarkerWithin(w, 0, n - a, j);
    }
    assert FindMarker(w) == k;
    assert forall j | 0 <= j < |v| :: w[j] == v[j];
    assert LineEnd(w, k + 12) == e;
    assert w[k + 12..e] == v[k + 12..e];
  }

  // Whatever is captured was on show in some window the buffer can hold.
  lemma {:induction false} CapturedWasShown(s: seq<Byte>, chunks: seq<seq<Byte>>) returns (a: nat, n: nat)
    requires CutOf(s, chunks) && Feed(FRESH, chunks).captured.Some?
    ensures a <= n <= |s| && Shown(s, a, n) == Feed(FRESH, chunks).captured && (a == 0 || (Left(s, a) && a + KEEP < n))
    decreases |chunks|
  {
    hide CutOf, Windowed, Feed, Joined, OnChunk, Shown, NextIs, Left;
    NothingCaptured();
    var first, last := chunks[..|chunks| - 1], chunks[|chunks| - 1];
    Arrived(s, chunks, first, last);
    if Feed(FRESH, first).captured.Some? {
      StaysCaptured(Feed(FRESH, first), last);
      a, n := CapturedWasShown(s, first);
    } else {
      a := BufferIsWindow(s, first);
      WindowGrows(s, Feed(FRESH, first), a, |Joined(first)|, last);
      n := |Joined(chunks)|;
    }
  }

  lemma NothingCaptured()
    ensures Feed(FRESH, []).captured.None?
  {
  }

  lemma OneMoreChunk(s: seq<Byte>, chunks: seq<seq<Byte>>, m: nat)
    requires CutOf(s, chunks) && |Joined(chunks)| < m <= |s|
    ensures var last := s[|Joined(chunks)|..m];
            && CutOf(s, chunks + [last]) && |Joined(chunks + [last])| == m
            && last != [] && |Joined(chunks)| + |last| == m
            && NextIs(s, |Joined(chunks)|, last)
            && Feed(FRESH, chunks + [last]) == OnChunk(Feed(FRESH, chunks), last)
  {
    hide OnChunk;
    var last := s[|Joined(chunks)|..m];
    assert (chunks + [last])[..|chunks|] == chunks;
    assert Joined(chunks) == s[..|Joined(chunks)|];
  }

  // Every place a trim can leave the buffer, some cut does leave it.
  lemma {:induction false} LeftIsReached(s: seq<Byte>, a: nat) returns (chunks: seq<seq<Byte>>)
    requires a == 0 || Left(s, a)
    ensures CutOf(s, chunks) && |Joined(chunks)| == (if a == 0 then 0 else a + KEEP)
    ensures Windowed(s, Feed(FRESH, chunks), a, |Joined(chunks)|)
  {
    hide CutOf, Windowed, Feed, Joined, OnChunk, Shown, NextIs;
    if a == 0 {
      chunks := [];
      NothingArrived(s);
      NoChunks(s);
    } else {
      var b: nat :| b < a && (b == 0 || Left(s, b)) && TrimsTo(s, b, a);
      var first := LeftIsReached(s, b);
      OneMoreChunk(s, first, a + KEEP);
      var last := s[|Joined(first)|..a + KEEP];
      WindowGrows(s, Feed(FRESH, first), b, |Joined(first)|, last);
      chunks := first + [last];
    }
  }

  lemma NoChunks(s: seq<Byte>)
    ensures CutOf(s, [])
  {
  }

  // From a on, where the stream begins or where a trim can leave the buffer, s shows a code.
  ghost predicate Readable(s: seq<Byte>, a: nat) {
    (a == 0 || (Left(s, a) && a + KEEP < |s|)) && Shown(s, a, |s|).Some?
  }

  // The codes some cut of a stream captures are exactly the codes it shows from one of those
  // places, for every stream.
  lemma CapturedIff(s: seq<Byte>, code: int)
    ensures (exists chunks :: CutOf(s, chunks) && Feed(FRESH, chunks).captured == Some(code)) <==>
            exists a: nat :: Readable(s, a) && Shown(s, a, |s|) == Some(code)
  {
    hide CutOf, Feed, Joined, Shown, Left;
    forall chunks | CutOf(s, chunks) && Feed(FRESH, chunks).captured == Some(code)
      ensures exists a: nat :: Readable(s, a) && Shown(s, a, |s|) == Some(code)
    {
      var a, n := CapturedWasShown(s, chunks);
      ShownStays(s, a, n, |s|);
      assert Readable(s, a);
    }
    forall a: nat | Readable(s, a) && Shown(s, a, |s|) == Some(code)
      ensures exists chunks :: CutOf(s, chunks) && Feed(FRESH, chunks).captured == Some(code)
    {
      var chunks := ReadableIsCaptured(s, a);
    }
  }

  lemma ReadableIsCaptured(s: seq<Byte>, a: nat) returns (chunks: seq<seq<Byte>>)
    requires Readable(s, a)
    ensures CutOf(s, chunks) && Feed(FRESH, chunks).captured == Shown(s, a, |s|)
  {
    hide CutOf, Windowed, Feed, Joined, OnChunk, Left, NextIs;
    NothingShown(s);
    hide Shown;
    var first := LeftIsReached(s, a);
    OneMoreChunk(s, first, |s|);
    WindowGrows(s, Feed(FRESH, first), a, |Joined(first)|, s[|Joined(first)|..|s|]);
    chunks := first + [s[|Joined(first)|..|s|]];
  }

  lemma NothingShown(s: seq<Byte>)
    ensures s == [] ==> Shown(s, 0, |s|).None?
  {
  }

  // Read from a on, where the first trim can have left the buffer, s shows a code.
  predicate Stray(s: seq<Byte>, a: nat) {
    MAX_BUFFER < a + KEEP < |s| && Shown(s, a, |s|).Some?
  }

  // When the whole stream shows no code, because it has no marker, or the first marker's
  // line is unfinished or is not a number, one trim reaches every such place.
  lemma ReadableIsStray(s: seq<Byte>, a: nat)
    requires Visible(s).None?
    ensures Readable(s, a) <==> Stray(s, a)
  {
    hide Visible;
    assert s[0..|s|] == s;
    if Stray(s, a) {
      if Shown(s, 0, a + KEEP).Some? {
        ShownStays(s, 0, a + KEEP, |s|);
      }
      assert TrimsTo(s, 0, a);
    }
  }

  // Such a stream captures nothing under any cut, exactly when nothing is on show from any of
  // those places.
  lemma NothingCapturedIff(s: seq<Byte>)
    requires Visible(s).None?
    ensures (forall chunks | CutOf(s, chunks) :: Feed(FRESH, chunks).captured.None?) <==> forall a: nat :: !Stray(s, a)
  {
    hide CutOf, Feed, Visible, Readable, Shown;
    forall chunks | CutOf(s, chunks) && Feed(FRESH, chunks).captured.Some? ensures exists a: nat :: Stray(s, a) {
      CapturedIff(s, Feed(FRESH, chunks).captured.value);
      var a: nat :| Readable(s, a);
      ReadableIsStray(s, a);
    }
    forall a: nat | Stray(s, a) ensures exists chunks :: CutOf(s, chunks) && Feed(FRESH, chunks).captured.Some? {
      ReadableIsStray(s, a);
      CapturedIff(s, Shown(s, a, |s|).value);
    }
  }

  // Cut where the trim happens, the stray code is captured.
  lemma StrayIsCaptured(s: seq<Byte>, a: nat)
    requires Visible(s).None? && Stray(s, a)
    ensures CutOf(s, CutAt(s, a + KEEP, |s|)) && Feed(FRESH, CutAt(s, a + KEEP, |s|)).captured == Shown(s, a, |s|)
  {
    hide CutOf, Feed, Joined, CutAt, Visible;
    var q := a + KEEP;
    assert s[0..|s|] == s;
    if Shown(s, 0, q).Some? {
      ShownStays(s, 0, q, |s|);
    }
    TwoChunks(s, q, |s|);
    TrimmedOnce(s, q, |s|);
  }

  // A first marker line that is not a number, 16384 bytes, and a second one that says t.
  function StrayStream(t: seq<Byte>): seq<Byte> { Stream([], [120], Run(0, 16384) + (MARKER + (t + [10]))) }

  lemma RunTail(b: Byte, n: nat, k: nat)
    requires k <= n
    ensures Run(b, n)[k..] == Run(b, n - k)
  {
  }

  lemma TailOf(x: seq<Byte>, y: seq<Byte>, z: seq<Byte>, k: nat)
    requires |x| <= k <= |x| + |y|
    ensures (x + (y + z))[k..] == y[k - |x|..] + z
  {
    assert (x + (y + z))[|x|..] == y + z;
    assert (y + z)[k - |x|..] == y[k - |x|..] + z;
  }

  lemma StrayTail(t: seq<Byte>)
    ensures |StrayStream(t)| == 16411 + |t| && StrayStream(t)[14337..] == Stream(Run(0, 2061), t, [])
  {
    var line: seq<Byte> := MARKER + (t + [10]);
    assert StrayStream(t) == MARKER + [120, 10] + (Run(0, 16384) + line);
    hide StrayStream, Stream;
    RunTail(0, 16384, 14323);
    TailOf(MARKER + [120, 10], Run(0, 16384), line, 14337);
    hide Run;
    StreamIs(Run(0, 2061), t);
  }

  lemma StreamIs(f: seq<Byte>, t: seq<Byte>)
    ensures Stream(f, t, []) == f + (MARKER + (t + [10]))
  {
    assert [10] + [] == [10];
  }

  // The search of the whole stream finds nothing, and a cut of it captures the second code.
  lemma StrayCodeCanBeCaptured(t: seq<Byte>, code: int)
    requires NoLineEnd(t) && ExitCode(t) == Some(code)
    ensures Visible(StrayStream(t)).None? && |StrayStream(t)| > 16385
    ensures Joined(CutAt(StrayStream(t), 16385, |StrayStream(t)|)) == StrayStream(t)
    ensures Feed(FRESH, CutAt(StrayStream(t), 16385, |StrayStream(t)|)).captured == Some(code)
  {
    hide *;
    StrayShows(t, code);
    StrayIsCaptured(StrayStream(t), 14337);
    WholeCut(StrayStream(t), 16385);
  }

  lemma StrayShows(t: seq<Byte>, code: int)
    requires NoLineEnd(t) && ExitCode(t) == Some(code)
    ensures Visible(StrayStream(t)).None? && |StrayStream(t)| > 16385 && Stray(StrayStream(t), 14337)
    ensures Shown(StrayStream(t), 14337, |StrayStream(t)|) == Some(code) && 14337 + KEEP == 16385
  {
    hide ExitCode, Visible, Stream, Run, StrayStream, NoLineEnd;
    StrayLines(t, code);
    StrayTail(t);
    var s := StrayStream(t);
    assert s[14337..|s|] == s[14337..];
  }

  lemma StrayLines(t: seq<Byte>, code: int)
    requires NoLineEnd(t) && ExitCode(t) == Some(code)
    ensures Visible(StrayStream(t)).None? && Visible(Stream(Run(0, 2061), t, [])) == Some(code)
  {
    assert ExitCode([120]).None? by { assert TrimLeft([120]) == [120] && TrimRight([120]) == [120]; }
    hide ExitCode, Visible, Stream;
    ShowsItsLine([], [120], Run(0, 16384) + (MARKER + (t + [10])));
    ShowsItsLine(Run(0, 2061), t, []);
  }

  // ── What the shim returns ─────────────────────────────────────────────────

  // The result of lightr_vz_run: the boot failed, a code was captured, or neither.
  function RunResult(vmStatus: int, captured: Option<int>): int {
    if vmStatus < 0 then -1 else if captured.Some? then captured.value else -2
  }

  // The documented contract: -1 for a failed boot, 0 to 255 for the guest's own code, -2 when
  // the machine stopped without a marker.
  predicate KeepsContract(vmStatus: int, captured: Option<int>) {
    var r := RunResult(vmStatus, captured);
    && (r == -1 <==> vmStatus < 0)
    && (0 <= r <= 255 <==> vmStatus >= 0 && captured.Some?)
    && (r == -2 <==> vmStatus >= 0 && captured.None?)
  }

  predicate InRange(code: int) { 0 <= code <= 255 }

  lemma KeepsContractIff(captured: Option<int>)
    ensures KeepsContract(0, captured) <==> (captured.Some? ==> InRange(captured.value))
  {
  }

  // A machine that stopped cleanly: whatever the console printed, every cut of it keeps the
  // contract exactly when every code it shows from its beginning, or from a place where a
  // trim can leave the buffer, is 0 to 255. The scanner itself takes any 32-bit number.
  lemma ContractIff(s: seq<Byte>)
    ensures (forall chunks | CutOf(s, chunks) :: KeepsContract(0, Feed(FRESH, chunks).captured)) <==>
            forall a: nat | Readable(s, a) :: InRange(Shown(s, a, |s|).value)
  {
    hide CutOf, Feed, Left, Shown, KeepsContract, InRange;
    forall chunks | CutOf(s, chunks) && !KeepsContract(0, Feed(FRESH, chunks).captured)
      ensures exists a: nat :: Readable(s, a) && !InRange(Shown(s, a, |s|).value)
    {
      KeepsContractIff(Feed(FRESH, chunks).captured);
      CapturedIff(s, Feed(FRESH, chunks).captured.value);
    }
    forall a: nat | Readable(s, a) && !InRange(Shown(s, a, |s|).value)
      ensures exists chunks :: CutOf(s, chunks) && !KeepsContract(0, Feed(FRESH, chunks).captured)
    {
      CapturedIff(s, Shown(s, a, |s|).value);
      KeepsContractIff(Shown(s, a, |s|));
    }
  }

  // When the whole stream shows no code, the places are those one trim can reach.
  lemma StrayContractIff(s: seq<Byte>)
    requires Visible(s).None?
    ensures (forall chunks | CutOf(s, chunks) :: KeepsContract(0, Feed(FRESH, chunks).captured)) <==>
            forall a: nat | Stray(s, a) :: InRange(Shown(s, a, |s|).value)
  {
    hide CutOf, Feed, Shown, KeepsContract, InRange, Visible, Readable;
    ContractIff(s);
    forall a: nat ensures Readable(s, a) <==> Stray(s, a) {
      ReadableIsStray(s, a);
    }
  }

  // When the first marker line is near enough, only its own code is to be looked at.
  lemma NearContractIff(s: seq<Byte>, p: nat, q: nat, code: int, chunks: seq<seq<Byte>>)
    requires MarkedLine(s, p, q, code) && NearEnough(p, q) && CutOf(s, chunks) && |Joined(chunks)| > q
    ensures KeepsContract(0, Feed(FRESH, chunks).captured) <==> InRange(code)
  {
    hide MarkedLine, CutOf, Feed, Joined;
    EveryChunkingCaptures(s, p, q, code, chunks);
  }

  // A stream whose whole search finds nothing can return a later line's 300.
  lemma StrayCodeCanBreakIt()
    ensures var s := StrayStream([51, 48, 48]);
            && Visible(s).None? && |s| > 16385
            && !KeepsContract(0, Feed(FRESH, CutAt(s, 16385, |s|)).captured)
  {
    var t: seq<Byte> := [51, 48, 48];
    assert TrimLeft(t) == t && TrimRight(t) == t && t[..2] == [51, 48];
    assert Magnitude([51]) == 3 by { assert [51][..0] == []; }
    assert Magnitude([51, 48]) == 30 by { assert [51, 48][..1] == [51]; }
    assert ExitCode(t) == Some(300);
    hide ExitCode, Feed, CutAt, Visible, StrayStream;
    StrayCodeCanBeCaptured(t, 300);
  }

  // A guest that prints -2 is taken for one that printed no marker.
  lemma CodeCanPassForNone(rest: seq<Byte>)
    ensures var s := Stream([], [45, 50], rest);
            MarkedLine(s, 0, 14, -2) && NearEnough(0, 14) && RunResult(0, Visible(s)) == RunResult(0, None)
  {
    var t: seq<Byte> := [45, 50];
    assert TrimLeft(t) == t && TrimRight(t) == t && t[1..] == [50];
    assert Magnitude([50]) == 2 by { assert [50][..0] == []; }
    assert ExitCode(t) == Some(-2);
    hide ExitCode;
    MarkedStream([], t, rest, -2);
    ShowsItsLine([], t, rest);
  }
}
