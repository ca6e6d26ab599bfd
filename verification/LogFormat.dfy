/**
 The CRI log format: framing a stream into records, printing records, and the reader that
 splits a log file on newlines and gives each stream its bytes back.
 */
module LogFormat {
  import opened Bytes
  import opened CivilDate
  import opened LogStamp

  datatype Stream = Stdout | Stderr

  function Name(s: Stream): seq<Byte> {
    match s
    case Stdout => [115, 116, 100, 111, 117, 116]
    case Stderr => [115, 116, 100, 101, 114, 114]
  }

  // ── Framing a stream ──────────────────────────────────────────────────────

  // The complete lines of a stream, each with its newline, and what is left over.
  function Complete(s: seq<Byte>): seq<seq<Byte>> {
    var k := Find(s, NEWLINE);
    if k == |s| then [] else [s[..k + 1]] + Complete(s[k + 1..])
  }

  function Rest(s: seq<Byte>): (r: seq<Byte>)
    ensures NEWLINE !in r
  {
    var k := Find(s, NEWLINE);
    if k == |s| then s else Rest(s[k + 1..])
  }

  function Concat(parts: seq<seq<Byte>>): seq<Byte> {
    if parts == [] then [] else parts[0] + Concat(parts[1..])
  }

  lemma {:induction false} FindAppend(s: seq<Byte>, t: seq<Byte>)
    requires NEWLINE in s
    ensures Find(s + t, NEWLINE) == Find(s, NEWLINE) < |s|
  {
    hide Find;
    var k := Find(s, NEWLINE);
    assert s + t == s[..k] + [NEWLINE] + (s[k + 1..] + t);
    FindIn(s[..k], NEWLINE, s[k + 1..] + t);
  }

  lemma FrameStep(s: seq<Byte>, k: nat)
    requires k == Find(s, NEWLINE) < |s|
    ensures Complete(s) == [s[..k + 1]] + Complete(s[k + 1..]) && Rest(s) == Rest(s[k + 1..])
  {
  }

  lemma FrameNone(s: seq<Byte>)
    requires Find(s, NEWLINE) == |s|
    ensures Complete(s) == [] && Rest(s) == s
  {
  }

  // More bytes frame as the leftover followed by them: framing does not see chunk borders.
  lemma {:induction false} FrameAppend(s: seq<Byte>, t: seq<Byte>)
    ensures Complete(s + t) == Complete(s) + Complete(Rest(s) + t)
    ensures Rest(s + t) == Rest(Rest(s) + t)
    decreases |s|
  {
    hide Complete, Rest;
    var k := Find(s, NEWLINE);
    if k == |s| {
      FrameNone(s);
    } else {
      assert NEWLINE in s;
      FindAppend(s, t);
      FrameStep(s, k);
      FrameStep(s + t, k);
      FrameAppend(s[k + 1..], t);
      assert (s + t)[..k + 1] == s[..k + 1] && (s + t)[k + 1..] == s[k + 1..] + t;
    }
  }

  lemma ConcatStep(line: seq<Byte>, rest: seq<seq<Byte>>)
    ensures Concat([line] + rest) == line + Concat(rest)
  {
    assert ([line] + rest)[1..] == rest;
  }

  lemma FrontAndBack(line: seq<Byte>, body: seq<Byte>, rest: seq<Byte>, s: seq<Byte>, k: nat)
    requires k <= |s| && line == s[..k] && body + rest == s[k..]
    ensures (line + body) + rest == s
  {
    assert (line + body) + rest == line + (body + rest);
  }

  lemma {:induction false} FrameKeepsBytes(s: seq<Byte>)
    ensures Concat(Complete(s)) + Rest(s) == s
    decreases |s|
  {
    var k := Find(s, NEWLINE);
    if k == |s| {
      FrameNone(s);
      assert [] + s == s;
    } else {
      hide *;
      FrameKeepsBytes(s[k + 1..]);
      FrameStep(s, k);
      ConcatStep(s[..k + 1], Complete(s[k + 1..]));
      FrontAndBack(s[..k + 1], Concat(Complete(s[k + 1..])), Rest(s[k + 1..]), s, k + 1);
    }
  }

  // ── Records ───────────────────────────────────────────────────────────────

  datatype Tag = F | P

  datatype Record = Record(stream: Stream, tag: Tag, data: seq<Byte>, secs: nat, nanos: nat)

  // A full line ends in its only newline; a partial one has none and is not empty.
  predicate WellFormed(r: Record) {
    && r.secs < TWO_TO_64
    && match r.tag
       case F => r.data != [] && r.data[|r.data| - 1] == NEWLINE && NEWLINE !in r.data[..|r.data| - 1]
       case P => r.data != [] && NEWLINE !in r.data
  }

  function TagByte(t: Tag): Byte {
    if t == F then 70 else 80
  }

  // A record's line, without the newline that ends it.
  function Body(r: Record): seq<Byte>
    requires WellFormed(r)
  {
    var text := if r.tag == F then r.data[..|r.data| - 1] else r.data;
    Stamp(r.secs, r.nanos) + [SPACE] + (Name(r.stream) + [SPACE] + ([TagByte(r.tag)] + [SPACE] + text))
  }

  function FileOf(rs: seq<Record>): seq<Byte>
    requires forall r | r in rs :: WellFormed(r)
  {
    if rs == [] then [] else Body(rs[0]) + [NEWLINE] + FileOf(rs[1..])
  }

  // The records of one stream, in file order.
  function Mine(rs: seq<Record>, s: Stream): seq<Record> {
    if rs == [] then []
    else (if rs[0].stream == s then [rs[0]] else []) + Mine(rs[1..], s)
  }

  lemma {:induction false} MineAppend(rs: seq<Record>, r: Record, s: Stream)
    ensures Mine(rs + [r], s) == Mine(rs, s) + if r.stream == s then [r] else []
  {
    if rs == [] {
      assert rs + [r] == [r];
    } else {
      hide Mine;
      MineAppend(rs[1..], r, s);
      MineStep(rs[0], rs[1..], s);
      MineStep(rs[0], rs[1..] + [r], s);
      assert [rs[0]] + rs[1..] == rs && [rs[0]] + (rs[1..] + [r]) == rs + [r];
    }
  }

  lemma MineStep(r: Record, rs: seq<Record>, s: Stream)
    ensures Mine([r] + rs, s) == (if r.stream == s then [r] else []) + Mine(rs, s)
  {
    assert ([r] + rs)[1..] == rs;
  }

  lemma {:induction false} FileAppend(rs: seq<Record>, r: Record)
    requires (forall x | x in rs :: WellFormed(x)) && WellFormed(r)
    ensures forall x | x in rs + [r] :: WellFormed(x)
    ensures FileOf(rs + [r]) == FileOf(rs) + (Body(r) + [NEWLINE])
  {
    hide Body, WellFormed;
    if rs == [] {
      assert rs + [r] == [r];
      assert FileOf([r]) == Body(r) + [NEWLINE] + FileOf([]);
    } else {
      assert (rs + [r])[1..] == rs[1..] + [r];
      FileAppend(rs[1..], r);
      var first := Body(rs[0]) + [NEWLINE];
      assert FileOf(rs + [r]) == first + FileOf((rs + [r])[1..]);
      assert first + FileOf(rs[1..]) + (Body(r) + [NEWLINE]) == first + (FileOf(rs[1..]) + (Body(r) + [NEWLINE]));
    }
  }

  // ── The reader ────────────────────────────────────────────────────────────

  // The file split on newlines; a last line without one is not a line yet.
  function SplitLines(file: seq<Byte>): seq<seq<Byte>> {
    var k := Find(file, NEWLINE);
    if k == |file| then [] else [file[..k]] + SplitLines(file[k + 1..])
  }

  // What one line contributes to stream s: its text, with a newline when it is full.
  function Deliver(line: seq<Byte>, s: Stream): seq<Byte> {
    var k := Find(line, SPACE);
    if k == |line| then [] else
      var rest := line[k + 1..];
      var n := Find(rest, SPACE);
      if n == |rest| || rest[..n] != Name(s) then [] else
        var tail := rest[n + 1..];
        if |tail| < 2 then [] else tail[2..] + if tail[0] == TagByte(F) then [NEWLINE] else []
  }

  function Demux(lines: seq<seq<Byte>>, s: Stream): seq<Byte> {
    if lines == [] then [] else Deliver(lines[0], s) + Demux(lines[1..], s)
  }

  function Bodies(rs: seq<Record>): seq<seq<Byte>>
    requires forall r | r in rs :: WellFormed(r)
  {
    if rs == [] then [] else [Body(rs[0])] + Bodies(rs[1..])
  }

  lemma BodyHasNoNewline(r: Record)
    requires WellFormed(r)
    ensures NEWLINE !in Body(r)
  {
    hide Stamp;
    StampIsPlain(r.secs, r.nanos);
  }

  lemma SplitStep(line: seq<Byte>, rest: seq<Byte>)
    requires NEWLINE !in line
    ensures SplitLines(line + [NEWLINE] + rest) == [line] + SplitLines(rest)
  {
    var file := line + [NEWLINE] + rest;
    FindIn(line, NEWLINE, rest);
    assert file[..|line|] == line && file[|line| + 1..] == rest;
  }

  // Splitting the file on newlines gives back exactly the records' lines.
  lemma {:induction false} SplitInverts(rs: seq<Record>)
    requires forall r | r in rs :: WellFormed(r)
    ensures SplitLines(FileOf(rs)) == Bodies(rs)
  {
    if rs != [] {
      hide Body, WellFormed, SplitLines;
      BodyHasNoNewline(rs[0]);
      SplitStep(Body(rs[0]), FileOf(rs[1..]));
      SplitInverts(rs[1..]);
    }
  }

  lemma DeliverLine(stamp: seq<Byte>, from: Stream, tag: Byte, text: seq<Byte>, s: Stream)
    requires SPACE !in stamp
    ensures Deliver(stamp + [SPACE] + (Name(from) + [SPACE] + ([tag] + [SPACE] + text)), s) ==
            if from == s then text + (if tag == TagByte(F) then [NEWLINE] else []) else []
  {
    hide Name, Find;
    var tail := [tag] + [SPACE] + text;
    var rest := Name(from) + [SPACE] + tail;
    var line := stamp + [SPACE] + rest;
    FindIn(stamp, SPACE, rest);
    assert line[|stamp| + 1..] == rest;
    NameIsPlain(from);
    FindIn(Name(from), SPACE, tail);
    assert rest[..|Name(from)|] == Name(from) && rest[|Name(from)| + 1..] == tail;
    NamesDiffer(from, s);
    assert tail[2..] == text;
  }

  lemma DeliverInverts(r: Record, s: Stream)
    requires WellFormed(r)
    ensures Deliver(Body(r), s) == if r.stream == s then r.data else []
  {
    hide Stamp, Name, Deliver;
    StampIsPlain(r.secs, r.nanos);
    DeliverLine(Stamp(r.secs, r.nanos), r.stream, TagByte(r.tag),
                if r.tag == F then r.data[..|r.data| - 1] else r.data, s);
    if r.tag == F {
      assert r.data == r.data[..|r.data| - 1] + [NEWLINE];
    }
  }

  lemma NameIsPlain(s: Stream)
    ensures SPACE !in Name(s)
  {
  }

  lemma NamesDiffer(s: Stream, t: Stream)
    ensures Name(s) == Name(t) <==> s == t
  {
    assert Name(Stdout)[3] == 111 && Name(Stderr)[3] == 101;
  }

  function Data(rs: seq<Record>): seq<Byte> {
    if rs == [] then [] else rs[0].data + Data(rs[1..])
  }

  // Whatever order the two tees' records landed in, reading the file back by stream name
  // gives the data of that stream's own records.
  lemma {:induction false} DemuxInverts(rs: seq<Record>, s: Stream)
    requires forall r | r in rs :: WellFormed(r)
    ensures Demux(SplitLines(FileOf(rs)), s) == Data(Mine(rs, s))
  {
    hide SplitLines, FileOf;
    SplitInverts(rs);
    DemuxBodies(rs, s);
  }

  lemma {:induction false} DemuxBodies(rs: seq<Record>, s: Stream)
    requires forall r | r in rs :: WellFormed(r)
    ensures Demux(Bodies(rs), s) == Data(Mine(rs, s))
  {
    if rs != [] {
      hide Body, WellFormed, Deliver;
      DeliverInverts(rs[0], s);
      DemuxBodies(rs[1..], s);
      assert Bodies(rs)[1..] == Bodies(rs[1..]);
      if rs[0].stream == s {
        assert Mine(rs, s)[1..] == Mine(rs[1..], s);
      } else {
        assert Mine(rs, s) == Mine(rs[1..], s);
      }
    }
  }

  // ── A finished stream ─────────────────────────────────────────────────────

  // rs frames the complete lines of a stream, and after end of input also what was left.
  predicate Frames(rs: seq<Record>, lines: seq<seq<Byte>>, rest: seq<Byte>) {
    && |rs| == |lines| + (if rest == [] then 0 else 1)
    && (forall i | 0 <= i < |lines| :: rs[i].tag == F && rs[i].data == lines[i])
    && (rest != [] ==> rs[|lines|].tag == P && rs[|lines|].data == rest)
  }

  lemma {:induction false} FramesCarryData(rs: seq<Record>, lines: seq<seq<Byte>>, rest: seq<Byte>)
    requires Frames(rs, lines, rest)
    ensures Data(rs) == Concat(lines) + rest
  {
    if lines == [] {
      if rest != [] {
        assert rs[1..] == [];
      }
    } else {
      assert Frames(rs[1..], lines[1..], rest) by {
        assert rest != [] ==> rs[1..][|lines| - 1] == rs[|lines|];
      }
      FramesCarryData(rs[1..], lines[1..], rest);
      assert lines[0] + (Concat(lines[1..]) + rest) == lines[0] + Concat(lines[1..]) + rest;
    }
  }
}
