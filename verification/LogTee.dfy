/**
 The single reader of a container stream: it copies raw chunks to the attachers and frames
 lines into the log it shares with the other stream's reader.
 */
module LogTee {
  import opened Bytes
  import opened CivilDate
  import opened LogStamp
  import opened LogFormat

  // ── The shared log file ───────────────────────────────────────────────────

  class Log {
    var file: seq<Byte>
    ghost var records: seq<Record>

    ghost predicate Valid()
      reads this
    {
      (forall r | r in records :: WellFormed(r)) && file == FileOf(records)
    }

    constructor ()
      ensures Valid() && file == [] && records == []
    {
      file, records := [], [];
    }

    // One write_all of one formatted record, with the lock held.
    method Write(formatted: seq<Byte>, ghost r: Record)
      requires Valid() && WellFormed(r) && formatted == Body(r) + [NEWLINE]
      modifies this
      ensures Valid() && records == old(records) + [r]
    {
      file := file + formatted;
      FileAppend(records, r);
      records := records + [r];
    }

    // The other stream's reader may get any number of its records in.
    method OthersWrite(s: Stream)
      requires Valid()
      modifies this
      ensures Valid() && Mine(records, s) == old(Mine(records, s)) && old(records) <= records
    {
      var more: seq<Record> := *;
      for i := 0 to |more|
        invariant Valid() && Mine(records, s) == old(Mine(records, s)) && old(records) <= records
      {
        if WellFormed(more[i]) && more[i].stream != s {
          MineAppend(records, more[i], s);
          Write(Body(more[i]) + [NEWLINE], more[i]);
        }
      }
    }
  }

  // cri_log_line, for any bytes: a full line keeps its newline, anything else gets one. For
  // the bytes of a record it is that record's line.
  method CriLogLine(s: Stream, data: seq<Byte>, secs: nat, nanos: nat) returns (out: seq<Byte>)
    requires secs < TWO_TO_64
    ensures var full := data != [] && data[|data| - 1] == NEWLINE;
            out == Stamp(secs, nanos) + ([SPACE] + (Name(s) + ([SPACE, TagByte(if full then F else P), SPACE]
                                         + (data + if full then [] else [NEWLINE]))))
    ensures var r := Record(s, if data != [] && data[|data| - 1] == NEWLINE then F else P, data, secs, nanos);
            WellFormed(r) ==> out == Body(r) + [NEWLINE]
  {
    hide Stamp, Name;
    var full := data != [] && data[|data| - 1] == NEWLINE;
    out := Stamp(secs, nanos) + [SPACE];
    out := out + Name(s) + [SPACE];
    out := out + [TagByte(if full then F else P)] + [SPACE];
    ghost var head := out;
    out := out + data;
    if !full {
      out := out + [NEWLINE];
    }
    assert out == head + (data + if full then [] else [NEWLINE]);
    ghost var text := if full then data[..|data| - 1] else data;
    assert data + (if full then [] else [NEWLINE]) == text + [NEWLINE];
    ghost var tail := [TagByte(if full then F else P)] + [SPACE] + text;
    assert head + (text + [NEWLINE]) == Stamp(secs, nanos) + [SPACE] + (Name(s) + [SPACE] + tail) + [NEWLINE];
  }

  // ── Attachers ─────────────────────────────────────────────────────────────

  // The sinks of one stream. A sink is the write end of an attacher's pipe, shown here as
  // everything that pipe has received.
  class Sinks {
    var live: seq<seq<Byte>>
    ghost var since: seq<nat>                       // how much had been sent when each registered
    ghost var pruned: seq<(nat, seq<Byte>)>         // the same two facts of every pruned sink
    ghost var sent: seq<Byte>                       // everything broadcast

    // A live sink has had exactly the bytes since it registered, a pruned one a first part.
    ghost predicate Valid()
      reads this
    {
      && |since| == |live|
      && (forall i | 0 <= i < |live| :: since[i] <= |sent| && live[i] == sent[since[i]..])
      && (forall p | p in pruned :: p.0 <= |sent| && p.1 <= sent[p.0..])
    }

    constructor ()
      ensures Valid() && live == [] && pruned == [] && sent == []
    {
      live, since, pruned, sent := [], [], [], [];
    }

    method Register()
      requires Valid()
      modifies this
      ensures Valid() && live == old(live) + [[]] && since == old(since) + [|sent|]
      ensures pruned == old(pruned) && sent == old(sent)
    {
      live := live + [[]];
      since := since + [|sent|];
    }

    // Writes to every sink; one whose write fails, after some first part, is pruned.
    method Broadcast(data: seq<Byte>)
      requires Valid()
      modifies this
      ensures Valid() && sent == old(sent) + data
      ensures |live| + |pruned| == |old(live)| + |old(pruned)|
      ensures forall k | k in since :: k in old(since)
    {
      var kept: seq<seq<Byte>> := [];
      ghost var keptSince: seq<nat>, gone: seq<(nat, seq<Byte>)> := [], pruned;
      for n := 0 to |live|
        invariant |keptSince| == |kept| && |kept| + |gone| == n + |pruned|
        invariant forall i | 0 <= i < |kept| ::
                    && keptSince[i] in since && keptSince[i] <= |sent|
                    && kept[i] == sent[keptSince[i]..] + data
        invariant forall p | p in gone :: p.0 <= |sent| && p.1 <= sent[p.0..] + data
      {
        var ok: bool, part: nat := *, *;
        if ok {
          kept := kept + [live[n] + data];
          keptSince := keptSince + [since[n]];
        } else {
          gone := gone + [(since[n], live[n] + if part < |data| then data[..part] else data)];
        }
      }
      ghost var was := sent;
      live, since, pruned, sent := kept, keptSince, gone, sent + data;
      forall k: nat | k <= |was| ensures sent[k..] == was[k..] + data {
      }
    }
  }

  class FanOut {
    const stdoutSinks: Sinks
    const stderrSinks: Sinks

    constructor ()
      ensures fresh(stdoutSinks) && fresh(stderrSinks) && stdoutSinks != stderrSinks
      ensures stdoutSinks.Valid() && stderrSinks.Valid() && stdoutSinks.sent == stderrSinks.sent == []
    {
      stdoutSinks := new Sinks();
      stderrSinks := new Sinks();
    }

    function Of(s: Stream): Sinks {
      if s == Stderr then stderrSinks else stdoutSinks
    }
  }

  lemma FramesGrow(rs: seq<Record>, lines: seq<seq<Byte>>, r: Record)
    requires Frames(rs, lines, []) && r.tag == F
    ensures Frames(rs + [r], lines + [r.data], [])
  {
  }

  // ── The tee ───────────────────────────────────────────────────────────────

  class Tee {
    const stream: Stream
    const log: Log
    const fanout: FanOut
    var pending: seq<Byte>
    ghost var read: seq<Byte>             // everything read from the container so far

    ghost predicate Valid()
      reads this, log, fanout.Of(stream)
    {
      && log.Valid() && pending == Rest(read)
      && Frames(Mine(log.records, stream), Complete(read), [])
      && fanout.Of(stream).Valid() && fanout.Of(stream).sent == read
    }

    constructor (s: Stream, shared: Log, out: FanOut)
      requires shared.Valid() && Mine(shared.records, s) == [] && out.Of(s).Valid() && out.Of(s).sent == []
      ensures Valid() && stream == s && log == shared && fanout == out && read == []
    {
      stream, log, fanout, pending, read := s, shared, out, [], [];
    }

    // The whole life of the thread: any number of reads of any sizes, then end of input.
    method Run(chunks: seq<seq<Byte>>)
      requires Valid() && read == []
      modifies this, log, fanout.Of(stream)
      ensures read == Concat(chunks) && log.Valid()
      ensures Frames(Mine(log.records, stream), Complete(read), Rest(read))
      ensures fanout.Of(stream).Valid() && fanout.Of(stream).sent == read
    {
      hide Complete, Rest, FileOf, WellFormed, Mine, Frames;
      var left := chunks;
      assert [] + Concat(chunks) == Concat(chunks);
      while left != []
        invariant Valid() && read + Concat(left) == Concat(chunks)
        decreases |left|
      {
        assert read + Concat(left) == read + left[0] + Concat(left[1..]);
        Attach();
        Feed(left[0]);
        left := left[1..];
      }
      Finish();
    }

    // Any number of clients attach between two reads.
    method Attach()
      requires Valid()
      modifies fanout.Of(stream)
      ensures Valid()
    {
      hide Complete, Rest, FileOf, WellFormed, Mine, Frames;
      var clients: seq<int> := *;
      for i := 0 to |clients|
        invariant Valid()
      {
        fanout.Of(stream).Register();
      }
    }

    // One read: attachers first, then one record per complete line.
    method Feed(chunk: seq<Byte>)
      requires Valid()
      modifies this, log, fanout.Of(stream)
      ensures Valid() && read == old(read) + chunk
    {
      hide Complete, Rest, FileOf, WellFormed, Mine, Frames;
      fanout.Of(stream).Broadcast(chunk);
      FrameAppend(read, chunk);
      pending := pending + chunk;
      ghost var lines := Complete(read);
      read := read + chunk;
      var pos := Find(pending, NEWLINE);
      while pos < |pending|
        invariant log.Valid() && pos == Find(pending, NEWLINE)
        invariant Frames(Mine(log.records, stream), lines, [])
        invariant lines + Complete(pending) == Complete(read) && Rest(pending) == Rest(read)
        invariant read == old(read) + chunk && fanout.Of(stream).Valid() && fanout.Of(stream).sent == read
        decreases |pending|
      {
        var line := pending[..pos + 1];
        FrameStep(pending, pos);
        EmitLine(line, lines);
        lines := lines + [line];
        pending := pending[pos + 1..];
        pos := Find(pending, NEWLINE);
      }
      FrameNone(pending);
      assert lines + [] == lines;
    }

    method EmitLine(line: seq<Byte>, ghost lines: seq<seq<Byte>>)
      requires log.Valid() && Frames(Mine(log.records, stream), lines, [])
      requires line != [] && line[|line| - 1] == NEWLINE && NEWLINE !in line[..|line| - 1]
      modifies log
      ensures log.Valid() && Frames(Mine(log.records, stream), lines + [line], [])
    {
      var clock: nat, nanos: nat := *, *;
      var r := Record(stream, F, line, clock % TWO_TO_64, nanos);
      log.OthersWrite(stream);
      FramesGrow(Mine(log.records, stream), lines, r);
      Emit(r);
    }

    method Emit(r: Record)
      requires log.Valid() && WellFormed(r) && r.stream == stream
      modifies log
      ensures log.Valid() && Mine(log.records, stream) == old(Mine(log.records, stream)) + [r]
    {
      hide FileOf, Mine, Body;
      var formatted := CriLogLine(stream, r.data, r.secs, r.nanos);
      MineAppend(log.records, r, stream);
      log.Write(formatted, r);
    }

    // End of input: what is left without a newline becomes the one partial record.
    method Finish()
      requires Valid()
      modifies log
      ensures log.Valid() && Frames(Mine(log.records, stream), Complete(read), Rest(read))
    {
      var clock: nat, nanos: nat := *, *;
      if pending != [] {
        log.OthersWrite(stream);
        Emit(Record(stream, P, pending, clock % TWO_TO_64, nanos));
      }
    }
  }

  // ── What a reader of the finished log gets ────────────────────────────────

  // Any interleaving of two finished tees: reading the file by stream name gives each
  // stream back byte for byte.
  lemma LogIsFaithful(rs: seq<Record>, out: seq<Byte>, err: seq<Byte>)
    requires forall r | r in rs :: WellFormed(r)
    requires Frames(Mine(rs, Stdout), Complete(out), Rest(out)) && Frames(Mine(rs, Stderr), Complete(err), Rest(err))
    ensures SplitLines(FileOf(rs)) == Bodies(rs)
    ensures Demux(SplitLines(FileOf(rs)), Stdout) == out && Demux(SplitLines(FileOf(rs)), Stderr) == err
  {
    hide *;
    SplitInverts(rs);
    StreamIsFaithful(rs, Stdout, out);
    StreamIsFaithful(rs, Stderr, err);
  }

  lemma StreamIsFaithful(rs: seq<Record>, s: Stream, bytes: seq<Byte>)
    requires (forall r | r in rs :: WellFormed(r)) && Frames(Mine(rs, s), Complete(bytes), Rest(bytes))
    ensures Demux(SplitLines(FileOf(rs)), s) == bytes
  {
    hide *;
    DemuxInverts(rs, s);
    FramesCarryData(Mine(rs, s), Complete(bytes), Rest(bytes));
    FrameKeepsBytes(bytes);
  }

  // Before end of input the log already reads back as the stream's complete lines.
  lemma LogSoFarIsFaithful(rs: seq<Record>, s: Stream, read: seq<Byte>)
    requires (forall r | r in rs :: WellFormed(r)) && Frames(Mine(rs, s), Complete(read), [])
    ensures Demux(SplitLines(FileOf(rs)), s) + Rest(read) == read
  {
    hide *;
    DemuxInverts(rs, s);
    FramesCarryData(Mine(rs, s), Complete(read), []);
    FrameKeepsBytes(read);
    assert Concat(Complete(read)) + [] == Concat(Complete(read));
  }

  // A stream's records are full lines but for at most the last, which is partial exactly
  // when the stream does not end in a newline.
  lemma OnePartialAtTheEnd(rs: seq<Record>, bytes: seq<Byte>)
    requires Frames(rs, Complete(bytes), Rest(bytes))
    ensures forall i | 0 <= i < |rs| - 1 :: rs[i].tag == F
    ensures rs != [] && rs[|rs| - 1].tag == P <==> bytes != [] && bytes[|bytes| - 1] != NEWLINE
  {
    FrameKeepsBytes(bytes);
    if Rest(bytes) == [] {
      LastLine(bytes);
    } else {
      assert bytes[|bytes| - 1] == Rest(bytes)[|Rest(bytes)| - 1];
    }
  }

  lemma {:induction false} LastLine(bytes: seq<Byte>)
    requires Rest(bytes) == []
    ensures bytes == [] || bytes[|bytes| - 1] == NEWLINE
    decreases |bytes|
  {
    var k := Find(bytes, NEWLINE);
    if k < |bytes| {
      LastLine(bytes[k + 1..]);
    }
  }
}
