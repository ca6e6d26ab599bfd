/**
 Observing the capacity of a directory, and why that observation alone can never make an
 estimate clean.
 */
module CapacityObservation {
  import opened Options
  import opened Estimator
  import opened Estimate
  import opened EstimateLaws

  // The native counters, -1 to 2^64 - 1 each.
  datatype Counters = Counters(
    bsize: int, frsize: int, blocks: int, bfree: int, bavail: int, files: int, ffree: int, favail: int,
    flag: int, namemax: int)

  predicate InRange(n: int) { -1 <= n <= U64_MAX }

  predicate AllInRange(c: Counters) {
    && InRange(c.bsize) && InRange(c.frsize) && InRange(c.blocks) && InRange(c.bfree) && InRange(c.bavail)
    && InRange(c.files) && InRange(c.ffree) && InRange(c.favail) && InRange(c.flag) && InRange(c.namemax)
  }

  // A finite value: in range and not one of the sentinels.
  predicate Known(n: int) {
    0 <= n < U64_MAX && n != 0x7FFF_FFFF_FFFF_FFFF
  }

  // Whichever of total, free and available are known come in that order.
  predicate Ordered(total: int, free: int, available: int) {
    && (Known(total) && Known(free) ==> total >= free)
    && (Known(free) && Known(available) ==> free >= available)
    && (Known(total) && Known(available) ==> total >= available)
  }

  predicate BytesKnown(c: Counters) { Known(c.frsize) && c.frsize > 0 && Known(c.bavail) }
  predicate InodesKnown(c: Counters) { Known(c.files) && c.files > 0 && Known(c.ffree) && Known(c.favail) }

  // The known values of a triple, in order, compared with their neighbours.
  method TripleOk(counts: seq<int>) returns (ok: bool)
    requires |counts| == 3
    ensures ok <==> Ordered(counts[0], counts[1], counts[2])
  {
    var finite: seq<int> := [];
    for i := 0 to 3
      invariant finite == Finite(counts[..i])
    {
      assert counts[..i + 1] == counts[..i] + [counts[i]];
      FiniteAppend(counts[..i], counts[i]);
      if Known(counts[i]) {
        finite := finite + [counts[i]];
      }
    }
    assert counts[..3] == counts;
    FiniteThree(counts);
    ok := true;
    var j := 1;
    while j < |finite|
      invariant 1 <= j && (j <= |finite| || |finite| == 0)
      invariant ok <==> forall k | 1 <= k < j && k < |finite| :: finite[k - 1] >= finite[k]
    {
      if finite[j - 1] < finite[j] {
        ok := false;
      }
      j := j + 1;
    }
    assert |finite| >= 2 && ok ==> finite[1 - 1] >= finite[1];
    assert |finite| >= 3 && ok ==> finite[2 - 1] >= finite[2];
  }

  function Finite(counts: seq<int>): seq<int> {
    if counts == [] then [] else Kept(counts[0]) + Finite(counts[1..])
  }

  function Kept(n: int): seq<int> { if Known(n) then [n] else [] }

  lemma FiniteStep(counts: seq<int>)
    requires counts != []
    ensures Finite(counts) == Kept(counts[0]) + Finite(counts[1..])
  {
  }

  lemma FiniteOne(n: int)
    ensures Finite([n]) == Kept(n)
  {
    assert [n][1..] == [];
  }

  lemma {:induction false} FiniteAppend(counts: seq<int>, n: int)
    ensures Finite(counts + [n]) == Finite(counts) + Kept(n)
  {
    if counts == [] {
      FiniteOne(n);
      assert counts + [n] == [n] && Finite(counts) + Kept(n) == Kept(n);
    } else {
      hide *;
      FiniteAppend(counts[1..], n);
      assert (counts + [n])[1..] == counts[1..] + [n];
      FiniteStep(counts);
      FiniteStep(counts + [n]);
    }
  }

  lemma FiniteThree(c: seq<int>)
    requires |c| == 3
    ensures var f := Finite(c);
            |f| <= 3 && (Ordered(c[0], c[1], c[2]) <==> (|f| >= 2 ==> f[0] >= f[1]) && (|f| >= 3 ==> f[1] >= f[2]))
  {
    assert c[1..][1..] == c[2..] && c[2..][1..] == [];
    assert Finite(c[2..]) == Kept(c[2]) + Finite([]);
    assert Finite(c[1..]) == Kept(c[1]) + Finite(c[2..]);
    assert Finite(c) == Kept(c[0]) + Finite(c[1..]);
    hide Known, Finite;
  }

  // Counters the projection can use: in range, in order, and a byte count that fits.
  predicate Decodable(c: Counters) {
    && AllInRange(c) && Ordered(c.blocks, c.bfree, c.bavail) && Ordered(c.files, c.ffree, c.favail)
    && (BytesKnown(c) ==> c.frsize * c.bavail <= U64_MAX)
  }

  // What the counters say of a capacity: the free axes they determine and no quota.
  predicate Projects(c: Counters, capacity: Capacity) {
    && capacity.quotaBytes == Missing
    && (if BytesKnown(c) then c.frsize * c.bavail >= 0 && capacity.freeBytes == Available(c.frsize * c.bavail)
        else capacity.freeBytes == Missing)
    && capacity.freeInodes == (if InodesKnown(c) then Available(c.favail) else Missing)
  }

  // decode_counters: accepts consistent counters, and gives what they say.
  method DecodeCounters(c: Counters) returns (r: Option<Capacity>)
    ensures r.Some? <==> Decodable(c)
    ensures r.Some? ==> Projects(c, r.value)
  {
    if !AllInRange(c) {
      return None;
    }
    var triples := [[c.blocks, c.bfree, c.bavail], [c.files, c.ffree, c.favail]];
    for i := 0 to 2
      invariant i >= 1 ==> Ordered(c.blocks, c.bfree, c.bavail)
      invariant i >= 2 ==> Ordered(c.files, c.ffree, c.favail)
    {
      var ok := TripleOk(triples[i]);
      if !ok {
        return None;
      }
    }
    var free, inodes := Missing, Missing;
    if BytesKnown(c) {
      var product := Mul(c.frsize, c.bavail);
      if product.None? {
        return None;
      }
      free := Available(product.value);
    }
    if InodesKnown(c) {
      inodes := Available(c.favail);
    }
    r := Some(Capacity(free, Missing, inodes));
  }

  // ── One observation ───────────────────────────────────────────────────────

  // The phases of an observation, in order. The checks are the caller's checkpoints.
  datatype Phase =
    | Input | CheckBeforeOpen | Capability | Open | CheckAfterOpen | Identity | CheckBeforeMeasurement
    | Statvfs | Decode | CheckAfterMeasurement | Close | CheckAfterClose

  function Rank(p: Phase): nat {
    match p
    case Input => 0
    case CheckBeforeOpen => 1
    case Capability => 2
    case Open => 3
    case CheckAfterOpen => 4
    case Identity => 5
    case CheckBeforeMeasurement => 6
    case Statvfs => 7
    case Decode => 8
    case CheckAfterMeasurement => 9
    case Close => 10
    case CheckAfterClose => 11
  }

  // How a phase went; a failure may be the NotImplementedError that says the platform lacks
  // the calls, which is how the capability phase itself reports that.
  datatype Reply = Fine | Fails(unsupported: bool)

  datatype Host = Host(reply: Phase -> Reply, counters: Counters)

  predicate Passes(h: Host, p: Phase) {
    h.reply(p).Fine? && (p == Decode ==> Decodable(h.counters))
  }

  datatype Trouble = Trouble(phase: Phase, unsupported: bool)

  // That error is told apart in every phase but the last two, which do not catch it.
  function TroubleAt(h: Host, p: Phase): Trouble {
    Trouble(p, Rank(p) < 10 && h.reply(p) == Fails(true))
  }

  // The first phase that failed.
  ghost predicate FirstFailure(h: Host, p: Phase) {
    !Passes(h, p) && forall q: Phase | Rank(q) < Rank(p) :: Passes(h, q)
  }

  datatype Cleanup = NotOpened | Closed | CloseUnknown
  datatype Status = Observed | UnsupportedCapability | Failed

  datatype Record = Record(
    status: Status, exitCode: nat, capacity: Option<Capacity>, errors: seq<Trouble>, cleanup: Cleanup)

  // The guarded part: stops at the first phase that fails.
  method Observe(h: Host) returns (failed: Option<Phase>, capacity: Option<Capacity>)
    ensures failed.None? <==> forall p: Phase | Rank(p) < 10 :: Passes(h, p)
    ensures failed.Some? ==> Rank(failed.value) < 10 && FirstFailure(h, failed.value)
    ensures capacity.Some? <==> failed.None?
    ensures capacity.Some? ==> Projects(h.counters, capacity.value)
  {
    capacity := None;
    if !Passes(h, Input) {
      return Some(Input), None;
    }
    if !Passes(h, CheckBeforeOpen) {
      return Some(CheckBeforeOpen), None;
    }
    if !Passes(h, Capability) {
      return Some(Capability), None;
    }
    if !Passes(h, Open) {
      return Some(Open), None;
    }
    if !Passes(h, CheckAfterOpen) {
      return Some(CheckAfterOpen), None;
    }
    if !Passes(h, Identity) {
      return Some(Identity), None;
    }
    if !Passes(h, CheckBeforeMeasurement) {
      return Some(CheckBeforeMeasurement), None;
    }
    if !Passes(h, Statvfs) {
      return Some(Statvfs), None;
    }
    var projection := DecodeCounters(h.counters);
    if h.reply(Decode).Fails? || projection.None? {
      assert !Passes(h, Decode);
      return Some(Decode), None;
    }
    if !Passes(h, CheckAfterMeasurement) {
      return Some(CheckAfterMeasurement), None;
    }
    return None, projection;
  }

  // observe_directory: what the counters say, only when no phase failed, the close included; the first
  // error listed is the first failure and decides the status; the descriptor is closed once
  // if it was opened, whatever failed in between.
  method ObserveDirectory(h: Host) returns (r: Record, closeCalls: nat)
    ensures r.capacity.Some? <==> forall p: Phase :: Passes(h, p)
    ensures r.capacity.Some? ==> Projects(h.counters, r.capacity.value)
    ensures r.errors == [] <==> r.capacity.Some?
    ensures r.errors != [] ==> FirstFailure(h, r.errors[0].phase) && r.errors[0] == TroubleAt(h, r.errors[0].phase)
    ensures r.status == Observed <==> r.errors == []
    ensures r.status == UnsupportedCapability <==> r.errors != [] && r.errors[0].unsupported
    ensures r.exitCode == match r.status { case Observed => 0 case Failed => 2 case UnsupportedCapability => 3 }
    ensures r.cleanup == NotOpened <==> exists p: Phase :: Rank(p) <= Rank(Open) && !Passes(h, p)
    ensures closeCalls == (if r.cleanup == NotOpened then 0 else 1)
    ensures r.cleanup != NotOpened ==> (r.cleanup == Closed <==> h.reply(Close).Fine?)
  {
    var failed, capacity := Observe(h);
    var errors: seq<Trouble> := if failed.Some? then [TroubleAt(h, failed.value)] else [];
    var cleanup := NotOpened;
    closeCalls := 0;
    if failed.None? || Rank(failed.value) > Rank(Open) {
      closeCalls := closeCalls + 1;
      cleanup := Closed;
      if !Passes(h, Close) {
        cleanup := CloseUnknown;
        errors := errors + [TroubleAt(h, Close)];
      }
    }
    if errors == [] && !Passes(h, CheckAfterClose) {
      errors := errors + [TroubleAt(h, CheckAfterClose)];
    }
    if errors == [] {
      r := Record(Observed, 0, capacity, errors, cleanup);
    } else if errors[0].unsupported {
      r := Record(UnsupportedCapability, 3, None, errors, cleanup);
    } else {
      r := Record(Failed, 2, None, errors, cleanup);
    }
  }

  // An inventory with a pool whose capacity was observed this way is never clean.
  method EstimateObserved(inv: Inventory, k: nat, h: Host) returns (r: Option<Report>)
    requires k < |inv.pools|
    ensures r.Some? ==> r.value.exitCode != 0
  {
    var record, _ := ObserveDirectory(h);
    if record.capacity.None? {
      return None;
    }
    var observed := inv.(pools := inv.pools[k := inv.pools[k].(capacity := record.capacity.value)]);
    r := EstimateInventory(observed);
    if r.Some? {
      MissingQuotaIsNeverClean(observed, r.value, observed.pools[k]);
    }
  }
}
