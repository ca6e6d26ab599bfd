/**
 The recovery capacity estimator: what a domain costs, exactly, and the loops that add it
 up with every intermediate figure checked against 64 bits.
 */
module Estimator {
  import opened Options
  import opened Sums

  const U64_MAX: nat := 0xFFFF_FFFF_FFFF_FFFF
  const MAX_POOLS: nat := 128
  const MAX_DOMAINS: nat := 1024
  const MAX_ITEMS: nat := 100_000
  const MAX_METADATA_BYTES: nat := 1_048_576 + 44

  // ── The inventory ─────────────────────────────────────────────────────────

  datatype State = Rewrite | Confirmed | Unseen
  datatype Object = Object(digest: string, length: nat, state: State)
  datatype Meta = Meta(id: string, bytes: nat, count: nat)

  datatype Domain = Domain(
    id: string, pool: string, inventoryComplete: bool, objects: seq<Object>, metadata: seq<Meta>, directories: nat)

  datatype Measured = Measured(unit: nat, fileOverhead: nat, directoryBytes: nat, inodesPerFile: nat,
                               inodesPerDirectory: nat)

  // A profile that passed its check has a usable allocation unit.
  type Profile = p: Measured | p.unit > 0 witness Measured(1, 0, 0, 0, 0)

  // ── Exact costs ───────────────────────────────────────────────────────────

  function Elements<T>(s: seq<T>): set<T> { set x | x in s }

  function Rewrites(objects: set<Object>): set<Object> { set o | o in objects && o.state == Rewrite }
  function Unknowns(objects: set<Object>): set<Object> { set o | o in objects && o.state == Unseen }

  // A digest names one object: its length and its state are the same wherever it is listed.
  predicate Consistent(objects: set<Object>) {
    forall a, b | a in objects && b in objects && a.digest == b.digest :: a == b
  }

  function RoundUp(size: nat, unit: nat): nat
    requires unit > 0
  {
    (size / unit + if size % unit == 0 then 0 else 1) * unit
  }

  function Allocation(p: Profile, size: nat): nat {
    RoundUp(size, p.unit) + p.fileOverhead
  }

  function LengthOf(): Object -> nat { (o: Object) => o.length }
  function ObjectCost(p: Profile): Object -> nat { (o: Object) => Allocation(p, o.length) }
  function MetaLength(): Meta -> nat { (m: Meta) => m.bytes * m.count }
  function MetaFiles(): Meta -> nat { (m: Meta) => m.count }
  function MetaCost(p: Profile): Meta -> nat { (m: Meta) => Allocation(p, m.bytes) * m.count }

  // A domain with the order of its lists, and repetition of objects, forgotten.
  datatype Content = Content(
    id: string, pool: string, inventoryComplete: bool, objects: set<Object>, metadata: set<Meta>, records: nat,
    directories: nat)

  function ContentOf(d: Domain): Content {
    Content(d.id, d.pool, d.inventoryComplete, Elements(d.objects), Elements(d.metadata), |d.metadata|, d.directories)
  }

  ghost function Payload(c: Content): nat { Sum(Rewrites(c.objects), LengthOf()) }
  ghost function MetadataBytes(c: Content): nat { Sum(c.metadata, MetaLength()) }
  ghost function Files(c: Content): nat { |Rewrites(c.objects)| + Sum(c.metadata, MetaFiles()) }
  ghost function Physical(c: Content, p: Profile): nat {
    Sum(Rewrites(c.objects), ObjectCost(p)) + Sum(c.metadata, MetaCost(p))
  }
  ghost function Bytes(c: Content, p: Profile): nat { Physical(c, p) + c.directories * p.directoryBytes }
  ghost function Inodes(c: Content, p: Profile): nat {
    Files(c) * p.inodesPerFile + c.directories * p.inodesPerDirectory
  }

  // ── When a domain has an estimate ─────────────────────────────────────────

  predicate ObjectsOk(objects: set<Object>) {
    Consistent(objects) && forall o | o in objects :: o.length <= U64_MAX
  }

  predicate MetaOk(m: Meta) { m.bytes <= MAX_METADATA_BYTES && 0 < m.count <= U64_MAX }

  // Record names are distinct.
  predicate DistinctNames(metadata: set<Meta>, records: nat) {
    |metadata| == records && forall a, b | a in metadata && b in metadata && a.id == b.id :: a == b
  }

  // Everything is well formed and every figure fits 64 bits.
  ghost predicate Estimable(c: Content, p: Option<Profile>) {
    && c.directories <= U64_MAX && ObjectsOk(c.objects)
    && (forall m | m in c.metadata :: MetaOk(m)) && DistinctNames(c.metadata, c.records)
    && Payload(c) + MetadataBytes(c) <= U64_MAX && Files(c) <= U64_MAX
    && (p.Some? ==> Bytes(c, p.value) <= U64_MAX && Inodes(c, p.value) <= U64_MAX)
  }

  datatype Row = Row(
    id: string, pool: string, complete: bool, unknown: nat, rewrites: nat, metadataFiles: nat, directories: nat,
    payload: nat, metadataBytes: nat, logical: nat, bytes: Option<nat>, inodes: Option<nat>)

  ghost function RowOf(c: Content, p: Option<Profile>): Row {
    Row(c.id, c.pool, c.inventoryComplete && Unknowns(c.objects) == {} && p.Some?,
        |Unknowns(c.objects)|, |Rewrites(c.objects)|, Sum(c.metadata, MetaFiles()), c.directories,
        Payload(c), MetadataBytes(c), Payload(c) + MetadataBytes(c),
        if p.Some? then Some(Bytes(c, p.value)) else None,
        if p.Some? then Some(Inodes(c, p.value)) else None)
  }

  // ── Checked arithmetic ────────────────────────────────────────────────────

  function Add(a: nat, b: nat): Option<nat> { if a + b <= U64_MAX then Some(a + b) else None }
  function Mul(a: nat, b: nat): Option<nat> { if a * b <= U64_MAX then Some(a * b) else None }

  function Rounded(size: nat, unit: nat): Option<nat>
    requires unit > 0
  {
    Mul(size / unit + (if size % unit == 0 then 0 else 1), unit)
  }

  // ── The object loop ───────────────────────────────────────────────────────

  // The cost of a list of (size, count) pairs under a profile.
  function ListCost(sizes: seq<(nat, nat)>, p: Profile): nat {
    if sizes == [] then 0
    else
      var (size, count) := sizes[|sizes| - 1];
      ListCost(sizes[..|sizes| - 1], p) + Allocation(p, size) * count
  }

  lemma ListCostAppend(sizes: seq<(nat, nat)>, x: (nat, nat), p: Profile)
    ensures ListCost(sizes + [x], p) == ListCost(sizes, p) + Allocation(p, x.0) * x.1
  {
    assert (sizes + [x])[..|sizes|] == sizes;
  }

  lemma ElementsNext<T>(s: seq<T>, i: nat)
    requires i < |s|
    ensures Elements(s[..i + 1]) == Elements(s[..i]) + {s[i]}
  {
    assert s[..i + 1] == s[..i] + [s[i]];
  }

  // What the loop knows after the first objects: `seen` lists them by digest, the figures
  // are those of the distinct ones among them.
  ghost predicate Scanned(objects: set<Object>, seen: map<string, (nat, State)>, payload: nat, rewrites: nat,
                          unknown: nat)
  {
    && (forall o | o in objects :: o.length <= U64_MAX && o.digest in seen && seen[o.digest] == (o.length, o.state))
    && (forall k | k in seen :: Object(k, seen[k].0, seen[k].1) in objects)
    && payload == Sum(Rewrites(objects), LengthOf())
    && rewrites == |Rewrites(objects)| && unknown == |Unknowns(objects)|
  }

  lemma ScannedIsConsistent(objects: set<Object>, seen: map<string, (nat, State)>, payload: nat, rewrites: nat,
                            unknown: nat)
    requires Scanned(objects, seen, payload, rewrites, unknown)
    ensures ObjectsOk(objects)
  {
  }

  lemma ScanRepeat(objects: set<Object>, o: Object, seen: map<string, (nat, State)>, payload: nat, rewrites: nat,
                   unknown: nat)
    requires Scanned(objects, seen, payload, rewrites, unknown) && o.digest in seen
    ensures if seen[o.digest] == (o.length, o.state) then objects + {o} == objects else !Consistent(objects + {o})
  {
    var known := Object(o.digest, seen[o.digest].0, seen[o.digest].1);
    if seen[o.digest] != (o.length, o.state) {
      assert known in objects + {o} && o in objects + {o};
    }
  }

  lemma RewritesGrow(objects: set<Object>, o: Object, f: Object -> nat)
    requires o !in objects
    ensures Sum(Rewrites(objects + {o}), f) == Sum(Rewrites(objects), f) + if o.state == Rewrite then f(o) else 0
    ensures |Rewrites(objects + {o})| == |Rewrites(objects)| + if o.state == Rewrite then 1 else 0
    ensures |Unknowns(objects + {o})| == |Unknowns(objects)| + if o.state == Unseen then 1 else 0
  {
    assert Rewrites(objects + {o}) == if o.state == Rewrite then Rewrites(objects) + {o} else Rewrites(objects);
    assert Unknowns(objects + {o}) == if o.state == Unseen then Unknowns(objects) + {o} else Unknowns(objects);
    if o.state == Rewrite {
      SumAdd(Rewrites(objects), f, o);
    }
  }

  lemma ScanNew(objects: set<Object>, o: Object, seen: map<string, (nat, State)>, payload: nat, rewrites: nat,
                unknown: nat)
    requires Scanned(objects, seen, payload, rewrites, unknown) && o.digest !in seen && o.length <= U64_MAX
    ensures o !in objects
    ensures Scanned(objects + {o}, seen[o.digest := (o.length, o.state)],
                    payload + (if o.state == Rewrite then o.length else 0),
                    rewrites + (if o.state == Rewrite then 1 else 0),
                    unknown + (if o.state == Unseen then 1 else 0))
  {
    hide Rewrites, Unknowns, Sum;
    assert o !in objects;
    RewritesGrow(objects, o, LengthOf());
  }

  // The object loop: figures of the distinct objects, or a rejection that is deserved.
  method ScanObjects(objects: seq<Object>, ghost p: Option<Profile>)
      returns (r: Option<(nat, nat, nat)>, sizes: seq<(nat, nat)>)
    ensures forall x | x in sizes :: x.1 > 0
    ensures r.None? ==> !ObjectsOk(Elements(objects)) || Sum(Rewrites(Elements(objects)), LengthOf()) > U64_MAX
    ensures r.Some? ==>
              && ObjectsOk(Elements(objects))
              && r.value == (|Rewrites(Elements(objects))|, Sum(Rewrites(Elements(objects)), LengthOf()),
                             |Unknowns(Elements(objects))|)
              && r.value.1 <= U64_MAX
              && (p.Some? ==> ListCost(sizes, p.value) == Sum(Rewrites(Elements(objects)), ObjectCost(p.value)))
  {
    hide Rewrites, Unknowns, Sum, ListCost, Allocation, Scanned, ObjectsOk, Elements;
    var seen: map<string, (nat, State)> := map[];
    sizes := [];
    var rewrites: nat, payload: nat, unknown: nat := 0, 0, 0;
    ScanNothing(objects);
    for i := 0 to |objects|
      invariant Scanned(Elements(objects[..i]), seen, payload, rewrites, unknown) && payload <= U64_MAX
      invariant forall x | x in sizes :: x.1 > 0
      invariant p.Some? ==> ListCost(sizes, p.value) == Sum(Rewrites(Elements(objects[..i])), ObjectCost(p.value))
    {
      var o := objects[i];
      ElementsNext(objects, i);
      ghost var before := Elements(objects[..i]);
      if o.length > U64_MAX {
        RejectLong(objects, i);
        return None, sizes;
      }
      if o.digest in seen {
        ScanRepeat(before, o, seen, payload, rewrites, unknown);
        if seen[o.digest] != (o.length, o.state) {
          RejectConflict(objects, i);
          return None, sizes;
        }
      } else {
        ScanNew(before, o, seen, payload, rewrites, unknown);
        seen := seen[o.digest := (o.length, o.state)];
        if o.state == Rewrite {
          rewrites := rewrites + 1;
          if payload + o.length > U64_MAX {
            RejectSum(objects, i, seen, payload + o.length, rewrites, unknown);
            return None, sizes;
          }
          payload := payload + o.length;
          if p.Some? {
            RewritesGrow(before, o, ObjectCost(p.value));
            ListCostAppend(sizes, (o.length, 1), p.value);
          }
          sizes := sizes + [(o.length, 1)];
        } else {
          if o.state == Unseen {
            unknown := unknown + 1;
          }
          if p.Some? {
            RewritesGrow(before, o, ObjectCost(p.value));
          }
        }
      }
    }
    assert objects[..|objects|] == objects;
    ScannedIsConsistent(Elements(objects), seen, payload, rewrites, unknown);
    ScannedFigures(Elements(objects), seen, payload, rewrites, unknown);
    r := Some((rewrites, payload, unknown));
  }

  lemma ScannedFigures(objects: set<Object>, seen: map<string, (nat, State)>, payload: nat, rewrites: nat, unknown: nat)
    requires Scanned(objects, seen, payload, rewrites, unknown)
    ensures payload == Sum(Rewrites(objects), LengthOf()) && rewrites == |Rewrites(objects)|
    ensures unknown == |Unknowns(objects)|
  {
  }

  lemma ScanNothing(objects: seq<Object>)
    ensures Scanned(Elements(objects[..0]), map[], 0, 0, 0)
    ensures forall p :: Sum(Rewrites(Elements(objects[..0])), ObjectCost(p)) == 0 && ListCost([], p) == 0
  {
    assert Rewrites(Elements(objects[..0])) == {} && Unknowns(Elements(objects[..0])) == {};
  }

  lemma RejectLong(objects: seq<Object>, i: nat)
    requires i < |objects| && objects[i].length > U64_MAX
    ensures !ObjectsOk(Elements(objects))
  {
    assert objects[i] in Elements(objects);
  }

  lemma RejectConflict(objects: seq<Object>, i: nat)
    requires i < |objects| && !Consistent(Elements(objects[..i]) + {objects[i]})
    ensures !ObjectsOk(Elements(objects))
  {
    var some := Elements(objects[..i]) + {objects[i]};
    var a, b :| a in some && b in some && a.digest == b.digest && a != b;
    assert a in Elements(objects) && b in Elements(objects);
  }

  lemma RejectSum(objects: seq<Object>, i: nat, seen: map<string, (nat, State)>, payload: nat, rewrites: nat,
                  unknown: nat)
    requires i < |objects| && Scanned(Elements(objects[..i]) + {objects[i]}, seen, payload, rewrites, unknown)
    requires payload > U64_MAX
    ensures Sum(Rewrites(Elements(objects)), LengthOf()) > U64_MAX
  {
    SumSubset(Rewrites(Elements(objects[..i]) + {objects[i]}), Rewrites(Elements(objects)), LengthOf());
  }

  // ── The metadata loop ─────────────────────────────────────────────────────

  // The names and figures of the first records, all of them distinct.
  ghost predicate Tallied(metadata: set<Meta>, names: set<string>, count: nat, bytes: nat, files: nat) {
    && (forall m | m in metadata :: MetaOk(m) && m.id in names)
    && (forall n | n in names :: exists m :: m in metadata && m.id == n)
    && DistinctNames(metadata, count)
    && bytes == Sum(metadata, MetaLength()) && files == Sum(metadata, MetaFiles())
  }

  lemma TallyNew(metadata: set<Meta>, m: Meta, names: set<string>, count: nat, bytes: nat, files: nat)
    requires Tallied(metadata, names, count, bytes, files) && m.id !in names && MetaOk(m)
    ensures m !in metadata
    ensures Tallied(metadata + {m}, names + {m.id}, count + 1, bytes + m.bytes * m.count, files + m.count)
  {
    hide Sum, MetaOk;
    assert m !in metadata;
    SumAdd(metadata, MetaLength(), m);
    SumAdd(metadata, MetaFiles(), m);
    forall n | n in names + {m.id} ensures exists x :: x in metadata + {m} && x.id == n {
      if n == m.id {
        assert m in metadata + {m};
      } else {
        var x :| x in metadata && x.id == n;
        assert x in metadata + {m};
      }
    }
  }

  lemma {:induction false} FewerNames(metadata: seq<Meta>)
    ensures |Elements(metadata)| <= |metadata|
  {
    if metadata != [] {
      var n := |metadata| - 1;
      FewerNames(metadata[..n]);
      ElementsNext(metadata, n);
      assert metadata[..n + 1] == metadata;
    }
  }

  // A repeated name: whether the records differ or not, they are not all distinct.
  lemma RejectName(metadata: seq<Meta>, i: nat, j: nat)
    requires j < i < |metadata| && metadata[i].id == metadata[j].id
    ensures !DistinctNames(Elements(metadata), |metadata|)
  {
    var a, b := metadata[i], metadata[j];
    assert a in Elements(metadata) && b in Elements(metadata);
    if a == b {
      var rest := metadata[..i] + metadata[i + 1..];
      assert Elements(rest) == Elements(metadata) by {
        assert metadata[j] in metadata[..i];
        forall m | m in metadata ensures m in rest {
          var k :| 0 <= k < |metadata| && metadata[k] == m;
          if k < i {
            assert m in metadata[..i];
          } else if k > i {
            assert metadata[i + 1..][k - i - 1] == m;
          }
        }
      }
      FewerNames(rest);
    }
  }

  lemma EarlierName(metadata: seq<Meta>, i: nat, names: set<string>, bytes: nat, files: nat) returns (j: nat)
    requires i < |metadata| && Tallied(Elements(metadata[..i]), names, i, bytes, files) && metadata[i].id in names
    ensures j < i && metadata[j].id == metadata[i].id
  {
    var m :| m in Elements(metadata[..i]) && m.id == metadata[i].id;
    assert m in metadata[..i];
    j :| 0 <= j < i && metadata[..i][j] == m;
  }

  lemma RejectMetaSum(metadata: seq<Meta>, i: nat, f: Meta -> nat)
    requires i < |metadata| && Sum(Elements(metadata[..i + 1]), f) > U64_MAX
    ensures Sum(Elements(metadata), f) > U64_MAX
  {
    assert Elements(metadata[..i + 1]) <= Elements(metadata);
    SumSubset(Elements(metadata[..i + 1]), Elements(metadata), f);
  }

  ghost predicate MetadataOk(metadata: seq<Meta>) {
    (forall m | m in metadata :: MetaOk(m)) && DistinctNames(Elements(metadata), |metadata|)
  }

  method ScanMetadata(metadata: seq<Meta>, ghost p: Option<Profile>, before: seq<(nat, nat)>)
      returns (r: Option<(nat, nat)>, sizes: seq<(nat, nat)>)
    requires forall x | x in before :: x.1 > 0
    ensures forall x | x in sizes :: x.1 > 0
    ensures var all := Elements(metadata);
            r.None? ==> !MetadataOk(metadata) || Sum(all, MetaLength()) > U64_MAX || Sum(all, MetaFiles()) > U64_MAX
    ensures var all := Elements(metadata);
            r.Some? ==>
              && MetadataOk(metadata) && r.value == (Sum(all, MetaLength()), Sum(all, MetaFiles()))
              && r.value.0 <= U64_MAX && r.value.1 <= U64_MAX
              && (p.Some? ==> ListCost(sizes, p.value) == ListCost(before, p.value) + Sum(all, MetaCost(p.value)))
  {
    hide Sum, ListCost, Allocation, Tallied, Elements, MetaOk, DistinctNames;
    var names: set<string>, bytes: nat, files: nat := {}, 0, 0;
    sizes := before;
    TallyNothing(metadata);
    for i := 0 to |metadata|
      invariant Tallied(Elements(metadata[..i]), names, i, bytes, files) && bytes <= U64_MAX && files <= U64_MAX
      invariant forall x | x in sizes :: x.1 > 0
      invariant p.Some? ==>
                  ListCost(sizes, p.value) ==
                  ListCost(before, p.value) + Sum(Elements(metadata[..i]), MetaCost(p.value))
    {
      var m := metadata[i];
      ElementsNext(metadata, i);
      if m.id in names {
        ghost var j := EarlierName(metadata, i, names, bytes, files);
        RejectName(metadata, i, j);
        return None, sizes;
      }
      if m.bytes > MAX_METADATA_BYTES || m.count == 0 || m.count > U64_MAX {
        RejectMeta(metadata, i);
        return None, sizes;
      }
      AcceptMeta(m);
      TallyNew(Elements(metadata[..i]), m, names, i, bytes, files);
      TallyFigures(Elements(metadata[..i + 1]), names + {m.id}, i + 1, bytes + m.bytes * m.count, files + m.count);
      if bytes + m.bytes * m.count > U64_MAX {
        RejectMetaSum(metadata, i, MetaLength());
        return None, sizes;
      }
      if files + m.count > U64_MAX {
        RejectMetaSum(metadata, i, MetaFiles());
        return None, sizes;
      }
      if p.Some? {
        SumAdd(Elements(metadata[..i]), MetaCost(p.value), m);
        ListCostAppend(sizes, (m.bytes, m.count), p.value);
      }
      names, bytes, files := names + {m.id}, bytes + m.bytes * m.count, files + m.count;
      sizes := sizes + [(m.bytes, m.count)];
    }
    assert metadata[..|metadata|] == metadata;
    TallyFigures(Elements(metadata), names, |metadata|, bytes, files);
    TallyOk(metadata, names, bytes, files);
    r := Some((bytes, files));
  }

  lemma TallyNothing(metadata: seq<Meta>)
    ensures Tallied(Elements(metadata[..0]), {}, 0, 0, 0)
    ensures forall p :: Sum(Elements(metadata[..0]), MetaCost(p)) == 0
  {
    assert Elements(metadata[..0]) == {};
  }

  lemma RejectMeta(metadata: seq<Meta>, i: nat)
    requires i < |metadata|
    requires metadata[i].bytes > MAX_METADATA_BYTES || metadata[i].count == 0 || metadata[i].count > U64_MAX
    ensures !MetadataOk(metadata)
  {
    assert metadata[i] in metadata && !MetaOk(metadata[i]);
  }

  lemma AcceptMeta(m: Meta)
    requires m.bytes <= MAX_METADATA_BYTES && 0 < m.count <= U64_MAX
    ensures MetaOk(m)
  {
  }

  lemma TallyFigures(metadata: set<Meta>, names: set<string>, count: nat, bytes: nat, files: nat)
    requires Tallied(metadata, names, count, bytes, files)
    ensures bytes == Sum(metadata, MetaLength()) && files == Sum(metadata, MetaFiles())
  {
  }

  lemma TallyOk(metadata: seq<Meta>, names: set<string>, bytes: nat, files: nat)
    requires Tallied(Elements(metadata), names, |metadata|, bytes, files)
    ensures MetadataOk(metadata)
  {
    forall m | m in metadata ensures MetaOk(m) {
      assert m in Elements(metadata);
    }
  }

  // ── Physical cost ─────────────────────────────────────────────────────────

  lemma {:induction false} ListCostGrows(sizes: seq<(nat, nat)>, i: nat, p: Profile)
    requires i <= |sizes|
    ensures ListCost(sizes[..i], p) <= ListCost(sizes, p)
    decreases |sizes|
  {
    hide ListCost, Allocation;
    if i == |sizes| {
      assert sizes[..i] == sizes;
    } else {
      var n := |sizes| - 1;
      ListCostGrows(sizes[..n], i, p);
      assert sizes[..n][..i] == sizes[..i] && sizes == sizes[..n] + [sizes[n]];
      ListCostAppend(sizes[..n], sizes[n], p);
      Product(Allocation(p, sizes[n].0), sizes[n].1);
    }
  }

  lemma Product(a: nat, b: nat)
    ensures a * b >= 0
  {
  }

  // The physical loop, every rounding, product and sum checked: exact, or truly too large.
  method PhysicalCost(sizes: seq<(nat, nat)>, p: Profile) returns (r: Option<nat>)
    requires forall x | x in sizes :: x.1 > 0
    ensures r == if ListCost(sizes, p) <= U64_MAX then Some(ListCost(sizes, p)) else None
  {
    hide ListCost;
    var physical: nat := 0;
    NoCost(p);
    assert sizes[..0] == [];
    for i := 0 to |sizes|
      invariant physical == ListCost(sizes[..i], p) <= U64_MAX
    {
      var (size, count) := sizes[i];
      assert sizes[..i + 1] == sizes[..i] + [sizes[i]];
      ListCostAppend(sizes[..i], sizes[i], p);
      ListCostGrows(sizes, i + 1, p);
      assert sizes[i] in sizes;
      AtLeastOne(Allocation(p, size), count);
      var block := Rounded(size, p.unit);
      if block.None? {
        return None;
      }
      var allocation := Add(block.value, p.fileOverhead);
      if allocation.None? {
        return None;
      }
      var product := Mul(allocation.value, count);
      if product.None? {
        return None;
      }
      var sum := Add(physical, product.value);
      if sum.None? {
        return None;
      }
      physical := sum.value;
    }
    assert sizes[..|sizes|] == sizes;
    r := Some(physical);
  }

  lemma NoCost(p: Profile)
    ensures ListCost([], p) == 0
  {
  }

  lemma AtLeastOne(a: nat, n: nat)
    requires n > 0
    ensures a * n >= a
  {
  }

  // ── One domain ────────────────────────────────────────────────────────────

  lemma MetadataRule(d: Domain)
    ensures MetadataOk(d.metadata) <==>
            && (forall m | m in ContentOf(d).metadata :: MetaOk(m))
            && DistinctNames(ContentOf(d).metadata, ContentOf(d).records)
  {
    hide MetaOk, DistinctNames;
    assert forall m :: m in d.metadata <==> m in Elements(d.metadata);
  }

  // domain: rejects, or returns the exact figures of the distinct objects and records.
  method DomainEstimate(d: Domain, p: Option<Profile>) returns (r: Option<Row>)
    ensures r == if Estimable(ContentOf(d), p) then Some(RowOf(ContentOf(d), p)) else None
  {
    hide Sum, ListCost, MetadataOk, ObjectsOk, MetaOk, DistinctNames, Rewrites, Unknowns, Elements;
    ghost var c := ContentOf(d);
    MetadataRule(d);
    if d.directories > U64_MAX {
      return None;
    }
    var objects, sizes := ScanObjects(d.objects, p);
    if objects.None? {
      return None;
    }
    var (rewrites, payload, unknown) := objects.value;
    var metadata, all := ScanMetadata(d.metadata, p, sizes);
    if metadata.None? {
      return None;
    }
    var (metaBytes, metaFiles) := metadata.value;
    var logical, files := Add(payload, metaBytes), Add(rewrites, metaFiles);
    if logical.None? || files.None? {
      return None;
    }
    var bytes: Option<nat>, inodes: Option<nat> := None, None;
    if p.Some? {
      var physical := PhysicalCost(all, p.value);
      Product(d.directories, p.value.directoryBytes);
      Product(files.value, p.value.inodesPerFile);
      Product(d.directories, p.value.inodesPerDirectory);
      if physical.None? {
        return None;
      }
      bytes := Total(physical.value, d.directories, p.value.directoryBytes);
      inodes := Totals(files.value, p.value.inodesPerFile, d.directories, p.value.inodesPerDirectory);
      if bytes.None? || inodes.None? {
        return None;
      }
    }
    NoneUnknown(Elements(d.objects));
    r := Some(Row(d.id, d.pool, d.inventoryComplete && unknown == 0 && p.Some?, unknown, rewrites, metaFiles,
                  d.directories, payload, metaBytes, logical.value, bytes, inodes));
  }

  // a + b * c and a * b + c * d in checked arithmetic.
  function Total(a: nat, b: nat, c: nat): (r: Option<nat>)
    ensures r == if a + b * c <= U64_MAX then Some(a + b * c) else None
  {
    Product(b, c);
    var product := Mul(b, c);
    if product.None? then None else Add(a, product.value)
  }

  function Totals(a: nat, b: nat, c: nat, d: nat): (r: Option<nat>)
    ensures r == if a * b + c * d <= U64_MAX then Some(a * b + c * d) else None
  {
    Product(a, b);
    Product(c, d);
    var first, second := Mul(a, b), Mul(c, d);
    if first.None? || second.None? then None else Add(first.value, second.value)
  }

  lemma NoneUnknown(objects: set<Object>)
    ensures Unknowns(objects) == {} <==> |Unknowns(objects)| == 0
  {
  }
}
