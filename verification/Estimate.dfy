/**
 The estimate over a whole inventory: per-pool totals, their comparison with the observed
 capacity, and the verdict.
 */
module Estimate {
  import opened Options
  import opened Sums
  import opened Estimator

  // ── Pools and capacities ──────────────────────────────────────────────────

  datatype Axis = Missing | NotApplicable | Available(n: nat)
  datatype Capacity = Capacity(freeBytes: Axis, quotaBytes: Axis, freeInodes: Axis)
  datatype Pool = Pool(id: string, profile: Option<Measured>, capacity: Capacity)
  datatype Inventory = Inventory(pools: seq<Pool>, domains: seq<Domain>)

  predicate IsPowerOfTwo(n: nat) {
    n == 1 || (n > 1 && n % 2 == 0 && IsPowerOfTwo(n / 2))
  }

  predicate ProfileOk(p: Measured) {
    && IsPowerOfTwo(p.unit) && p.unit <= U64_MAX && p.fileOverhead <= U64_MAX && p.directoryBytes <= U64_MAX
    && p.inodesPerFile <= U64_MAX && p.inodesPerDirectory <= U64_MAX
  }

  predicate AxisOk(a: Axis, optional: bool) {
    match a
    case Missing => true
    case NotApplicable => optional
    case Available(n) => n <= U64_MAX
  }

  predicate PoolOk(p: Pool) {
    && (p.profile.Some? ==> ProfileOk(p.profile.value))
    && AxisOk(p.capacity.freeBytes, false) && AxisOk(p.capacity.quotaBytes, true) && AxisOk(p.capacity.freeInodes, true)
  }

  function ProfileOf(p: Pool): Option<Profile> {
    if p.profile.Some? && p.profile.value.unit > 0 then Some(p.profile.value) else None
  }

  // ── What the inventory says, in no order ──────────────────────────────────

  function Contents(domains: seq<Domain>): set<Content> { set d | d in domains :: ContentOf(d) }

  function PoolIds(pools: set<Pool>): set<string> { set p | p in pools :: p.id }
  function DomainIds(contents: set<Content>): set<string> { set c | c in contents :: c.id }
  function UsedPools(contents: set<Content>): set<string> { set c | c in contents :: c.pool }

  function Members(contents: set<Content>, pool: string): set<Content> { set c | c in contents && c.pool == pool }

  function Items(domains: seq<Domain>): nat {
    if domains == [] then 0
    else Items(domains[..|domains| - 1]) + |domains[|domains| - 1].objects| + |domains[|domains| - 1].metadata|
  }

  ghost function LogicalOf(): Content -> nat { (c: Content) => Payload(c) + MetadataBytes(c) }
  ghost function BytesOf(p: Option<Profile>): Content -> nat {
    (c: Content) => if p.Some? then Bytes(c, p.value) else 0
  }
  ghost function InodesOf(p: Option<Profile>): Content -> nat {
    (c: Content) => if p.Some? then Inodes(c, p.value) else 0
  }

  ghost function NeedBytes(p: Pool, contents: set<Content>): nat { Sum(Members(contents, p.id), BytesOf(ProfileOf(p))) }
  ghost function NeedInodes(p: Pool, contents: set<Content>): nat {
    Sum(Members(contents, p.id), InodesOf(ProfileOf(p)))
  }
  ghost function Logical(p: Pool, contents: set<Content>): nat { Sum(Members(contents, p.id), LogicalOf()) }

  ghost predicate Complete(p: Pool, contents: set<Content>) {
    forall c | c in Members(contents, p.id) :: RowOf(c, ProfileOf(p)).complete
  }

  // ── When there is an estimate ─────────────────────────────────────────────

  ghost predicate PoolTotalsFit(p: Pool, contents: set<Content>) {
    Logical(p, contents) <= U64_MAX && NeedBytes(p, contents) <= U64_MAX && NeedInodes(p, contents) <= U64_MAX
  }

  ghost predicate DomainsFit(p: Pool, contents: set<Content>) {
    forall c | c in Members(contents, p.id) :: Estimable(c, ProfileOf(p))
  }

  // Distinct identities, every pool used and known, everything in range.
  ghost predicate Acceptable(pools: set<Pool>, poolCount: nat, contents: set<Content>, domainCount: nat) {
    && 0 < poolCount <= MAX_POOLS && |PoolIds(pools)| == poolCount && (forall p | p in pools :: PoolOk(p))
    && 0 < domainCount <= MAX_DOMAINS && |DomainIds(contents)| == domainCount
    && UsedPools(contents) == PoolIds(pools)
    && (forall p | p in pools :: DomainsFit(p, contents) && PoolTotalsFit(p, contents))
  }

  ghost predicate Accepted(inv: Inventory) {
    Items(inv.domains) <= MAX_ITEMS
    && Acceptable(Elements(inv.pools), |inv.pools|, Contents(inv.domains), |inv.domains|)
  }

  // ── The report ────────────────────────────────────────────────────────────

  datatype Status = DeclaredNotApplicable | Unknown | BelowEstimate | AtLeastEstimate
  datatype Comparison = Comparison(status: Status, shortfall: nat)
  datatype PoolRow = PoolRow(
    complete: bool, logical: nat, knownBytes: Option<nat>, knownInodes: Option<nat>,
    additionalBytes: Option<nat>, additionalInodes: Option<nat>,
    free: Comparison, quota: Comparison, inode: Comparison)

  function Compare(available: Axis, need: nat, measured: bool, complete: bool): Comparison {
    if available.NotApplicable? then Comparison(DeclaredNotApplicable, 0)
    else if available.Missing? || !measured then Comparison(Unknown, 0)
    else if available.n < need then Comparison(BelowEstimate, need - available.n)
    else if !complete then Comparison(Unknown, 0)
    else Comparison(AtLeastEstimate, 0)
  }

  function Given(known: bool, n: nat): Option<nat> { if known then Some(n) else None }

  function PoolRowFrom(p: Pool, complete: bool, logical: nat, bytes: nat, inodes: nat): PoolRow {
    var measured := ProfileOf(p).Some?;
    PoolRow(complete, logical, Given(measured, bytes), Given(measured, inodes),
            Given(complete, bytes), Given(complete, inodes),
            Compare(p.capacity.freeBytes, bytes, measured, complete),
            Compare(p.capacity.quotaBytes, bytes, measured, complete),
            Compare(p.capacity.freeInodes, inodes, measured, complete))
  }

  ghost function PoolRowOf(p: Pool, contents: set<Content>): PoolRow {
    PoolRowFrom(p, Complete(p, contents), Logical(p, contents), NeedBytes(p, contents), NeedInodes(p, contents))
  }

  predicate Short(r: PoolRow) {
    r.free.status == BelowEstimate || r.quota.status == BelowEstimate || r.inode.status == BelowEstimate
  }

  predicate Open(r: PoolRow) {
    !r.complete || r.free.status == Unknown || r.quota.status == Unknown || r.inode.status == Unknown
  }

  // The verdict over all pool rows: a shortfall anywhere, else anything open, else clean.
  function ExitCode(rows: set<PoolRow>): nat {
    if exists r :: r in rows && Short(r) then 4
    else if exists r :: r in rows && Open(r) then 3
    else 0
  }

  datatype Report = Report(exitCode: nat, rows: map<string, PoolRow>, domains: set<Row>)

  ghost function DomainRows(pools: set<Pool>, contents: set<Content>): set<Row> {
    set c, p | c in contents && p in pools && p.id == c.pool :: RowOf(c, ProfileOf(p))
  }

  ghost predicate IsReport(r: Report, pools: set<Pool>, contents: set<Content>) {
    && r.rows.Keys == PoolIds(pools)
    && (forall p | p in pools :: p.id in r.rows && r.rows[p.id] == PoolRowOf(p, contents))
    && r.exitCode == ExitCode(set p | p in pools :: PoolRowOf(p, contents))
    && r.domains == DomainRows(pools, contents)
  }

  // The answer to an inventory: a rejection, or the report on what it lists.
  ghost predicate Answers(r: Option<Report>, inv: Inventory) {
    && (r.Some? <==> Accepted(inv))
    && (r.Some? ==> IsReport(r.value, Elements(inv.pools), Contents(inv.domains)))
  }

  // ── Distinct identities ───────────────────────────────────────────────────

  lemma {:induction false} IdsBound(ids: seq<string>, i: nat)
    requires i <= |ids|
    ensures |Elements(ids)| <= |Elements(ids[..i])| + |ids| - i
    decreases |ids|
  {
    if i == |ids| {
      assert ids[..i] == ids;
    } else {
      var n := |ids| - 1;
      IdsBound(ids[..n], i);
      ElementsNext(ids, n);
      assert ids[..n + 1] == ids && ids[..n][..i] == ids[..i];
    }
  }

  lemma RepeatShrinks(ids: seq<string>, i: nat)
    requires i < |ids| && ids[i] in ids[..i]
    ensures |Elements(ids)| < |ids|
  {
    ElementsNext(ids, i);
    assert Elements(ids[..i]) + {ids[i]} == Elements(ids[..i]);
    IdsBound(ids[..i], 0);
    IdsBound(ids, i + 1);
    assert ids[..i][..0] == [];
    assert Elements<string>([]) == {};
  }

  function PoolNames(pools: seq<Pool>): (ids: seq<string>)
    ensures |ids| == |pools| && forall i | 0 <= i < |pools| :: ids[i] == pools[i].id
  {
    seq(|pools|, i requires 0 <= i < |pools| => pools[i].id)
  }

  lemma PoolNamesAreIds(pools: seq<Pool>)
    ensures Elements(PoolNames(pools)) == PoolIds(Elements(pools))
  {
    forall id | id in PoolIds(Elements(pools)) ensures id in Elements(PoolNames(pools)) {
      var p :| p in Elements(pools) && p.id == id;
      var i :| 0 <= i < |pools| && pools[i] == p;
      assert PoolNames(pools)[i] == id;
    }
    forall id | id in Elements(PoolNames(pools)) ensures id in PoolIds(Elements(pools)) {
      var i :| 0 <= i < |pools| && PoolNames(pools)[i] == id;
      assert pools[i] in Elements(pools);
    }
  }

  // ── Reading the pools ─────────────────────────────────────────────────────

  ghost predicate Table(table: map<string, Pool>, pools: set<Pool>) {
    table.Keys == PoolIds(pools) && forall p | p in pools :: p.id in table && table[p.id] == p
  }

  method ReadPools(pools: seq<Pool>) returns (r: Option<map<string, Pool>>)
    ensures r.Some? <==> |PoolIds(Elements(pools))| == |pools| && forall p | p in Elements(pools) :: PoolOk(p)
    ensures r.Some? ==> Table(r.value, Elements(pools))
  {
    hide PoolOk, Table, PoolIds, Elements;
    var table: map<string, Pool> := map[];
    NoPools(pools);
    for i := 0 to |pools|
      invariant Table(table, Elements(pools[..i])) && |table.Keys| == i
      invariant forall k | 0 <= k < i :: PoolOk(pools[k])
    {
      var p := pools[i];
      ElementsNext(pools, i);
      if p.id in table {
        RepeatedPool(pools, i, table);
        return None;
      }
      if !PoolOk(p) {
        BadPool(pools, i);
        return None;
      }
      TableGrows(table, Elements(pools[..i]), p);
      table := table[p.id := p];
    }
    assert pools[..|pools|] == pools;
    GoodPools(pools, table);
    r := Some(table);
  }

  lemma NoPools(pools: seq<Pool>)
    ensures Table(map[], Elements(pools[..0]))
  {
  }

  lemma TableGrows(table: map<string, Pool>, pools: set<Pool>, p: Pool)
    requires Table(table, pools) && p.id !in table
    ensures Table(table[p.id := p], pools + {p}) && |table[p.id := p].Keys| == |table.Keys| + 1
  {
    assert table[p.id := p].Keys == table.Keys + {p.id};
  }

  lemma RepeatedPool(pools: seq<Pool>, i: nat, table: map<string, Pool>)
    requires i < |pools| && Table(table, Elements(pools[..i])) && pools[i].id in table
    ensures |PoolIds(Elements(pools))| < |pools|
  {
    var q :| q in Elements(pools[..i]) && q.id == pools[i].id;
    var j :| 0 <= j < i && pools[j] == q;
    var ids := PoolNames(pools);
    assert ids[..i][j] == ids[i];
    RepeatShrinks(ids, i);
    PoolNamesAreIds(pools);
  }

  lemma BadPool(pools: seq<Pool>, i: nat)
    requires i < |pools| && !PoolOk(pools[i])
    ensures !(forall p | p in Elements(pools) :: PoolOk(p))
  {
    assert pools[i] in Elements(pools);
  }

  lemma GoodPools(pools: seq<Pool>, table: map<string, Pool>)
    requires Table(table, Elements(pools)) && |table.Keys| == |pools| && forall k | 0 <= k < |pools| :: PoolOk(pools[k])
    ensures |PoolIds(Elements(pools))| == |pools| && forall p | p in Elements(pools) :: PoolOk(p)
  {
    hide PoolOk;
  }

  // ── The item budget ───────────────────────────────────────────────────────

  lemma {:induction false} ItemsGrow(domains: seq<Domain>, i: nat)
    requires i <= |domains|
    ensures Items(domains[..i]) <= Items(domains)
    decreases |domains|
  {
    if i == |domains| {
      assert domains[..i] == domains;
    } else {
      var n := |domains| - 1;
      ItemsGrow(domains[..n], i);
      assert domains[..n][..i] == domains[..i];
    }
  }

  method WithinBudget(domains: seq<Domain>) returns (ok: bool)
    ensures ok <==> Items(domains) <= MAX_ITEMS
  {
    var count: nat := 0;
    for i := 0 to |domains|
      invariant count == Items(domains[..i]) <= MAX_ITEMS
    {
      assert domains[..i + 1][..i] == domains[..i];
      ItemsGrow(domains, i + 1);
      count := count + |domains[i].objects| + |domains[i].metadata|;
      if count > MAX_ITEMS {
        return false;
      }
    }
    assert domains[..|domains|] == domains;
    ok := true;
  }

  // ── Estimating each domain ────────────────────────────────────────────────

  ghost predicate Rows(rows: seq<Row>, domains: seq<Domain>, table: map<string, Pool>) {
    && |rows| == |domains|
    && forall i | 0 <= i < |domains| ::
         && domains[i].pool in table
         && Estimable(ContentOf(domains[i]), ProfileOf(table[domains[i].pool]))
         && rows[i] == RowOf(ContentOf(domains[i]), ProfileOf(table[domains[i].pool]))
  }

  method EstimateDomains(domains: seq<Domain>, table: map<string, Pool>, ghost pools: set<Pool>)
      returns (r: Option<seq<Row>>)
    requires Table(table, pools)
    ensures r.None? ==>
              || UsedPools(Contents(domains)) != PoolIds(pools)
              || exists p :: p in pools && !DomainsFit(p, Contents(domains))
    ensures r.Some? ==> Rows(r.value, domains, table)
  {
    hide Estimable, Table, UsedPools, PoolIds, Contents, DomainsFit, RowOf;
    var rows: seq<Row> := [];
    for i := 0 to |domains|
      invariant Rows(rows, domains[..i], table)
    {
      var d := domains[i];
      if d.pool !in table {
        UnknownPool(domains, i, table, pools);
        return None;
      }
      var row := DomainEstimate(d, ProfileOf(table[d.pool]));
      if row.None? {
        UnfitDomain(domains, i, table, pools);
        return None;
      }
      assert domains[..i + 1] == domains[..i] + [d];
      rows := rows + [row.value];
    }
    assert domains[..|domains|] == domains;
    r := Some(rows);
  }

  lemma UnknownPool(domains: seq<Domain>, i: nat, table: map<string, Pool>, pools: set<Pool>)
    requires i < |domains| && Table(table, pools) && domains[i].pool !in table
    ensures UsedPools(Contents(domains)) != PoolIds(pools)
  {
    assert ContentOf(domains[i]) in Contents(domains);
    assert domains[i].pool in UsedPools(Contents(domains));
  }

  lemma UnfitDomain(domains: seq<Domain>, i: nat, table: map<string, Pool>, pools: set<Pool>)
    requires i < |domains| && Table(table, pools) && domains[i].pool in table
    requires !Estimable(ContentOf(domains[i]), ProfileOf(table[domains[i].pool]))
    ensures exists p :: p in pools && !DomainsFit(p, Contents(domains))
  {
    hide Estimable;
    var p :| p in pools && p.id == domains[i].pool;
    assert ContentOf(domains[i]) in Members(Contents(domains), p.id);
    assert !DomainsFit(p, Contents(domains));
  }

  // ── Totals of one pool ────────────────────────────────────────────────────

  lemma ContentsNext(domains: seq<Domain>, i: nat)
    requires i < |domains|
    ensures Contents(domains[..i + 1]) == Contents(domains[..i]) + {ContentOf(domains[i])}
    ensures Contents(domains[..i]) <= Contents(domains)
  {
    hide ContentOf;
    assert domains[..i + 1] == domains[..i] + [domains[i]];
  }

  lemma MembersNext(contents: set<Content>, c: Content, pool: string)
    ensures Members(contents + {c}, pool) ==
            if c.pool == pool then Members(contents, pool) + {c} else Members(contents, pool)
  {
  }

  predicate DistinctDomains(domains: seq<Domain>) {
    forall i, j | 0 <= i < j < |domains| :: domains[i].id != domains[j].id
  }

  lemma NewContent(domains: seq<Domain>, i: nat)
    requires DistinctDomains(domains) && i < |domains|
    ensures ContentOf(domains[i]) !in Contents(domains[..i])
  {
  }

  lemma PartOfPool(domains: seq<Domain>, i: nat, pool: string, f: Content -> nat)
    requires i <= |domains|
    ensures Sum(Members(Contents(domains[..i]), pool), f) <= Sum(Members(Contents(domains), pool), f)
  {
    assert Members(Contents(domains[..i]), pool) <= Members(Contents(domains), pool) by {
      hide ContentOf;
      assert forall d | d in domains[..i] :: d in domains;
    }
    SumSubset(Members(Contents(domains[..i]), pool), Members(Contents(domains), pool), f);
  }

  // One domain more: either it is another pool's, or it adds its figure.
  lemma SumNext(domains: seq<Domain>, i: nat, pool: string, f: Content -> nat)
    requires DistinctDomains(domains) && i < |domains|
    ensures Sum(Members(Contents(domains[..i + 1]), pool), f) ==
            Sum(Members(Contents(domains[..i]), pool), f)
            + if domains[i].pool == pool then f(ContentOf(domains[i])) else 0
    ensures Sum(Members(Contents(domains[..i + 1]), pool), f) <= Sum(Members(Contents(domains), pool), f)
  {
    hide Sum, Contents;
    ContentsNext(domains, i);
    NewContent(domains, i);
    MembersNext(Contents(domains[..i]), ContentOf(domains[i]), pool);
    if domains[i].pool == pool {
      SumAdd(Members(Contents(domains[..i]), pool), f, ContentOf(domains[i]));
    }
    PartOfPool(domains, i + 1, pool, f);
  }

  method GroupPool(p: Pool, domains: seq<Domain>, rows: seq<Row>, ghost table: map<string, Pool>)
      returns (r: Option<PoolRow>)
    requires Rows(rows, domains, table) && DistinctDomains(domains) && p.id in table && table[p.id] == p
    ensures r == if PoolTotalsFit(p, Contents(domains)) then Some(PoolRowOf(p, Contents(domains))) else None
  {
    hide Sum, Members, Contents, DistinctDomains, Estimable, Payload, MetadataBytes, Bytes, Inodes, PoolRowFrom;
    var logical: nat, bytes: nat, inodes: nat, complete := 0, 0, 0, true;
    ghost var profile := ProfileOf(p);
    EmptyPool(p, domains);
    for i := 0 to |domains|
      invariant logical == Sum(Members(Contents(domains[..i]), p.id), LogicalOf()) <= U64_MAX
      invariant bytes == Sum(Members(Contents(domains[..i]), p.id), BytesOf(profile)) <= U64_MAX
      invariant inodes == Sum(Members(Contents(domains[..i]), p.id), InodesOf(profile)) <= U64_MAX
      invariant complete <==> forall k | 0 <= k < i && domains[k].pool == p.id :: rows[k].complete
    {
      SumNext(domains, i, p.id, LogicalOf());
      SumNext(domains, i, p.id, BytesOf(profile));
      SumNext(domains, i, p.id, InodesOf(profile));
      if rows[i].pool == p.id {
        var l := Add(logical, rows[i].logical);
        var b := Add(bytes, if rows[i].bytes.Some? then rows[i].bytes.value else 0);
        var n := Add(inodes, if rows[i].inodes.Some? then rows[i].inodes.value else 0);
        if l.None? || b.None? || n.None? {
          return None;
        }
        logical, bytes, inodes := l.value, b.value, n.value;
        complete := complete && rows[i].complete;
      }
    }
    assert domains[..|domains|] == domains;
    CompleteRows(p, domains, rows, table);
    r := Some(PoolRowFrom(p, complete, logical, bytes, inodes));
  }

  lemma EmptyPool(p: Pool, domains: seq<Domain>)
    ensures forall f: Content -> nat :: Sum(Members(Contents(domains[..0]), p.id), f) == 0
  {
    assert Members(Contents(domains[..0]), p.id) == {};
  }

  lemma CompleteRows(p: Pool, domains: seq<Domain>, rows: seq<Row>, table: map<string, Pool>)
    requires Rows(rows, domains, table) && p.id in table && table[p.id] == p
    ensures Complete(p, Contents(domains)) <==>
            forall k | 0 <= k < |domains| && domains[k].pool == p.id :: rows[k].complete
  {
    hide Estimable, RowOf;
    if Complete(p, Contents(domains)) {
      forall k | 0 <= k < |domains| && domains[k].pool == p.id ensures rows[k].complete {
        assert ContentOf(domains[k]) in Members(Contents(domains), p.id);
      }
    }
    if forall k | 0 <= k < |domains| && domains[k].pool == p.id :: rows[k].complete {
      forall c | c in Members(Contents(domains), p.id) ensures RowOf(c, ProfileOf(p)).complete {
        var d :| d in domains && ContentOf(d) == c;
        var k :| 0 <= k < |domains| && domains[k] == d;
      }
    }
  }

  // ── The whole estimate ────────────────────────────────────────────────────

  lemma RowSets(rows: seq<Row>, domains: seq<Domain>, table: map<string, Pool>)
    requires Rows(rows, domains, table)
    ensures (set row | row in rows :: row.id) == DomainIds(Contents(domains))
    ensures (set row | row in rows :: row.pool) == UsedPools(Contents(domains))
  {
    hide Estimable, Payload, MetadataBytes, Bytes, Inodes;
    forall c | c in Contents(domains) ensures exists row :: row in rows && row.id == c.id && row.pool == c.pool {
      var d :| d in domains && ContentOf(d) == c;
      var k :| 0 <= k < |domains| && domains[k] == d;
      assert rows[k] in rows;
    }
    forall row | row in rows ensures exists c :: c in Contents(domains) && row.id == c.id && row.pool == c.pool {
      var k :| 0 <= k < |rows| && rows[k] == row;
      assert ContentOf(domains[k]) in Contents(domains);
    }
  }

  function DomainNames(domains: seq<Domain>): (ids: seq<string>)
    ensures |ids| == |domains| && forall i | 0 <= i < |domains| :: ids[i] == domains[i].id
  {
    seq(|domains|, i requires 0 <= i < |domains| => domains[i].id)
  }

  lemma EnoughIds(domains: seq<Domain>)
    requires |DomainIds(Contents(domains))| == |domains|
    ensures DistinctDomains(domains)
  {
    var ids := DomainNames(domains);
    assert Elements(ids) == DomainIds(Contents(domains)) by {
      forall id | id in DomainIds(Contents(domains)) ensures id in Elements(ids) {
        var d :| d in domains && ContentOf(d).id == id;
        var k :| 0 <= k < |domains| && domains[k] == d;
        assert ids[k] == id;
      }
      forall id | id in Elements(ids) ensures id in DomainIds(Contents(domains)) {
        var k :| 0 <= k < |ids| && ids[k] == id;
        assert ContentOf(domains[k]) in Contents(domains);
      }
    }
    forall i, j | 0 <= i < j < |domains| ensures domains[i].id != domains[j].id {
      if ids[i] == ids[j] {
        assert ids[..j][i] == ids[j];
        RepeatShrinks(ids, j);
      }
    }
  }

  method GroupPools(pools: seq<Pool>, domains: seq<Domain>, rows: seq<Row>, table: map<string, Pool>)
      returns (r: Option<map<string, PoolRow>>)
    requires Rows(rows, domains, table) && DistinctDomains(domains) && Table(table, Elements(pools))
    ensures r.None? ==> exists p :: p in pools && !PoolTotalsFit(p, Contents(domains))
    ensures r.Some? ==>
              && (forall p | p in pools :: PoolTotalsFit(p, Contents(domains)))
              && r.value.Keys == PoolIds(Elements(pools))
              && (forall p | p in pools :: p.id in r.value && r.value[p.id] == PoolRowOf(p, Contents(domains)))
  {
    hide PoolTotalsFit, PoolRowOf, Rows, Contents, DistinctDomains;
    var grouped: map<string, PoolRow> := map[];
    for i := 0 to |pools|
      invariant forall p | p in pools[..i] :: PoolTotalsFit(p, Contents(domains))
      invariant grouped.Keys == PoolIds(Elements(pools[..i]))
      invariant forall p | p in pools[..i] :: p.id in grouped && grouped[p.id] == PoolRowOf(p, Contents(domains))
    {
      var p := pools[i];
      assert p in Elements(pools);
      var row := GroupPool(p, domains, rows, table);
      if row.None? {
        return None;
      }
      assert pools[..i + 1] == pools[..i] + [p];
      assert forall q | q in pools[..i] :: q in Elements(pools);
      grouped := grouped[p.id := row.value];
    }
    assert pools[..|pools|] == pools;
    r := Some(grouped);
  }

  // estimate: rejects exactly the unacceptable inventories, and reports the exact totals of
  // the others. The report depends on the lists only through the sets they list.
  method EstimateInventory(inv: Inventory) returns (r: Option<Report>)
    ensures Answers(r, inv)
  {
    hide PoolOk, PoolIds, DomainIds, UsedPools, Contents, DomainsFit, PoolTotalsFit, PoolRowOf, Rows, Table;
    hide DistinctDomains, Items, Short, Open, DomainRows;
    if |inv.pools| > MAX_POOLS {
      return None;
    }
    var table := ReadPools(inv.pools);
    if table.None? || |inv.domains| > MAX_DOMAINS || inv.domains == [] || inv.pools == [] {
      return None;
    }
    var ok := WithinBudget(inv.domains);
    if !ok {
      return None;
    }
    var rows := EstimateDomains(inv.domains, table.value, Elements(inv.pools));
    if rows.None? {
      return None;
    }
    RowSets(rows.value, inv.domains, table.value);
    if |set row | row in rows.value :: row.id| != |rows.value| {
      SameCount(rows.value, inv.domains, table.value);
      return None;
    }
    SameCount(rows.value, inv.domains, table.value);
    EnoughIds(inv.domains);
    TableKeys(table.value, Elements(inv.pools));
    if (set row | row in rows.value :: row.pool) != table.value.Keys {
      return None;
    }
    var grouped := GroupPools(inv.pools, inv.domains, rows.value, table.value);
    if grouped.None? {
      return None;
    }
    AllFit(rows.value, inv.domains, table.value, Elements(inv.pools));
    ghost var contents := Contents(inv.domains);
    assert forall p | p in Elements(inv.pools) :: PoolTotalsFit(p, contents);
    var statuses := set name | name in grouped.value :: grouped.value[name];
    StatusSet(grouped.value, Elements(inv.pools), contents);
    var domains := set row | row in rows.value;
    ListedRows(rows.value, inv.domains, table.value, Elements(inv.pools));
    r := Some(Report(ExitCode(statuses), grouped.value, domains));
  }

  lemma ListedRows(rows: seq<Row>, domains: seq<Domain>, table: map<string, Pool>, pools: set<Pool>)
    requires Rows(rows, domains, table) && Table(table, pools)
    ensures (set row | row in rows) == DomainRows(pools, Contents(domains))
  {
    hide Estimable, RowOf;
    var specified := DomainRows(pools, Contents(domains));
    forall row | row in rows ensures row in specified {
      var k :| 0 <= k < |rows| && rows[k] == row;
      assert ContentOf(domains[k]) in Contents(domains);
      var p :| p in pools && p.id == domains[k].pool;
    }
    forall row | row in specified ensures row in rows {
      var c, p :| c in Contents(domains) && p in pools && p.id == c.pool && RowOf(c, ProfileOf(p)) == row;
      var d :| d in domains && ContentOf(d) == c;
      var k :| 0 <= k < |domains| && domains[k] == d;
      assert rows[k] == row;
    }
  }

  lemma SameCount(rows: seq<Row>, domains: seq<Domain>, table: map<string, Pool>)
    requires Rows(rows, domains, table)
    ensures |rows| == |domains|
  {
  }

  lemma TableKeys(table: map<string, Pool>, pools: set<Pool>)
    requires Table(table, pools)
    ensures table.Keys == PoolIds(pools)
  {
  }

  lemma AllFit(rows: seq<Row>, domains: seq<Domain>, table: map<string, Pool>, pools: set<Pool>)
    requires Rows(rows, domains, table) && Table(table, pools)
    ensures forall p | p in pools :: DomainsFit(p, Contents(domains))
  {
    hide Estimable, RowOf;
    forall p, c | p in pools && c in Members(Contents(domains), p.id) ensures Estimable(c, ProfileOf(p)) {
      var d :| d in domains && ContentOf(d) == c;
      var k :| 0 <= k < |domains| && domains[k] == d;
    }
  }

  lemma StatusSet(grouped: map<string, PoolRow>, pools: set<Pool>, contents: set<Content>)
    requires grouped.Keys == PoolIds(pools)
    requires forall p | p in pools :: p.id in grouped && grouped[p.id] == PoolRowOf(p, contents)
    ensures (set name | name in grouped :: grouped[name]) == set p | p in pools :: PoolRowOf(p, contents)
  {
    hide PoolRowOf;
    var listed, specified := set name | name in grouped :: grouped[name], set p | p in pools :: PoolRowOf(p, contents);
    forall row | row in specified ensures row in listed {
      var p :| p in pools && PoolRowOf(p, contents) == row;
      assert p.id in grouped;
    }
    forall row | row in listed ensures row in specified {
      var name :| name in grouped && grouped[name] == row;
      var p :| p in pools && p.id == name;
    }
  }
}
