/**
 What the estimator's answers mean: no dependence on order or repetition, shortfalls that
 only grow as the inventory does, and what a clean verdict implies.
 */
module EstimateLaws {
  import opened Options
  import opened Sums
  import opened Estimator
  import opened Estimate

  // ── Order and repetition ──────────────────────────────────────────────────

  lemma ReportUnique(r: Report, r': Report, pools: set<Pool>, contents: set<Content>)
    requires IsReport(r, pools, contents) && IsReport(r', pools, contents)
    ensures r == r'
  {
    hide PoolRowOf, ExitCode;
    forall name | name in r.rows ensures r.rows[name] == r'.rows[name] {
      var p :| p in pools && p.id == name;
    }
  }

  // The same domain with its objects and its records listed in another order.
  predicate Relisted(d: Domain, e: Domain) {
    && e == d.(objects := e.objects, metadata := e.metadata)
    && multiset(e.objects) == multiset(d.objects) && multiset(e.metadata) == multiset(d.metadata)
  }

  // The same inventory with its pools, its domains and the lists inside them in another
  // order: `moved` holds a's domains in b's order.
  ghost predicate ReorderedBy(a: Inventory, b: Inventory, moved: seq<Domain>) {
    && multiset(b.pools) == multiset(a.pools) && multiset(moved) == multiset(a.domains)
    && |moved| == |b.domains| && forall i | 0 <= i < |moved| :: Relisted(moved[i], b.domains[i])
  }

  ghost predicate Reordered(a: Inventory, b: Inventory) {
    exists moved :: ReorderedBy(a, b, moved)
  }

  lemma SameElements<T>(s: seq<T>, t: seq<T>)
    requires multiset(s) == multiset(t)
    ensures Elements(s) == Elements(t) && |s| == |t|
  {
    assert forall x :: x in s <==> x in multiset(s);
    assert forall x :: x in t <==> x in multiset(t);
    assert |s| == |multiset(s)| && |t| == |multiset(t)|;
  }

  lemma {:induction false} ItemsWithout(domains: seq<Domain>, k: nat)
    requires k < |domains|
    ensures Items(domains) == Items(domains[..k] + domains[k + 1..]) + |domains[k].objects| + |domains[k].metadata|
    decreases |domains|
  {
    var n, rest := |domains| - 1, domains[..k] + domains[k + 1..];
    if k == n {
      assert rest == domains[..n];
    } else {
      ItemsWithout(domains[..n], k);
      assert rest[..n - 1] == domains[..n][..k] + domains[..n][k + 1..];
      assert rest[n - 1] == domains[n];
    }
  }

  // The same domain taken out of both lists.
  lemma OneLess(a: seq<Domain>, b: seq<Domain>) returns (d: Domain, a': seq<Domain>, b': seq<Domain>)
    requires multiset(a) == multiset(b) && a != []
    ensures multiset(a') == multiset(b') && |a'| == |a| - 1
    ensures Items(a) == Items(a') + |d.objects| + |d.metadata| && Items(b) == Items(b') + |d.objects| + |d.metadata|
  {
    hide *;
    d := a[0];
    assert d in multiset(b);
    var k :| 0 <= k < |b| && b[k] == d;
    a', b' := a[..0] + a[1..], b[..k] + b[k + 1..];
    Without(a, 0);
    Without(b, k);
    ItemsWithout(a, 0);
    ItemsWithout(b, k);
  }

  // The item count does not depend on the order of the domains.
  lemma {:induction false} ItemsMoved(a: seq<Domain>, b: seq<Domain>)
    requires multiset(a) == multiset(b)
    ensures Items(a) == Items(b)
    decreases |a|
  {
    if a == [] {
      SameElements(a, b);
    } else {
      hide *;
      var _, a', b' := OneLess(a, b);
      ItemsMoved(a', b');
    }
  }

  lemma Without<T>(s: seq<T>, k: nat)
    requires k < |s|
    ensures multiset(s[..k] + s[k + 1..]) == multiset(s) - multiset{s[k]} && |s[..k] + s[k + 1..]| == |s| - 1
  {
    assert s == s[..k] + [s[k]] + s[k + 1..];
  }

  lemma RelistedContent(d: Domain, e: Domain)
    requires Relisted(d, e)
    ensures ContentOf(e) == ContentOf(d) && |e.objects| == |d.objects| && |e.metadata| == |d.metadata|
  {
    SameElements(d.objects, e.objects);
    SameElements(d.metadata, e.metadata);
  }

  lemma {:induction false} RelistedItems(moved: seq<Domain>, domains: seq<Domain>)
    requires |moved| == |domains| && forall i | 0 <= i < |moved| :: Relisted(moved[i], domains[i])
    ensures Items(moved) == Items(domains)
  {
    hide Relisted;
    if moved != [] {
      var n := |moved| - 1;
      RelistedItems(moved[..n], domains[..n]);
      RelistedContent(moved[n], domains[n]);
    }
  }

  lemma ContentsAt(domains: seq<Domain>, c: Content)
    ensures c in Contents(domains) <==> exists i :: 0 <= i < |domains| && ContentOf(domains[i]) == c
  {
    hide ContentOf;
    if c in Contents(domains) {
      var d :| d in domains && ContentOf(d) == c;
      var i :| 0 <= i < |domains| && domains[i] == d;
    }
  }

  lemma RelistedContents(moved: seq<Domain>, domains: seq<Domain>)
    requires |moved| == |domains| && forall i | 0 <= i < |moved| :: Relisted(moved[i], domains[i])
    ensures Contents(moved) == Contents(domains)
  {
    hide Relisted, Contents, ContentOf;
    forall i | 0 <= i < |moved| ensures ContentOf(moved[i]) == ContentOf(domains[i]) {
      RelistedContent(moved[i], domains[i]);
    }
    forall c ensures c in Contents(moved) <==> c in Contents(domains) {
      ContentsAt(moved, c);
      ContentsAt(domains, c);
    }
  }

  lemma MovedContents(a: seq<Domain>, b: seq<Domain>)
    requires multiset(a) == multiset(b)
    ensures Contents(a) == Contents(b) && |a| == |b|
  {
    hide ContentOf;
    SameElements(a, b);
    assert forall d :: d in a <==> d in Elements(a);
    assert forall d :: d in b <==> d in Elements(b);
  }

  // An inventory determines its answer.
  lemma AnswerUnique(r: Option<Report>, r': Option<Report>, inv: Inventory)
    requires Answers(r, inv) && Answers(r', inv)
    ensures r == r'
  {
    hide IsReport, Accepted;
    if r.Some? {
      ReportUnique(r.value, r'.value, Elements(inv.pools), Contents(inv.domains));
    }
  }

  // Reordering pools, domains, objects or records changes neither the verdict nor a figure.
  lemma OrderDoesNotMatter(a: Inventory, b: Inventory, r: Option<Report>, r': Option<Report>)
    requires Reordered(a, b)
    ensures Accepted(a) <==> Accepted(b)
    ensures Answers(r, a) && Answers(r', b) ==> r == r'
  {
    hide Relisted, IsReport, Acceptable, Items, Contents;
    var moved :| ReorderedBy(a, b, moved);
    SameElements(a.pools, b.pools);
    MovedContents(a.domains, moved);
    RelistedContents(moved, b.domains);
    ItemsMoved(a.domains, moved);
    RelistedItems(moved, b.domains);
    if Answers(r, a) && Answers(r', b) {
      AnswerUnique(r, r', a);
    }
  }

  // Domain k of the inventory listing one of its objects once more.
  function Repeating(inv: Inventory, k: nat, o: Object): Inventory
    requires k < |inv.domains|
  {
    inv.(domains := inv.domains[k := inv.domains[k].(objects := inv.domains[k].objects + [o])])
  }

  lemma {:induction false} ItemsSplit(domains: seq<Domain>, k: nat, o: Object)
    requires k < |domains|
    ensures Items(domains[k := domains[k].(objects := domains[k].objects + [o])]) == Items(domains) + 1
    decreases |domains|
  {
    var d := domains[k].(objects := domains[k].objects + [o]);
    var n := |domains| - 1;
    if k == n {
      assert domains[k := d][..n] == domains[..n];
    } else {
      assert domains[k := d][..n] == domains[..n][k := d];
      ItemsSplit(domains[..n], k, o);
    }
  }

  // A repetition changes nothing exactly while the global item budget still holds; past it
  // the inventory is rejected.
  lemma RepetitionOnlyCostsBudget(inv: Inventory, k: nat, o: Object, r: Option<Report>, r': Option<Report>)
    requires k < |inv.domains| && o in inv.domains[k].objects
    requires Answers(r, inv) && Answers(r', Repeating(inv, k, o))
    ensures Accepted(Repeating(inv, k, o)) <==> Accepted(inv) && Items(inv.domains) < MAX_ITEMS
    ensures r' == if Items(inv.domains) < MAX_ITEMS then r else None
  {
    var more := Repeating(inv, k, o);
    ItemsSplit(inv.domains, k, o);
    RepeatedContents(inv, k, o);
    hide IsReport, Acceptable, Items, Contents;
    if r'.Some? {
      ReportUnique(r.value, r'.value, Elements(inv.pools), Contents(inv.domains));
    }
  }

  // One pool nobody measured and one domain that lists the same object a hundred thousand
  // times: accepted, and rejected with that object listed once more.
  lemma BudgetCanBeUsedUp()
    ensures var o := Object("d", 1, Confirmed);
            var inv := FullInventory(o);
            Accepted(inv) && Items(inv.domains) == MAX_ITEMS && !Accepted(Repeating(inv, 0, o))
  {
    var o := Object("d", 1, Confirmed);
    var inv := FullInventory(o);
    var d := inv.domains[0];
    assert inv.domains[..0] == [];
    assert Items(inv.domains) == Items([]) + |d.objects| + |d.metadata|;
    FullIsAcceptable(o);
    ItemsSplit(inv.domains, 0, o);
  }

  function FullInventory(o: Object): Inventory {
    Inventory([Pool("p", None, Capacity(Missing, Missing, Missing))],
              [Domain("d", "p", false, seq(MAX_ITEMS, _ => o), [], 0)])
  }

  lemma FullContent(o: Object)
    ensures var c := Content("d", "p", false, {o}, {}, 0, 0);
            && Contents(FullInventory(o).domains) == {c}
            && (o.state == Confirmed && o.length <= U64_MAX ==> Estimable(c, None))
            && (o.state == Confirmed ==> Payload(c) + MetadataBytes(c) == 0)
  {
    var d := FullInventory(o).domains[0];
    assert d.objects[0] == o && Elements(d.objects) == {o};
    assert Elements(d.metadata) == {};
    assert ContentOf(d) == Content("d", "p", false, {o}, {}, 0, 0);
    if o.state == Confirmed {
      assert Rewrites({o}) == {};
    }
  }

  lemma FullIsAcceptable(o: Object)
    requires o.state == Confirmed && o.length <= U64_MAX
    ensures var inv := FullInventory(o);
            Acceptable(Elements(inv.pools), |inv.pools|, Contents(inv.domains), |inv.domains|)
  {
    var inv := FullInventory(o);
    var c, p := Content("d", "p", false, {o}, {}, 0, 0), inv.pools[0];
    FullContent(o);
    assert Elements(inv.pools) == {p} && PoolIds({p}) == {"p"} && DomainIds({c}) == {"d"} && UsedPools({c}) == {"p"};
    assert Members({c}, "p") == {c};
    hide Estimable, Payload, MetadataBytes;
    OneTerm(c, LogicalOf());
    OneTerm(c, BytesOf(None));
    OneTerm(c, InodesOf(None));
  }

  lemma OneTerm(c: Content, f: Content -> nat)
    ensures Sum({c}, f) == f(c)
  {
    SumAdd({}, f, c);
    assert {} + {c} == {c};
  }

  lemma RepeatedContents(inv: Inventory, k: nat, o: Object)
    requires k < |inv.domains| && o in inv.domains[k].objects
    ensures Contents(Repeating(inv, k, o).domains) == Contents(inv.domains)
  {
    var before, after := inv.domains, Repeating(inv, k, o).domains;
    assert Elements(after[k].objects) == Elements(before[k].objects);
    assert forall i | 0 <= i < |before| :: ContentOf(after[i]) == ContentOf(before[i]);
    forall c | c in Contents(before) ensures c in Contents(after) {
      var d :| d in before && ContentOf(d) == c;
      var i :| 0 <= i < |before| && before[i] == d;
      assert after[i] in after && ContentOf(after[i]) == c;
    }
    forall c | c in Contents(after) ensures c in Contents(before) {
      var d :| d in after && ContentOf(d) == c;
      var i :| 0 <= i < |after| && after[i] == d;
      assert before[i] in before && ContentOf(before[i]) == c;
    }
  }

  // ── Growing inventories ───────────────────────────────────────────────────

  // b lists all a lists that costs anything, and perhaps more: unknown objects may have
  // been resolved either way, records and directories may have been added.
  predicate Extends(a: Content, b: Content) {
    && a.id == b.id && a.pool == b.pool && Rewrites(a.objects) <= Rewrites(b.objects)
    && a.metadata <= b.metadata && a.directories <= b.directories
  }

  lemma MulGrows(a: nat, b: nat, f: nat)
    requires a <= b
    ensures a * f <= b * f
  {
  }

  lemma {:induction false} CardGrows<T>(a: set<T>, b: set<T>)
    requires a <= b
    ensures |a| <= |b|
  {
    if a != {} {
      var x :| x in a;
      CardGrows(a - {x}, b - {x});
    }
  }

  lemma CostsGrow(a: Content, b: Content, p: Option<Profile>)
    requires Extends(a, b)
    ensures BytesOf(p)(a) <= BytesOf(p)(b) && InodesOf(p)(a) <= InodesOf(p)(b)
  {
    hide Sum, Rewrites;
    if p.Some? {
      SumSubset(Rewrites(a.objects), Rewrites(b.objects), ObjectCost(p.value));
      SumSubset(a.metadata, b.metadata, MetaCost(p.value));
      MulGrows(a.directories, b.directories, p.value.directoryBytes);
      SumSubset(a.metadata, b.metadata, MetaFiles());
      CardGrows(Rewrites(a.objects), Rewrites(b.objects));
      MulGrows(Files(a), Files(b), p.value.inodesPerFile);
      MulGrows(a.directories, b.directories, p.value.inodesPerDirectory);
    }
  }

  ghost predicate ExtendsAll(a: set<Content>, b: set<Content>) {
    forall c | c in a :: exists d :: d in b && Extends(c, d)
  }

  ghost function Into(b: set<Content>, c: Content): Content {
    if exists d :: d in b && Extends(c, d) then var d :| d in b && Extends(c, d); d else c
  }

  predicate DistinctContents(contents: set<Content>) {
    forall c, d | c in contents && d in contents && c.id == d.id :: c == d
  }

  lemma AcceptedIsDistinct(inv: Inventory)
    requires Accepted(inv)
    ensures DistinctContents(Contents(inv.domains))
  {
    assert DistinctDomains(inv.domains) by {
      hide PoolOk, PoolIds, UsedPools, DomainsFit, PoolTotalsFit, Items, Contents;
      EnoughIds(inv.domains);
    }
    forall c, d | c in Contents(inv.domains) && d in Contents(inv.domains) && c.id == d.id ensures c == d {
      var x :| x in inv.domains && ContentOf(x) == c;
      var y :| y in inv.domains && ContentOf(y) == d;
      var i :| 0 <= i < |inv.domains| && inv.domains[i] == x;
      var j :| 0 <= j < |inv.domains| && inv.domains[j] == y;
    }
  }

  lemma NeedsGrow(p: Pool, a: set<Content>, b: set<Content>)
    requires DistinctContents(a) && ExtendsAll(a, b)
    ensures NeedBytes(p, a) <= NeedBytes(p, b) && NeedInodes(p, a) <= NeedInodes(p, b)
  {
    hide Sum, Extends;
    var profile := ProfileOf(p);
    var s, t, into := Members(a, p.id), Members(b, p.id), c => Into(b, c);
    forall c | c in s ensures into(c) in t && into(c).id == c.id && Extends(c, into(c)) {
      assert exists d :: d in b && Extends(c, d);
      SameIdAndPool(c, into(c));
    }
    forall c | c in s
      ensures BytesOf(profile)(c) <= BytesOf(profile)(into(c)) && InodesOf(profile)(c) <= InodesOf(profile)(into(c))
    {
      CostsGrow(c, into(c), profile);
    }
    SumInto(s, t, into, BytesOf(profile));
    SumInto(s, t, into, InodesOf(profile));
  }

  lemma SameIdAndPool(a: Content, b: Content)
    requires Extends(a, b)
    ensures a.id == b.id && a.pool == b.pool
  {
  }

  // A shortfall reported on a partial inventory is still there, and no smaller, in every
  // accepted extension of it.
  lemma ShortfallPersists(a: Inventory, b: Inventory, r: Report, r': Report, p: Pool)
    requires Accepted(a) && Accepted(b) && p in a.pools && p in b.pools
    requires IsReport(r, Elements(a.pools), Contents(a.domains)) && IsReport(r', Elements(b.pools), Contents(b.domains))
    requires ExtendsAll(Contents(a.domains), Contents(b.domains))
    ensures p.id in r.rows && p.id in r'.rows
    ensures Worse(r.rows[p.id].free, r'.rows[p.id].free) && Worse(r.rows[p.id].quota, r'.rows[p.id].quota)
    ensures Worse(r.rows[p.id].inode, r'.rows[p.id].inode)
  {
    hide Accepted, ExitCode, Contents, ExtendsAll, NeedBytes, NeedInodes, Logical, Complete;
    AcceptedIsDistinct(a);
    NeedsGrow(p, Contents(a.domains), Contents(b.domains));
    assert p in Elements(a.pools) && p in Elements(b.pools);
  }

  predicate Worse(before: Comparison, after: Comparison) {
    before.status == BelowEstimate ==> after.status == BelowEstimate && after.shortfall >= before.shortfall > 0
  }

  // ── A clean verdict ───────────────────────────────────────────────────────

  // Enough of this resource, or a declaration that it does not apply.
  predicate Covered(a: Axis, need: nat) {
    a.NotApplicable? || (a.Available? && need <= a.n)
  }

  ghost predicate FullyKnown(c: Content) {
    c.inventoryComplete && Unknowns(c.objects) == {}
  }

  // Exit 0 exactly when every pool has a measured profile, every domain in it is fully
  // known, and the exact need is covered on every axis.
  lemma CleanExactly(inv: Inventory, r: Report)
    requires Accepted(inv) && IsReport(r, Elements(inv.pools), Contents(inv.domains))
    ensures r.exitCode == 0 <==>
            forall p | p in inv.pools :: CleanPool(p, Contents(inv.domains))
  {
    hide PoolRowOf, CleanPool, Short, Open, Accepted, Contents, Members;
    var contents := Contents(inv.domains);
    forall p | p in inv.pools
      ensures CleanPool(p, contents) <==> !Short(PoolRowOf(p, contents)) && !Open(PoolRowOf(p, contents))
    {
      PoolIsUsed(inv, p);
      CleanRow(p, contents);
    }
    var rows := set p | p in Elements(inv.pools) :: PoolRowOf(p, contents);
    if forall p | p in inv.pools :: CleanPool(p, contents) {
      forall row | row in rows ensures !Short(row) && !Open(row) {
        var p :| p in Elements(inv.pools) && PoolRowOf(p, contents) == row;
      }
    }
    if r.exitCode == 0 {
      forall p | p in inv.pools ensures CleanPool(p, contents) {
        assert p in Elements(inv.pools);
        assert PoolRowOf(p, contents) in rows;
      }
    }
  }

  ghost predicate CleanPool(p: Pool, contents: set<Content>) {
    && ProfileOf(p).Some? && (forall c | c in Members(contents, p.id) :: FullyKnown(c))
    && Covered(p.capacity.freeBytes, NeedBytes(p, contents)) && Covered(p.capacity.quotaBytes, NeedBytes(p, contents))
    && Covered(p.capacity.freeInodes, NeedInodes(p, contents))
  }

  lemma PoolIsUsed(inv: Inventory, p: Pool)
    requires Accepted(inv) && p in inv.pools
    ensures Members(Contents(inv.domains), p.id) != {}
  {
    hide PoolOk, DomainsFit, PoolTotalsFit, Items, Contents;
    assert p in Elements(inv.pools);
    assert p.id in PoolIds(Elements(inv.pools));
    var c :| c in Contents(inv.domains) && c.pool == p.id;
    assert c in Members(Contents(inv.domains), p.id);
  }

  lemma CleanRow(p: Pool, contents: set<Content>)
    requires Members(contents, p.id) != {}
    ensures CleanPool(p, contents) <==> !Short(PoolRowOf(p, contents)) && !Open(PoolRowOf(p, contents))
  {
    hide NeedBytes, NeedInodes, Logical, Payload, MetadataBytes, Bytes, Inodes, Sum;
    var c :| c in Members(contents, p.id);
    assert RowOf(c, ProfileOf(p)).complete ==> ProfileOf(p).Some?;
  }

  // A pool whose quota was not inspected keeps the verdict from ever being clean.
  lemma MissingQuotaIsNeverClean(inv: Inventory, r: Report, p: Pool)
    requires Accepted(inv) && IsReport(r, Elements(inv.pools), Contents(inv.domains))
    requires p in inv.pools && p.capacity.quotaBytes.Missing?
    ensures r.exitCode != 0
  {
    hide IsReport, Accepted, Contents, NeedBytes, NeedInodes, Members;
    CleanExactly(inv, r);
    assert !CleanPool(p, Contents(inv.domains));
  }
}
