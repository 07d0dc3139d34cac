/** What scans, deletions and removals do to the list and the table, over whole runs. */
module ContentLaws {
  import opened ContentTree
  import opened ContentStore

  /** What a scan path has to offer. */
  function Offer(ok: string -> bool, dir: string, l: Listing, levels: int): seq<Found> {
    Yields(ok, dir, l, levels, [])
  }

  // ---------------------------------------------------- scans

  /** The list has grown by one item for each of these, in order, and the items before are as they were. */
  ghost predicate GrownBy(before: seq<Content>, after: seq<Content>, sp: nat, ys: seq<Found>) {
    && |after| == |before| + |ys| && after[..|before|] == before
    && forall i | 0 <= i < |ys| ::
         var c := after[|before| + i]; c.path == ys[i].path && c.fileName == ys[i].name && c.scanPathId == sp
  }

  lemma {:induction false} AddedAllGrows(w: Store, sp: nat, ys: seq<Found>)
    ensures GrownBy(w.list, AddedAll(w, sp, ys).list, sp, ys)
    decreases |ys|
  {
    if ys != [] {
      hide GrownBy, Inserted, NewRow;
      var w1 := Added(w, sp, ys[0].path, ys[0].name);
      AddedAllGrows(w1, sp, ys[1..]);
      NewRowIs(w.rows, ys[0].path, ys[0].name, sp);
      GrownByOneMore(w.list, NewRow(w.rows, ys[0].path, ys[0].name, sp), AddedAll(w1, sp, ys[1..]).list, sp, ys);
    }
  }

  lemma NewRowIs(rows: seq<Content>, path: string, name: string, sp: nat)
    ensures var c := NewRow(rows, path, name, sp); c.path == path && c.fileName == name && c.scanPathId == sp
  {
  }

  lemma GrownByOneMore(before: seq<Content>, c: Content, after: seq<Content>, sp: nat, ys: seq<Found>)
    requires ys != [] && GrownBy(before + [c], after, sp, ys[1..])
    requires c.path == ys[0].path && c.fileName == ys[0].name && c.scanPathId == sp
    ensures GrownBy(before, after, sp, ys)
  {
  }

  /** A scan of a directory tree adds, once each and in order, what is there and is not hidden by a row. */
  lemma ScanGrows(w: Store, sp: nat, ok: string -> bool, dir: string, l: Listing, levels: int)
    requires WellFormed(l)
    ensures var news := Unmasked(Seen(w, sp), Offer(ok, dir, l, levels));
            && GrownBy(w.list, Scanned(w, sp, ok, dir, l, levels).list, sp, news)
            && DistinctPaths(news)
  {
    var all, seen := Offer(ok, dir, l, levels), Seen(w, sp);
    ScanAdds(w, sp, ok, dir, l, levels, []);
    AddedAllGrows(w, sp, Unmasked(seen, all));
    YieldsOnce(ok, dir, l, levels, []);
    UnmaskedOnce(seen, all);
  }

  ghost predicate DistinctPaths(ys: seq<Found>) {
    forall i, j | 0 <= i < j < |ys| :: ys[i].path != ys[j].path
  }

  lemma EachOnceTail(ys: seq<Found>)
    requires EachOnce(ys) && ys != []
    ensures EachOnce(ys[1..])
    ensures forall z | z in ys[1..] :: ys[0].path != z.path
  {
  }

  lemma DistinctWithFirst(y: Found, r: seq<Found>)
    requires DistinctPaths(r) && (forall z | z in r :: y.path != z.path)
    ensures DistinctPaths([y] + r)
  {
  }

  lemma {:induction false} UnmaskedOnce(seen: set<string>, ys: seq<Found>)
    requires EachOnce(ys)
    ensures DistinctPaths(Unmasked(seen, ys))
    decreases |ys|
  {
    if ys != [] {
      hide EachOnce, DistinctPaths, Masked;
      EachOnceTail(ys);
      UnmaskedOnce(seen, ys[1..]);
      if !Masked(seen, ys[0]) {
        DistinctWithFirst(ys[0], Unmasked(seen, ys[1..]));
      }
    }
  }

  /** A scan brings the whole offer exactly when none of the lookups on the way to it hits a row. */
  lemma CompleteIff(w: Store, sp: nat, ok: string -> bool, dir: string, l: Listing, levels: int)
    requires WellFormed(l)
    ensures GrownBy(w.list, Scanned(w, sp, ok, dir, l, levels).list, sp, Offer(ok, dir, l, levels)) <==>
            forall y | y in Offer(ok, dir, l, levels) :: !Masked(Seen(w, sp), y)
  {
    ScanGrows(w, sp, ok, dir, l, levels);
    AllUnmaskedIff(Seen(w, sp), Offer(ok, dir, l, levels));
    FewerUnless(Seen(w, sp), Offer(ok, dir, l, levels));
  }

  lemma {:induction false} FewerUnless(seen: set<string>, ys: seq<Found>)
    ensures |Unmasked(seen, ys)| <= |ys|
    ensures |Unmasked(seen, ys)| == |ys| ==> Unmasked(seen, ys) == ys
    decreases |ys|
  {
    hide Masked;
    if ys != [] {
      FewerUnless(seen, ys[1..]);
      assert ys == [ys[0]] + ys[1..];
    }
  }

  /**
    * A scan path without a single row can still be scanned in vain: the same path below another scan path,
    * on another device, has a row, and the lookup does not ask whose row it is.
    */
  lemma AnotherPathHides(ok: string -> bool)
    requires ok("\\Games\\a") && !ok("\\Games\\default.xex") && !ok("\\Games\\default.xbe")
    ensures var w := Store([Content(1, "\\Games\\a", "a", 1)], [Content(1, "\\Games\\a", "a", 1)], {1, 2}, {});
            var l := Next(File("a"), End);
            && (forall r | r in w.rows :: r.scanPathId != 2)
            && |Offer(ok, "\\Games\\", l, 0)| == 1
            && Scanned(w, 2, ok, "\\Games\\", l, 0) == w
  {
    var w := Store([Content(1, "\\Games\\a", "a", 1)], [Content(1, "\\Games\\a", "a", 1)], {1, 2}, {});
    var d := "\\Games\\";
    var here := [] + [d + XEX, d + XBE];
    assert d + XEX == "\\Games\\default.xex" && d + XBE == "\\Games\\default.xbe" && d + "a" == "\\Games\\a";
    assert PathsOf(w.rows) == {"\\Games\\a"};
    assert YieldsOfEach(ok, d, End, 0, here) == [];
    assert YieldsOfEach(ok, d, Next(File("a"), End), 0, here) == [Found(d + "a", "a", here + [d + "a"])];
    assert |d + XEX| == 18 && |d + "a"| == 8 && |d + XBE| == 18;
    assert ScannedEach(w, 2, ok, d, Next(File("a"), End), 0) == ScannedEach(w, 2, ok, d, End, 0) == w;
  }

  /** A second scan of the same tree adds nothing, exactly when the scan path is registered or there is nothing to find. */
  lemma RescanAddsNothingIff(w: Store, sp: nat, ok: string -> bool, dir: string, l: Listing, levels: int)
    requires WellFormed(l)
    ensures var once := Scanned(w, sp, ok, dir, l, levels);
            Scanned(once, sp, ok, dir, l, levels) == once <==> sp in w.registered || Offer(ok, dir, l, levels) == []
  {
    hide Scanned, Seen, AddedAll;
    var all := Offer(ok, dir, l, levels);
    var once := Scanned(w, sp, ok, dir, l, levels);
    ScanAdds(w, sp, ok, dir, l, levels, []);
    SeenAfter(w, sp, Unmasked(Seen(w, sp), all));
    ScanAdds(once, sp, ok, dir, l, levels, []);
    YieldsOnce(ok, dir, l, levels, []);
    if sp in w.registered {
      NothingLeft(Seen(w, sp), all);
      AddedNone(once, sp);
    } else {
      assert Seen(once, sp) == {};
      AllUnmaskedIff({}, all);
      AddedAllGrows(once, sp, all);
      if all == [] { AddedNone(once, sp); }
    }
  }

  lemma AddedNone(w: Store, sp: nat)
    ensures AddedAll(w, sp, []) == w
  {
  }

  /**
    * A scan and then a deeper one find together what the deeper one would have found alone. The second finds
    * nothing that the first has found exactly when the scan path is registered, or there was nothing to find.
    */
  lemma DeeperRescan(w: Store, sp: nat, ok: string -> bool, dir: string, l: Listing, levels: int, more: int)
    requires WellFormed(l) && NoDeeper(levels, more)
    ensures var once := Scanned(w, sp, ok, dir, l, levels);
            var first := Unmasked(Seen(w, sp), Offer(ok, dir, l, levels));
            var second := Unmasked(Seen(once, sp), Offer(ok, dir, l, more));
            && GrownBy(w.list, once.list, sp, first)
            && GrownBy(once.list, Scanned(once, sp, ok, dir, l, more).list, sp, second)
            && (forall y :: y in first || y in second <==> y in Unmasked(Seen(w, sp), Offer(ok, dir, l, more)))
            && ((forall y :: !(y in first && y in second)) <==> sp in w.registered || Offer(ok, dir, l, levels) == [])
  {
    hide Scanned, Seen, AddedAll, GrownBy;
    var once := Scanned(w, sp, ok, dir, l, levels);
    var some, all := Offer(ok, dir, l, levels), Offer(ok, dir, l, more);
    ScanGrows(w, sp, ok, dir, l, levels);
    ScanGrows(once, sp, ok, dir, l, more);
    ScanAdds(w, sp, ok, dir, l, levels, []);
    SeenAfter(w, sp, Unmasked(Seen(w, sp), some));
    DeeperFindsMore(ok, dir, l, levels, more, []);
    if sp in w.registered {
      YieldsOnce(ok, dir, l, more, []);
      InTwoSteps(Seen(w, sp), some, all);
    } else {
      NothingSeen(w, sp);
      AllUnmaskedIff({}, some);
      AllUnmaskedIff({}, all);
      assert some != [] ==> some[0] in some && some[0] in all;
    }
  }

  lemma NothingSeen(w: Store, sp: nat)
    requires sp !in w.registered
    ensures Seen(w, sp) == {}
  {
  }

  // ---------------------------------------------------- the list and the table

  ghost predicate Ascending(cs: seq<Content>) {
    forall i, j | 0 <= i < j < |cs| :: cs[i].id < cs[j].id
  }

  /** The list is the table without the rows it was loaded without, in the order of the ids. */
  ghost predicate OneToOne(w: Store) {
    Ascending(w.rows) && w.hidden <= IdsOf(w.rows) && w.list == Without(w.rows, w.hidden)
  }

  /** Every item has its own row, and every row that is not hidden its own item. */
  lemma OneToOneMeans(w: Store)
    requires OneToOne(w)
    ensures forall c :: c in w.list <==> c in w.rows && c.id !in w.hidden
    ensures forall i, j | 0 <= i < j < |w.list| :: w.list[i].id < w.list[j].id
  {
    WithoutAscends(w.rows, w.hidden);
  }

  lemma {:induction false} WithoutAscends(cs: seq<Content>, ids: set<nat>)
    requires Ascending(cs)
    ensures Ascending(Without(cs, ids))
    decreases |cs|
  {
    if cs != [] {
      var r := Without(cs[1..], ids);
      WithoutAscends(cs[1..], ids);
      forall c | c in r ensures cs[0].id < c.id {
        var k :| 0 <= k < |cs[1..]| && cs[1..][k] == c;
        assert c == cs[k + 1];
      }
    }
  }

  lemma {:induction false} WithoutJoins(xs: seq<Content>, ys: seq<Content>, ids: set<nat>)
    ensures Without(xs + ys, ids) == Without(xs, ids) + Without(ys, ids)
    decreases |xs|
  {
    if xs == [] {
      assert xs + ys == ys;
    } else {
      assert (xs + ys)[1..] == xs[1..] + ys;
      WithoutJoins(xs[1..], ys, ids);
    }
  }

  lemma {:induction false} WithoutTwice(cs: seq<Content>, a: set<nat>, b: set<nat>)
    ensures Without(Without(cs, a), b) == Without(cs, a + b)
    decreases |cs|
  {
    if cs != [] {
      WithoutTwice(cs[1..], a, b);
      var r := Without(cs[1..], a);
      if cs[0].id !in a {
        assert ([cs[0]] + r)[1..] == r;
      }
    }
  }

  // ---------------------------------------------------- loading

  function Copies(c: Content, n: nat): (r: seq<Content>)
    ensures |r| == n && forall x | x in r :: x == c
  {
    seq(n, _ => c)
  }

  /**
    * The rows that the query yields. The query joins the table with the scan paths and the mounted devices and skips
    * a file that is not there; a row comes once for every device that is mounted under its scan path's serial number.
    */
  function Fetched(rows: seq<Content>, times: Content -> nat): seq<Content> {
    if rows == [] then []
    else Copies(rows[0], times(rows[0])) + Fetched(rows[1..], times)
  }

  /** The list as it is loaded. */
  function Loaded(rows: seq<Content>, registered: set<nat>, times: Content -> nat): Store {
    Store(Fetched(rows, times), rows, registered, HiddenIds(rows, times))
  }

  function HiddenIds(rows: seq<Content>, times: Content -> nat): set<nat> {
    set r | r in rows && times(r) == 0 :: r.id
  }

  /** Loading makes list and table one to one exactly when no row comes twice. */
  lemma LoadingIsOneToOneIff(rows: seq<Content>, registered: set<nat>, times: Content -> nat)
    requires Ascending(rows)
    ensures OneToOne(Loaded(rows, registered, times)) <==> forall r | r in rows :: times(r) <= 1
  {
    var hidden := HiddenIds(rows, times);
    forall r | r in rows ensures r.id in hidden <==> times(r) == 0 {
      if r.id in hidden {
        var q :| q in rows && times(q) == 0 && q.id == r.id;
        SameId(rows, q, r);
      }
    }
    FetchedIsWithoutIff(rows, times, hidden);
  }

  lemma SameId(rows: seq<Content>, q: Content, r: Content)
    requires Ascending(rows) && q in rows && r in rows && q.id == r.id
    ensures q == r
  {
  }

  lemma {:induction false} FetchedIsWithoutIff(rows: seq<Content>, times: Content -> nat, hidden: set<nat>)
    requires forall r | r in rows :: r.id in hidden <==> times(r) == 0
    ensures |Fetched(rows, times)| >= |Without(rows, hidden)|
    ensures (forall r | r in rows :: times(r) <= 1) ==> Fetched(rows, times) == Without(rows, hidden)
    ensures |Fetched(rows, times)| == |Without(rows, hidden)| ==> forall r | r in rows :: times(r) <= 1
    decreases |rows|
  {
    if rows != [] {
      assert rows[0] in rows && forall r | r in rows[1..] :: r in rows;
      FetchedIsWithoutIff(rows[1..], times, hidden);
      if times(rows[0]) == 1 {
        assert Copies(rows[0], 1) == [rows[0]];
      }
      forall r | r in rows ensures r == rows[0] || r in rows[1..] {
      }
    }
  }

  // ---------------------------------------------------- deleting

  /** A deletion takes the first occurrence out of the list, keeping the order, and the rows with its id. */
  lemma DeletedMeans(w: Store, c: Content, before: seq<Content>, after: seq<Content>)
    requires c !in before
    ensures w.list == before + [c] + after ==> Deleted(w, c).list == before + after
    ensures w.list == before ==> Deleted(w, c).list == before
    ensures forall r :: r in Deleted(w, c).rows <==> r in w.rows && r.id != c.id
  {
    FirstAway(before, c, after);
  }

  lemma {:induction false} FirstAway(before: seq<Content>, c: Content, after: seq<Content>)
    requires c !in before
    ensures WithoutFirst(before + [c] + after, c) == before + after
    ensures WithoutFirst(before, c) == before
    decreases |before|
  {
    var all := before + [c] + after;
    if before == [] {
      assert all[1..] == after;
    } else {
      var first, tail := before[0], before[1..];
      assert all[0] == first && all[1..] == tail + [c] + after;
      FirstAway(tail, c, after);
      assert [first] + (tail + after) == before + after;
    }
  }

  /** A removal takes the path's items out of the list, and out of the table the rows with their ids. */
  lemma RemovedMeans(w: Store, sp: nat)
    ensures var d := Removed(w, sp);
            && (forall c :: c in d.list <==> c in w.list && c.scanPathId != sp)
            && (forall r :: r in d.rows <==> r in w.rows && !exists c | c in w.list :: c.scanPathId == sp && c.id == r.id)
  {
  }

  lemma DeletingIsOneToOne(w: Store, c: Content)
    requires OneToOne(w) && c in w.list
    ensures OneToOne(Deleted(w, c))
    ensures forall x :: x in Deleted(w, c).list <==> x in w.list && x != c
  {
    OneToOneMeans(w);
    FirstIsOnly(w.list, c);
    Swapped(w.rows, w.hidden, {c.id});
    WithoutAscends(w.rows, {c.id});
    StillHidden(w, {c.id});
    forall x | x in w.list && x.id == c.id ensures x == c {
      SameId(w.rows, x, c);
    }
  }

  lemma Swapped(cs: seq<Content>, a: set<nat>, b: set<nat>)
    ensures Without(Without(cs, a), b) == Without(Without(cs, b), a)
  {
  }

  lemma StillHidden(w: Store, ids: set<nat>)
    requires w.hidden <= IdsOf(w.rows) && w.hidden !! ids
    ensures w.hidden <= IdsOf(Without(w.rows, ids))
  {
  }

  lemma {:induction false} FirstIsOnly(cs: seq<Content>, c: Content)
    requires Ascending(cs) && c in cs
    ensures WithoutFirst(cs, c) == Without(cs, {c.id})
    decreases |cs|
  {
    if cs[0] == c {
      NoneToLeaveOut(cs[1..], {c.id});
    } else {
      if cs[0].id == c.id { SameId(cs, cs[0], c); }
      FirstIsOnly(cs[1..], c);
    }
  }

  lemma {:induction false} NoneToLeaveOut(cs: seq<Content>, ids: set<nat>)
    requires forall c | c in cs :: c.id !in ids
    ensures Without(cs, ids) == cs
    decreases |cs|
  {
    if cs != [] {
      assert cs[0] in cs && forall c | c in cs[1..] :: c in cs;
      NoneToLeaveOut(cs[1..], ids);
    }
  }

  /** Removing a scan path is a filter of the list, and takes with it the rows of just the items that go. */
  lemma RemovingIsOneToOne(w: Store, sp: nat)
    requires OneToOne(w)
    ensures OneToOne(Removed(w, sp))
    ensures forall r :: r in Removed(w, sp).rows <==> r in w.rows && (r.scanPathId == sp ==> r.id in w.hidden)
  {
    OneToOneMeans(w);
    var ids := IdsOfPath(w.list, sp);
    forall c | c in w.rows ensures c.id in ids <==> c in w.list && c.scanPathId == sp {
      if c.id in ids {
        var d :| d in w.list && d.scanPathId == sp && d.id == c.id;
        SameId(w.rows, c, d);
      }
    }
    OthersIsWithout(w.list, sp, ids);
    Swapped(w.rows, w.hidden, ids);
    WithoutAscends(w.rows, ids);
    forall h | h in ids ensures h !in w.hidden {
      var d :| d in w.list && d.scanPathId == sp && d.id == h;
    }
    StillHidden(w, ids);
  }

  lemma {:induction false} OthersIsWithout(cs: seq<Content>, sp: nat, ids: set<nat>)
    requires forall c | c in cs :: c.id in ids <==> c.scanPathId == sp
    ensures OfOthers(cs, sp) == Without(cs, ids)
    decreases |cs|
  {
    if cs != [] {
      assert cs[0] in cs && forall c | c in cs[1..] :: c in cs;
      OthersIsWithout(cs[1..], sp, ids);
    }
  }

  // ---------------------------------------------------- adding

  /** There is a row already for this file, under this scan path. */
  predicate HasRow(rows: seq<Content>, sp: nat, y: Found) {
    exists r | r in rows :: r.path == y.path && r.fileName == y.name && r.scanPathId == sp
  }

  lemma HasRowIsConflict(rows: seq<Content>, sp: nat, y: Found)
    ensures HasRow(rows, sp, y) <==> Conflicts(rows, NewRow(rows, y.path, y.name, sp))
  {
  }

  /** By how much the list is longer than the rows that are not hidden. */
  function Excess(w: Store): int {
    |w.list| - |Without(w.rows, w.hidden)|
  }

  lemma AddingOne(w: Store, sp: nat, y: Found)
    requires w.hidden <= IdsOf(w.rows)
    ensures var n := Added(w, sp, y.path, y.name);
            && n.hidden == w.hidden <= IdsOf(n.rows)
            && Excess(n) == Excess(w) + (if HasRow(w.rows, sp, y) then 1 else 0)
            && (forall r | r in w.rows :: r in n.rows)
  {
    var c := NewRow(w.rows, y.path, y.name, sp);
    HasRowIsConflict(w.rows, sp, y);
    if !HasRow(w.rows, sp, y) {
      NewRowIsNotHidden(w, c);
    }
  }

  lemma NewRowIsNotHidden(w: Store, c: Content)
    requires w.hidden <= IdsOf(w.rows) && c.id > MaxId(w.rows)
    ensures Without(w.rows + [c], w.hidden) == Without(w.rows, w.hidden) + [c]
    ensures w.hidden <= IdsOf(w.rows + [c])
  {
    assert c.id !in w.hidden;
    WithoutJoins(w.rows, [c], w.hidden);
    assert forall r | r in w.rows :: r in w.rows + [c];
  }

  lemma AddingOneKeeps(w: Store, sp: nat, y: Found)
    requires OneToOne(w) && !HasRow(w.rows, sp, y)
    ensures OneToOne(Added(w, sp, y.path, y.name))
  {
    HasRowIsConflict(w.rows, sp, y);
    NewRowIsNotHidden(w, NewRow(w.rows, y.path, y.name, sp));
  }

  lemma {:induction false} AddingOnlyExceeds(w: Store, sp: nat, ys: seq<Found>)
    requires w.hidden <= IdsOf(w.rows)
    ensures Excess(AddedAll(w, sp, ys)) >= Excess(w)
    ensures (exists y | y in ys :: HasRow(w.rows, sp, y)) ==> Excess(AddedAll(w, sp, ys)) > Excess(w)
    decreases |ys|
  {
    hide Added, Excess;
    if ys != [] {
      AddingOne(w, sp, ys[0]);
      var w1 := Added(w, sp, ys[0].path, ys[0].name);
      AddingOnlyExceeds(w1, sp, ys[1..]);
      if exists y | y in ys :: HasRow(w.rows, sp, y) {
        var y :| y in ys && HasRow(w.rows, sp, y);
        if y != ys[0] {
          var k :| 0 <= k < |ys| && ys[k] == y;
          assert ys[1..][k - 1] == y;
          assert HasRow(w1.rows, sp, y);
        }
      }
    }
  }

  lemma {:induction false} AddingWithoutConflict(w: Store, sp: nat, ys: seq<Found>)
    requires OneToOne(w) && DistinctPaths(ys)
    requires forall y | y in ys :: !HasRow(w.rows, sp, y)
    ensures OneToOne(AddedAll(w, sp, ys))
    decreases |ys|
  {
    if ys != [] {
      var w1 := Added(w, sp, ys[0].path, ys[0].name);
      assert ys[0] in ys;
      AddingOneKeeps(w, sp, ys[0]);
      forall y | y in ys[1..] ensures !HasRow(w1.rows, sp, y) {
        var k :| 0 <= k < |ys[1..]| && ys[1..][k] == y;
        assert y == ys[k + 1] && ys[0].path != ys[k + 1].path && y in ys;
      }
      AddingWithoutConflict(w1, sp, ys[1..]);
    }
  }

  /**
    * A scan keeps list and table one to one exactly when its scan path is registered, or no file that it finds
    * has a row of that path already: an unregistered path is not recognised by the lookup, and the item whose
    * row is refused goes into the list all the same.
    */
  lemma ScanIsOneToOneIff(w: Store, sp: nat, ok: string -> bool, dir: string, l: Listing, levels: int)
    requires WellFormed(l) && OneToOne(w)
    ensures OneToOne(Scanned(w, sp, ok, dir, l, levels)) <==>
            sp in w.registered || forall y | y in Offer(ok, dir, l, levels) :: !HasRow(w.rows, sp, y)
  {
    hide Scanned, AddedAll, Excess;
    var all := Offer(ok, dir, l, levels);
    var news := Unmasked(Seen(w, sp), all);
    ScanAdds(w, sp, ok, dir, l, levels, []);
    YieldsOnce(ok, dir, l, levels, []);
    UnmaskedOnce(Seen(w, sp), all);
    if sp in w.registered {
      forall y | y in news ensures !HasRow(w.rows, sp, y) {
        assert y.path in y.lookups;
        assert y.path !in PathsOf(w.rows);
      }
      AddingWithoutConflict(w, sp, news);
    } else {
      AllUnmaskedIff({}, all);
      if forall y | y in all :: !HasRow(w.rows, sp, y) {
        AddingWithoutConflict(w, sp, all);
      } else {
        AddingOnlyExceeds(w, sp, all);
        NoExcess(w);
        if OneToOne(Scanned(w, sp, ok, dir, l, levels)) { NoExcess(Scanned(w, sp, ok, dir, l, levels)); }
      }
    }
  }

  lemma NoExcess(w: Store)
    requires OneToOne(w)
    ensures Excess(w) == 0
  {
  }

  // ---------------------------------------------------- whole runs

  datatype Op =
    | Scan(sp: nat, ok: string -> bool, dir: string, l: Listing, levels: int)
    | Delete(c: Content)
    | Remove(sp: nat)
    | Register(sp: nat)
    | Unregister(sp: nat)

  ghost function Do(w: Store, op: Op): Store {
    match op
    case Scan(sp, ok, dir, l, levels) => Scanned(w, sp, ok, dir, l, levels)
    case Delete(c) => Deleted(w, c)
    case Remove(sp) => Removed(w, sp)
    case Register(sp) => w.(registered := w.registered + {sp})
    case Unregister(sp) => w.(registered := w.registered - {sp})
  }

  /** A scan of a registered path, or of one whose files have no rows; or the deletion of an item that is in the list. */
  ghost predicate Fits(w: Store, op: Op) {
    match op
    case Scan(sp, ok, dir, l, levels) =>
      WellFormed(l) && (sp in w.registered || forall y | y in Offer(ok, dir, l, levels) :: !HasRow(w.rows, sp, y))
    case Delete(c) => c in w.list
    case _ => true
  }

  ghost function Run(w: Store, ops: seq<Op>): Store
    decreases |ops|
  {
    if ops == [] then w else Run(Do(w, ops[0]), ops[1..])
  }

  ghost predicate AllFit(w: Store, ops: seq<Op>)
    decreases |ops|
  {
    ops == [] || (Fits(w, ops[0]) && AllFit(Do(w, ops[0]), ops[1..]))
  }

  /** From loading on, over any run, list and table stay one to one. */
  lemma RunIsOneToOne(rows: seq<Content>, registered: set<nat>, times: Content -> nat, ops: seq<Op>)
    requires Ascending(rows) && (forall r | r in rows :: times(r) <= 1)
    requires AllFit(Loaded(rows, registered, times), ops)
    ensures OneToOne(Run(Loaded(rows, registered, times), ops))
  {
    LoadingIsOneToOneIff(rows, registered, times);
    RunKeepsOneToOne(Loaded(rows, registered, times), ops);
  }

  lemma {:induction false} RunKeepsOneToOne(w: Store, ops: seq<Op>)
    requires OneToOne(w) && AllFit(w, ops)
    ensures OneToOne(Run(w, ops))
    decreases |ops|
  {
    hide Scanned, Deleted, Removed;
    if ops != [] {
      match ops[0] {
        case Scan(sp, ok, dir, l, levels) => ScanIsOneToOneIff(w, sp, ok, dir, l, levels);
        case Delete(c) => DeletingIsOneToOne(w, c);
        case Remove(sp) => RemovingIsOneToOne(w, sp);
        case Register(sp) =>
        case Unregister(sp) =>
      }
      RunKeepsOneToOne(Do(w, ops[0]), ops[1..]);
    }
  }

  /** Removing a scan path and scanning it again leaves the other items in front, and behind them what the scan finds. */
  lemma RefreshBrings(w: Store, sp: nat, ok: string -> bool, dir: string, l: Listing, levels: int)
    requires WellFormed(l)
    ensures var gone := Removed(w, sp);
            GrownBy(OfOthers(w.list, sp), Scanned(gone, sp, ok, dir, l, levels).list, sp,
                    Unmasked(Seen(gone, sp), Offer(ok, dir, l, levels)))
  {
    ScanGrows(Removed(w, sp), sp, ok, dir, l, levels);
  }

  /**
    * After that the path has all its tree has to offer exactly when it is not registered, or every row that is
    * met on the way to a file belongs to it and was not hidden: its own items' rows go, all others stay.
    */
  lemma RefreshCompleteIff(w: Store, sp: nat, ok: string -> bool, dir: string, l: Listing, levels: int)
    requires WellFormed(l) && OneToOne(w)
    ensures GrownBy(OfOthers(w.list, sp), Scanned(Removed(w, sp), sp, ok, dir, l, levels).list, sp, Offer(ok, dir, l, levels))
            <==> sp !in w.registered ||
                 forall y, r | y in Offer(ok, dir, l, levels) && r in w.rows && r.path in y.lookups ::
                   r.scanPathId == sp && r.id !in w.hidden
  {
    hide Scanned, GrownBy, OfOthers, Without, Offer;
    var gone := Removed(w, sp);
    CompleteIff(gone, sp, ok, dir, l, levels);
    RemovingIsOneToOne(w, sp);
    forall y | y in Offer(ok, dir, l, levels)
      ensures !Masked(Seen(gone, sp), y) <==>
              sp !in w.registered || forall r | r in w.rows && r.path in y.lookups :: r.scanPathId == sp && r.id !in w.hidden
    {
      StillMaskedIff(w, sp, y);
    }
  }

  /** A lookup still hits after the removal when it hits a row that stays. */
  lemma StillMaskedIff(w: Store, sp: nat, y: Found)
    requires OneToOne(w)
    ensures Masked(Seen(Removed(w, sp), sp), y) <==>
            sp in w.registered && exists r | r in w.rows && r.path in y.lookups :: r.scanPathId != sp || r.id in w.hidden
  {
    hide OfOthers, Without;
    RemovingIsOneToOne(w, sp);
    var gone := Removed(w, sp);
    if Masked(Seen(gone, sp), y) {
      var p := AHit(Seen(gone, sp), y);
      var r :| r in gone.rows && r.path == p;
    }
    if sp in w.registered && exists r | r in w.rows && r.path in y.lookups :: r.scanPathId != sp || r.id in w.hidden {
      var r :| r in w.rows && r.path in y.lookups && (r.scanPathId != sp || r.id in w.hidden);
      assert r in gone.rows && r.path in PathsOf(gone.rows);
    }
  }
}
