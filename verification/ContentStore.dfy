/** The content list in memory and its rows in the database, as values. */
module ContentStore {
  import opened ContentTree

  /** A row of the database, and the item in memory that stands for it. */
  datatype Content = Content(id: nat, path: string, fileName: string, scanPathId: nat)

  /**
    * The list, the rows in the order of their ids, the scan paths that are registered, and the ids
    * of the rows that the list was loaded without.
    */
  datatype Store = Store(list: seq<Content>, rows: seq<Content>, registered: set<nat>, hidden: set<nat>)

  // ---------------------------------------------------- the queries

  function MaxId(rows: seq<Content>): (m: nat)
    ensures forall r | r in rows :: r.id <= m
    ensures rows == [] ==> m == 0
    ensures rows != [] ==> exists r | r in rows :: r.id == m
  {
    if rows == [] then 0
    else
      var m := MaxId(rows[..|rows| - 1]);
      assert rows == rows[..|rows| - 1] + [rows[|rows| - 1]];
      assert rows[|rows| - 1] in rows;
      if rows[|rows| - 1].id > m then rows[|rows| - 1].id else m
  }

  /** The unique key of the table: path, file name and scan path. */
  predicate SameKey(a: Content, b: Content) {
    a.path == b.path && a.fileName == b.fileName && a.scanPathId == b.scanPathId
  }

  predicate Conflicts(rows: seq<Content>, c: Content) {
    exists r | r in rows :: SameKey(r, c)
  }

  /** The row that an insertion tries to add: the next id is one more than the largest. */
  function NewRow(rows: seq<Content>, path: string, name: string, sp: nat): Content {
    Content(MaxId(rows) + 1, path, name, sp)
  }

  /** A refused insertion leaves the table as it is. */
  function Inserted(rows: seq<Content>, c: Content): seq<Content> {
    if Conflicts(rows, c) then rows else rows + [c]
  }

  function PathsOf(cs: seq<Content>): set<string> {
    set c | c in cs :: c.path
  }

  /**
    * The paths for which the lookup answers yes: those of all rows, of whichever scan path,
    * provided that the scan path that asks is registered.
    */
  function Seen(w: Store, sp: nat): set<string> {
    if sp in w.registered then PathsOf(w.rows) else {}
  }

  lemma SeenMeans(w: Store, sp: nat, path: string)
    ensures path in Seen(w, sp) <==> sp in w.registered && exists r | r in w.rows :: r.path == path
  {
  }

  /** The contents without those of these ids. */
  function Without(cs: seq<Content>, ids: set<nat>): (r: seq<Content>)
    ensures forall c :: c in r <==> c in cs && c.id !in ids
  {
    if cs == [] then []
    else if cs[0].id in ids then Without(cs[1..], ids)
    else [cs[0]] + Without(cs[1..], ids)
  }

  /** The contents of the other scan paths. */
  function OfOthers(cs: seq<Content>, sp: nat): (r: seq<Content>)
    ensures forall c :: c in r <==> c in cs && c.scanPathId != sp
  {
    if cs == [] then []
    else if cs[0].scanPathId == sp then OfOthers(cs[1..], sp)
    else [cs[0]] + OfOthers(cs[1..], sp)
  }

  function IdsOf(cs: seq<Content>): set<nat> {
    set c | c in cs :: c.id
  }

  function IdsOfPath(cs: seq<Content>, sp: nat): set<nat> {
    set c | c in cs && c.scanPathId == sp :: c.id
  }

  function WithoutFirst(cs: seq<Content>, c: Content): seq<Content> {
    if cs == [] then []
    else if cs[0] == c then cs[1..]
    else [cs[0]] + WithoutFirst(cs[1..], c)
  }

  // ---------------------------------------------------- the operations

  /** The item goes into the list under the new id, whether or not its row went into the table. */
  function Added(w: Store, sp: nat, path: string, name: string): Store {
    var c := NewRow(w.rows, path, name, sp);
    w.(list := w.list + [c], rows := Inserted(w.rows, c))
  }

  function AddedAll(w: Store, sp: nat, ys: seq<Found>): Store
    decreases |ys|
  {
    if ys == [] then w else AddedAll(Added(w, sp, ys[0].path, ys[0].name), sp, ys[1..])
  }

  function Deleted(w: Store, c: Content): Store {
    w.(list := WithoutFirst(w.list, c), rows := Without(w.rows, {c.id}))
  }

  function Removed(w: Store, sp: nat): Store {
    w.(list := OfOthers(w.list, sp), rows := Without(w.rows, IdsOfPath(w.list, sp)))
  }

  /** What the program does in one directory, step by step. */
  function Scanned(w: Store, sp: nat, ok: string -> bool, dir: string, l: Listing, levels: int): Store
    decreases l, 1
  {
    if dir + XEX in Seen(w, sp) || dir + XBE in Seen(w, sp) then w
    else if ok(dir + XEX) then Added(w, sp, dir + XEX, XEX)
    else if ok(dir + XBE) then Added(w, sp, dir + XBE, XBE)
    else ScannedEach(w, sp, ok, dir, l, levels)
  }

  function ScannedEach(w: Store, sp: nat, ok: string -> bool, dir: string, l: Listing, levels: int): Store
    decreases l, 0
  {
    match l
    case End => w
    case Next(File(n), rest) =>
      ScannedEach(if dir + n !in Seen(w, sp) && ok(dir + n) then Added(w, sp, dir + n, n) else w, sp, ok, dir, rest, levels)
    case Next(Folder(n, inside), rest) =>
      ScannedEach(if Enters(levels) then Scanned(w, sp, ok, Inside(dir, n), inside, Below(levels)) else w, sp, ok, dir, rest, levels)
  }

  // ---------------------------------------------------- what a scan adds

  lemma {:induction false} AddedAllJoins(w: Store, sp: nat, xs: seq<Found>, ys: seq<Found>)
    ensures AddedAll(w, sp, xs + ys) == AddedAll(AddedAll(w, sp, xs), sp, ys)
    decreases |xs|
  {
    if xs == [] {
      assert xs + ys == ys;
    } else {
      assert (xs + ys)[1..] == xs[1..] + ys;
      AddedAllJoins(Added(w, sp, xs[0].path, xs[0].name), sp, xs[1..], ys);
    }
  }

  lemma SeenAfterOne(w: Store, sp: nat, path: string, name: string)
    ensures var n := Added(w, sp, path, name);
            n.registered == w.registered &&
            Seen(n, sp) == if sp in w.registered then Seen(w, sp) + {path} else {}
  {
  }

  lemma {:induction false} SeenAfter(w: Store, sp: nat, ys: seq<Found>)
    ensures var n := AddedAll(w, sp, ys);
            n.registered == w.registered &&
            Seen(n, sp) == if sp in w.registered then Seen(w, sp) + Paths(ys) else {}
    decreases |ys|
  {
    hide Added;
    if ys == [] {
      assert Paths(ys) == {};
    } else {
      SeenAfterOne(w, sp, ys[0].path, ys[0].name);
      SeenAfter(Added(w, sp, ys[0].path, ys[0].name), sp, ys[1..]);
      assert ys == [ys[0]] + ys[1..];
      assert Paths(ys) == {ys[0].path} + Paths(ys[1..]);
    }
  }

  /** Nothing that is looked up above this directory is a good file, and none of it has a row. */
  ghost predicate Clear(w: Store, sp: nat, ok: string -> bool, above: seq<string>) {
    forall a | a in above :: !ok(a) && a !in Seen(w, sp)
  }

  /**
    * What the scan adds is what the directory has to offer, in order, without the files that have a row for
    * one of the lookups on the way to them: their own path, or a default.xex or default.xbe in one of the
    * directories passed, whichever scan path that row is of.
    */
  lemma {:induction false} ScanAdds(w: Store, sp: nat, ok: string -> bool, dir: string, l: Listing, levels: int, above: seq<string>)
    requires WellFormed(l) && Clear(w, sp, ok, above)
    ensures Scanned(w, sp, ok, dir, l, levels) == AddedAll(w, sp, Unmasked(Seen(w, sp), Yields(ok, dir, l, levels, above)))
    decreases l, 1
  {
    hide Added, Seen;
    var ys := Yields(ok, dir, l, levels, above);
    var seen := Seen(w, sp);
    var here := above + [dir + XEX, dir + XBE];
    YieldsAreSound(ok, dir, l, levels, above);
    if dir + XEX in seen || dir + XBE in seen {
      assert Unmasked(seen, ys) == [];
    } else if ok(dir + XEX) || ok(dir + XBE) {
      assert ys[0].lookups == here;
      assert !Masked(seen, ys[0]);
      assert Unmasked(seen, ys) == [ys[0]] == ys;
      assert AddedAll(w, sp, ys) == Added(w, sp, ys[0].path, ys[0].name);
    } else {
      assert Clear(w, sp, ok, here);
      EachAdds(w, sp, ok, dir, l, levels, here);
    }
  }

  lemma {:induction false} EntryAdds(w: Store, sp: nat, ok: string -> bool, dir: string, e: Entry, levels: int, here: seq<string>)
    requires WellFormed(Next(e, End)) && Clear(w, sp, ok, here)
    ensures ScannedEach(w, sp, ok, dir, Next(e, End), levels)
         == AddedAll(w, sp, Unmasked(Seen(w, sp), YieldsOfEntry(ok, dir, e, levels, here)))
    decreases e, 2
  {
    hide Added, Seen;
    var ys := YieldsOfEntry(ok, dir, e, levels, here);
    match e
    case File(n) =>
      if ok(dir + n) {
        assert Masked(Seen(w, sp), ys[0]) <==> dir + n in Seen(w, sp);
        if dir + n !in Seen(w, sp) {
          assert Unmasked(Seen(w, sp), ys) == ys;
          assert AddedAll(w, sp, ys) == Added(w, sp, dir + n, n);
        }
      }
    case Folder(n, inside) =>
      if Enters(levels) {
        ScanAdds(w, sp, ok, Inside(dir, n), inside, Below(levels), here);
      }
  }

  /** What the first entry adds hides nothing of the rest. */
  lemma RestIsAsBefore(ok: string -> bool, dir: string, l: Listing, levels: int, here: seq<string>, seen: set<string>)
    requires l.Next? && WellFormed(l) && (forall h | h in here :: !ok(h))
    ensures var first, others := YieldsOfEntry(ok, dir, l.entry, levels, here), YieldsOfEach(ok, dir, l.rest, levels, here);
            var added := Unmasked(seen, first);
            && (forall y | y in added :: ok(y.path))
            && Unmasked(seen + Paths(added), others) == Unmasked(seen, others)
            && Unmasked(seen, YieldsOfEach(ok, dir, l, levels, here)) == added + Unmasked(seen, others)
  {
    hide YieldsOfEntry;
    var first, others := YieldsOfEntry(ok, dir, l.entry, levels, here), YieldsOfEach(ok, dir, l.rest, levels, here);
    YieldsOfEntryAreSound(ok, dir, l.entry, levels, here);
    EntryApartFromRest(ok, dir, l, levels, here);
    UnmaskedWithMore(seen, Paths(Unmasked(seen, first)), others);
    UnmaskedJoins(seen, first, others);
  }

  lemma ClearAfter(w: Store, sp: nat, ok: string -> bool, here: seq<string>, ys: seq<Found>)
    requires Clear(w, sp, ok, here) && (forall y | y in ys :: ok(y.path))
    ensures Clear(AddedAll(w, sp, ys), sp, ok, here)
  {
    hide Seen, AddedAll;
    SeenAfter(w, sp, ys);
  }

  lemma {:induction false} EachAdds(w: Store, sp: nat, ok: string -> bool, dir: string, l: Listing, levels: int, here: seq<string>)
    requires WellFormed(l) && Clear(w, sp, ok, here)
    ensures ScannedEach(w, sp, ok, dir, l, levels) == AddedAll(w, sp, Unmasked(Seen(w, sp), YieldsOfEach(ok, dir, l, levels, here)))
    decreases l, 0
  {
    hide Added, AddedAll, YieldsOfEntry, YieldsOfEach, Unmasked;
    match l
    case End => NothingAdded(w, sp, ok, dir, levels, here);
    case Next(e, rest) =>
      var seen := Seen(w, sp);
      var others := YieldsOfEach(ok, dir, rest, levels, here);
      var added := Unmasked(seen, YieldsOfEntry(ok, dir, e, levels, here));
      var w1 := AddedAll(w, sp, added);
      EntryAdds(w, sp, ok, dir, e, levels, here);
      RestIsAsBefore(ok, dir, l, levels, here, seen);
      ClearAfter(w, sp, ok, here, added);
      SeenAfter(w, sp, added);
      EachAdds(w1, sp, ok, dir, rest, levels, here);
      assert Unmasked(Seen(w1, sp), others) == Unmasked(seen, others);
      AddedAllJoins(w, sp, added, Unmasked(seen, others));
  }

  lemma NothingAdded(w: Store, sp: nat, ok: string -> bool, dir: string, levels: int, here: seq<string>)
    ensures w == AddedAll(w, sp, Unmasked(Seen(w, sp), YieldsOfEach(ok, dir, End, levels, here)))
  {
  }
}
