/** Which files of a tree a scan reaches, and what it looks up on the way, said without the scan. */
module ContentReach {
  import opened ContentTree
  import opened ContentStore
  import opened ContentLaws

  datatype Option<T> = None | Some(value: T)

  function FolderNamed(l: Listing, name: string): Option<Listing> {
    match l
    case End => None
    case Next(e, rest) => if e.Folder? && e.name == name then Some(e.inside) else FolderNamed(rest, name)
  }

  predicate HasFile(l: Listing, name: string) {
    l.Next? && (l.entry == File(name) || HasFile(l.rest, name))
  }

  /** The directory at the end of a chain of folders, each in the one before. */
  function Open(l: Listing, via: seq<string>): Option<Listing>
    decreases |via|
  {
    if via == [] then Some(l)
    else
      match FolderNamed(l, via[0])
      case None => None
      case Some(inside) => Open(inside, via[1..])
  }

  /** Its path. */
  function Dir(dir: string, via: seq<string>): string
    decreases |via|
  {
    if via == [] then dir else Dir(dir + via[0] + "\\", via[1..])
  }

  /** One folder more is its name and a separator more. */
  lemma {:induction false} DirGrows(dir: string, via: seq<string>, name: string)
    ensures Dir(dir, []) == dir
    ensures Dir(dir, via + [name]) == Dir(dir, via) + name + "\\"
    decreases |via|
  {
    if via == [] {
      assert ([] + [name])[1..] == [];
    } else {
      assert (via + [name])[1..] == via[1..] + [name];
      DirGrows(dir + via[0] + "\\", via[1..], name);
    }
  }

  /** Neither default file is good in the first `n` directories of the chain. */
  predicate NoDefaults(ok: string -> bool, dir: string, via: seq<string>, n: nat)
    requires n <= |via| + 1
  {
    forall k | 0 <= k < n :: !ok(Dir(dir, via[..k]) + "default.xex") && !ok(Dir(dir, via[..k]) + "default.xbe")
  }

  /** Names that a file system has. */
  predicate Clean(via: seq<string>, name: string) {
    '\\' !in name && forall v | v in via :: '\\' !in v
  }

  /**
    * A file is on offer: its folders stand one in the other, there are no more of them than the depth allows, and no
    * directory above has a good default file. In its own directory a default.xex stands back for nothing, a
    * default.xbe for the first, and all other files for both.
    */
  predicate OnOffer(ok: string -> bool, dir: string, l: Listing, levels: int, via: seq<string>, name: string) {
    var here := Dir(dir, via);
    && ok(here + name)
    && Open(l, via).Some?
    && (levels == -1 || |via| <= levels || |via| == 0)
    && NoDefaults(ok, dir, via, |via|)
    && (name != "default.xex" ==> !ok(here + "default.xex"))
    && (name != "default.xex" && name != "default.xbe" ==>
          !ok(here + "default.xbe") && HasFile(Open(l, via).value, name))
  }

  /** A path that is looked up for a file: its own, or that of a default file on the chain. */
  predicate LookedUp(dir: string, via: seq<string>, name: string, q: string) {
    q == Dir(dir, via) + name ||
    exists k | 0 <= k <= |via| :: q == Dir(dir, via[..k]) + "default.xex" || q == Dir(dir, via[..k]) + "default.xbe"
  }

  // ---------------------------------------------------- one folder at a time

  lemma NoDefaultsStep(ok: string -> bool, dir: string, via: seq<string>, n: nat)
    requires via != [] && n <= |via|
    ensures NoDefaults(ok, dir, via, n + 1) <==>
            !ok(dir + "default.xex") && !ok(dir + "default.xbe") && NoDefaults(ok, Inside(dir, via[0]), via[1..], n)
  {
    var sub, tail := Inside(dir, via[0]), via[1..];
    assert via[..0] == [];
    forall k | 0 <= k < n ensures Dir(dir, via[..k + 1]) == Dir(sub, tail[..k]) {
      assert via[..k + 1][1..] == tail[..k];
    }
    if NoDefaults(ok, dir, via, n + 1) {
      forall k | 0 <= k < n
        ensures !ok(Dir(sub, tail[..k]) + "default.xex") && !ok(Dir(sub, tail[..k]) + "default.xbe")
      {
        assert Dir(dir, via[..k + 1]) == Dir(sub, tail[..k]);
      }
    }
    if !ok(dir + "default.xex") && !ok(dir + "default.xbe") && NoDefaults(ok, sub, tail, n) {
      forall k | 0 <= k < n + 1
        ensures !ok(Dir(dir, via[..k]) + "default.xex") && !ok(Dir(dir, via[..k]) + "default.xbe")
      {
        if k > 0 {
          assert Dir(dir, via[..k - 1 + 1]) == Dir(sub, tail[..k - 1]);
        }
      }
    }
  }

  lemma LookedUpStep(dir: string, via: seq<string>, name: string, q: string)
    requires via != []
    ensures LookedUp(dir, via, name, q) <==>
            q == dir + "default.xex" || q == dir + "default.xbe" || LookedUp(Inside(dir, via[0]), via[1..], name, q)
  {
    var sub, tail := Inside(dir, via[0]), via[1..];
    assert via[..0] == [];
    forall k | 0 <= k <= |tail| ensures Dir(dir, via[..k + 1]) == Dir(sub, tail[..k]) {
      assert via[..k + 1][1..] == tail[..k];
    }
    if k :| 0 <= k <= |via| && (q == Dir(dir, via[..k]) + "default.xex" || q == Dir(dir, via[..k]) + "default.xbe") {
      if k > 0 {
        assert Dir(dir, via[..k - 1 + 1]) == Dir(sub, tail[..k - 1]);
      }
    }
    if k :| 0 <= k <= |tail| && (q == Dir(sub, tail[..k]) + "default.xex" || q == Dir(sub, tail[..k]) + "default.xbe") {
      assert Dir(dir, via[..k + 1]) == Dir(sub, tail[..k]);
    }
  }

  lemma OnOfferStep(ok: string -> bool, dir: string, l: Listing, levels: int, via: seq<string>, name: string)
    requires via != []
    ensures OnOffer(ok, dir, l, levels, via, name) <==>
            && !ok(dir + XEX) && !ok(dir + XBE) && Enters(levels)
            && FolderNamed(l, via[0]).Some?
            && OnOffer(ok, Inside(dir, via[0]), FolderNamed(l, via[0]).value, Below(levels), via[1..], name)
  {
    NoDefaultsStep(ok, dir, via, |via| - 1);
  }

  /** The path of a file below a folder is below the folder. */
  lemma {:induction false} DirIsBelow(dir: string, via: seq<string>, name: string)
    ensures dir <= Dir(dir, via) && |Dir(dir, via)| >= |dir| + |via|
    ensures via != [] ==> Inside(dir, via[0]) <= Dir(dir, via) + name && At(dir, via[0], Dir(dir, via) + name)
    decreases |via|
  {
    if via != [] {
      DirIsBelow(Inside(dir, via[0]), via[1..], name);
    }
  }

  // ---------------------------------------------------- in a directory

  lemma {:induction false} FilesYield(ok: string -> bool, dir: string, l: Listing, levels: int, here: seq<string>, name: string)
    requires HasFile(l, name) && ok(dir + name)
    ensures Found(dir + name, name, here + [dir + name]) in YieldsOfEach(ok, dir, l, levels, here)
    decreases l
  {
    if l.entry != File(name) {
      FilesYield(ok, dir, l.rest, levels, here, name);
    }
  }

  lemma {:induction false} FoldersYield(ok: string -> bool, dir: string, l: Listing, levels: int, here: seq<string>, name: string, y: Found)
    requires FolderNamed(l, name).Some? && Enters(levels)
    requires y in Yields(ok, Inside(dir, name), FolderNamed(l, name).value, Below(levels), here)
    ensures y in YieldsOfEach(ok, dir, l, levels, here)
    decreases l
  {
    if !(l.entry.Folder? && l.entry.name == name) {
      FoldersYield(ok, dir, l.rest, levels, here, name, y);
    }
  }

  /** What a directory yields at or below a name comes from the entry of that name. */
  lemma {:induction false} YieldedByName(ok: string -> bool, dir: string, l: Listing, levels: int, here: seq<string>, name: string, y: Found)
    requires WellFormed(l) && y in YieldsOfEach(ok, dir, l, levels, here)
    requires '\\' !in name && At(dir, name, y.path)
    ensures || (HasFile(l, name) && ok(dir + name) && y == Found(dir + name, name, here + [dir + name]))
            || (FolderNamed(l, name).Some? && Enters(levels)
                && y in Yields(ok, Inside(dir, name), FolderNamed(l, name).value, Below(levels), here))
    decreases l
  {
    var e := l.entry;
    if y in YieldsOfEntry(ok, dir, e, levels, here) {
      YieldsOfEntryAreSound(ok, dir, e, levels, here);
      OneName(dir, e.name, name, y.path);
    } else {
      YieldsOfEachAreSound(ok, dir, l.rest, levels, here);
      NoSeparators(l.rest);
      var m :| m in Names(l.rest) && At(dir, m, y.path);
      OneName(dir, m, name, y.path);
      YieldedByName(ok, dir, l.rest, levels, here, name, y);
    }
  }

  // ---------------------------------------------------- in a tree

  /** What is on offer is found, with just the lookups of the chain. */
  lemma {:induction false} OfferedIsFound(ok: string -> bool, dir: string, l: Listing, levels: int, above: seq<string>, via: seq<string>, name: string)
    returns (y: Found)
    requires OnOffer(ok, dir, l, levels, via, name)
    ensures y in Yields(ok, dir, l, levels, above) && y.path == Dir(dir, via) + name
    ensures forall q :: q in y.lookups <==> q in above || LookedUp(dir, via, name, q)
    decreases |via|
  {
    var here := above + [dir + XEX, dir + XBE];
    if via == [] {
      assert via[..0] == [];
      if name == XEX || name == XBE {
        y := Found(dir + name, name, here);
      } else {
        FilesYield(ok, dir, l, levels, here, name);
        y := Found(dir + name, name, here + [dir + name]);
      }
    } else {
      OnOfferStep(ok, dir, l, levels, via, name);
      y := OfferedIsFound(ok, Inside(dir, via[0]), FolderNamed(l, via[0]).value, Below(levels), here, via[1..], name);
      FoldersYield(ok, dir, l, levels, here, via[0], y);
      forall q ensures q in y.lookups <==> q in above || LookedUp(dir, via, name, q) {
        LookedUpStep(dir, via, name, q);
      }
    }
  }

  /** What is found is on offer. */
  lemma {:induction false} FoundIsOffered(ok: string -> bool, dir: string, l: Listing, levels: int, above: seq<string>, via: seq<string>, name: string, y: Found)
    requires WellFormed(l) && Clean(via, name) && y in Yields(ok, dir, l, levels, above) && y.path == Dir(dir, via) + name
    ensures OnOffer(ok, dir, l, levels, via, name)
    decreases |via|
  {
    var here := above + [dir + XEX, dir + XBE];
    var p := y.path;
    DirIsBelow(dir, via, name);
    if ok(dir + XEX) || ok(dir + XBE) {
      DefaultIsHere(dir, via, name, if ok(dir + XEX) then XEX else XBE);
    } else if via == [] {
      assert via[..0] == [];
      YieldedByName(ok, dir, l, levels, here, name, y);
      NotInOwnFolder(ok, dir, l, levels, here, name, y);
    } else {
      YieldedByName(ok, dir, l, levels, here, via[0], y);
      assert |Inside(dir, via[0])| <= |p|;
      FolderIsWellFormed(l, via[0]);
      FoundIsOffered(ok, Inside(dir, via[0]), FolderNamed(l, via[0]).value, Below(levels), here, via[1..], name, y);
      OnOfferStep(ok, dir, l, levels, via, name);
    }
  }

  /** The path of a default file of a directory is that of no file in a folder below. */
  lemma DefaultIsHere(dir: string, via: seq<string>, name: string, n: string)
    requires Clean(via, name) && '\\' !in n && dir + n == Dir(dir, via) + name
    ensures via == [] && name == n
  {
    DirIsBelow(dir, via, name);
    if via != [] {
      OneName(dir, n, via[0], dir + n);
    } else {
      assert (dir + n)[|dir|..] == n && (dir + name)[|dir|..] == name;
    }
  }

  lemma {:induction false} FolderIsWellFormed(l: Listing, name: string)
    requires WellFormed(l)
    ensures FolderNamed(l, name).Some? ==> WellFormed(FolderNamed(l, name).value)
  {
    if l.Next? {
      FolderIsWellFormed(l.rest, name);
    }
  }

  lemma NotInOwnFolder(ok: string -> bool, dir: string, l: Listing, levels: int, here: seq<string>, name: string, y: Found)
    requires y.path == dir + name
    ensures FolderNamed(l, name).Some? && Enters(levels) ==>
              y !in Yields(ok, Inside(dir, name), FolderNamed(l, name).value, Below(levels), here)
  {
    if FolderNamed(l, name).Some? && Enters(levels) {
      YieldsAreSound(ok, Inside(dir, name), FolderNamed(l, name).value, Below(levels), here);
    }
  }

  // ---------------------------------------------------- the main results

  /**
    * For every depth and every chain of folders: a file is among those that a scan is after exactly when it is on
    * offer, and what is looked up for it is its own path and the two default files of every directory on the way.
    */
  lemma OfferIs(ok: string -> bool, dir: string, l: Listing, levels: int, via: seq<string>, name: string)
    requires WellFormed(l) && Clean(via, name)
    ensures (exists y | y in Offer(ok, dir, l, levels) :: y.path == Dir(dir, via) + name) <==>
              && ok(Dir(dir, via) + name)
              && Open(l, via).Some?
              && (levels == -1 || |via| <= levels || |via| == 0)
              && (forall k | 0 <= k < |via| :: !ok(Dir(dir, via[..k]) + "default.xex") && !ok(Dir(dir, via[..k]) + "default.xbe"))
              && (name == "default.xex" || !ok(Dir(dir, via) + "default.xex"))
              && (name == "default.xex" || name == "default.xbe" ||
                  (!ok(Dir(dir, via) + "default.xbe") && HasFile(Open(l, via).value, name)))
    ensures forall y, q | y in Offer(ok, dir, l, levels) && y.path == Dir(dir, via) + name ::
              q in y.lookups <==>
                q == Dir(dir, via) + name ||
                exists k | 0 <= k <= |via| :: q == Dir(dir, via[..k]) + "default.xex" || q == Dir(dir, via[..k]) + "default.xbe"
    ensures (exists y | y in Offer(ok, dir, l, levels) :: y.path == Dir(dir, via) + name) <==> OnOffer(ok, dir, l, levels, via, name)
    ensures forall y, q | y in Offer(ok, dir, l, levels) && y.path == Dir(dir, via) + name ::
              q in y.lookups <==> LookedUp(dir, via, name, q)
  {
    if OnOffer(ok, dir, l, levels, via, name) {
      var y := OfferedIsFound(ok, dir, l, levels, [], via, name);
      YieldsOnce(ok, dir, l, levels, []);
      forall z | z in Offer(ok, dir, l, levels) && z.path == Dir(dir, via) + name ensures z == y {
        SelfHit(Offer(ok, dir, l, levels), y, z);
      }
    }
    forall y | y in Offer(ok, dir, l, levels) && y.path == Dir(dir, via) + name
      ensures OnOffer(ok, dir, l, levels, via, name)
    {
      FoundIsOffered(ok, dir, l, levels, [], via, name, y);
    }
  }

  /**
    * A scan adds an item for a file exactly when the file is on offer and, if the scan path is registered, no row of
    * any scan path has its path or that of a default file in one of the directories on the way to it.
    */
  lemma ScanAddsIff(w: Store, sp: nat, ok: string -> bool, dir: string, l: Listing, levels: int, via: seq<string>, name: string)
    requires WellFormed(l) && Clean(via, name)
    ensures var after := Scanned(w, sp, ok, dir, l, levels).list;
            && |after| >= |w.list|
            && ((exists i | |w.list| <= i < |after| :: after[i].path == Dir(dir, via) + name) <==>
                && OnOffer(ok, dir, l, levels, via, name)
                && (sp in w.registered ==> forall r | r in w.rows :: !LookedUp(dir, via, name, r.path)))
  {
    hide Scanned, OnOffer, LookedUp, Offer;
    var p, seen := Dir(dir, via) + name, Seen(w, sp);
    var news := Unmasked(seen, Offer(ok, dir, l, levels));
    var after := Scanned(w, sp, ok, dir, l, levels).list;
    ScanGrows(w, sp, ok, dir, l, levels);
    OfferIs(ok, dir, l, levels, via, name);
    AtTheEnd(w.list, after, sp, news, p);
    forall y | y in Offer(ok, dir, l, levels) && y.path == p
      ensures Masked(seen, y) <==> sp in w.registered && exists r | r in w.rows :: LookedUp(dir, via, name, r.path)
    {
      MaskedIff(w, sp, y);
    }
  }

  lemma AtTheEnd(before: seq<Content>, after: seq<Content>, sp: nat, news: seq<Found>, p: string)
    requires GrownBy(before, after, sp, news)
    ensures (exists i | |before| <= i < |after| :: after[i].path == p) <==> exists y | y in news :: y.path == p
  {
    if i :| |before| <= i < |after| && after[i].path == p {
      assert after[|before| + (i - |before|)].path == news[i - |before|].path;
    }
    if y :| y in news && y.path == p {
      var k :| 0 <= k < |news| && news[k] == y;
      assert after[|before| + k].path == p;
    }
  }

  lemma MaskedIff(w: Store, sp: nat, y: Found)
    ensures Masked(Seen(w, sp), y) <==> sp in w.registered && exists r | r in w.rows :: r.path in y.lookups
  {
    if Masked(Seen(w, sp), y) {
      var q := AHit(Seen(w, sp), y);
      var r :| r in w.rows && r.path == q;
    }
    if sp in w.registered && exists r | r in w.rows :: r.path in y.lookups {
      var r :| r in w.rows && r.path in y.lookups;
      assert r.path in Seen(w, sp);
    }
  }
}
