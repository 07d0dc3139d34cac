/** The manager of the content list: loading, scanning, deleting, and the queue of scan paths. */
module ContentManager {
  import opened ContentTree
  import opened ContentStore
  import opened ContentLaws

  datatype ScanPath = ScanPath(id: nat, path: string, depth: int)

  datatype Option<T> = None | Some(value: T)

  class ContentManager {
    var contentItems: seq<Content>
    var scanPathQueue: seq<ScanPath>

    /** The tables ContentItems and ScanPaths of the database. */
    var rows: seq<Content>
    var scanPaths: set<nat>

    /** The ids of the rows that the list was loaded without. */
    ghost var hidden: set<nat>

    ghost predicate Valid()
      reads this
    {
      forall r | r in rows :: r.id > 0
    }

    ghost function Value(): Store
      reads this
    {
      Store(contentItems, rows, scanPaths, hidden)
    }

    // -------------------------------------------------- the database

    /** The last row fetched decides; ids start at one. */
    method ItemPathExistsInDB(path: string, sp: nat) returns (found: bool)
      requires Valid()
      ensures found <==> path in Seen(Value(), sp)
    {
      var contentId := 0;
      for i := 0 to |rows|
        invariant contentId != 0 <==> sp in scanPaths && exists k | 0 <= k < i :: rows[k].path == path
      {
        if rows[i].path == path && sp in scanPaths {
          contentId := rows[i].id;
        }
      }
      return contentId != 0;
    }

    /** The id is given back even when the insertion is refused. */
    method AddContentItem(path: string, name: string, sp: nat) returns (id: nat)
      requires Valid()
      modifies this`rows
      ensures Valid()
      ensures id == NewRow(old(rows), path, name, sp).id
      ensures rows == Inserted(old(rows), NewRow(old(rows), path, name, sp))
      ensures rows == if exists r | r in old(rows) :: r.path == path && r.fileName == name && r.scanPathId == sp then old(rows)
                      else old(rows) + [Content(id, path, name, sp)]
      ensures if old(rows) == [] then id == 1 else exists r | r in old(rows) :: id == r.id + 1
      ensures forall r | r in old(rows) :: r.id < id
    {
      id := MaxId(rows) + 1;
      var row := Content(id, path, name, sp);
      if !Conflicts(rows, row) {
        rows := rows + [row];
      }
    }

    method DeleteContentItem(id: nat)
      requires Valid()
      modifies this`rows
      ensures Valid()
      ensures rows == Without(old(rows), {id})
    {
      rows := Without(rows, {id});
    }

    // -------------------------------------------------- scanning

    /** `ok` says of a file of this device whether it opens as an item. */
    method CreateItem(sp: nat, directory: string, name: string, ok: string -> bool) returns (item: Option<Content>)
      requires Valid()
      modifies this`rows
      ensures Valid()
      ensures var path := AfterColon(directory) + name;
              if ok(path) then
                var c := NewRow(old(rows), path, name, sp);
                item == Some(c) && rows == Inserted(old(rows), c)
              else item == None && rows == old(rows)
      ensures forall device, d | directory == device + ":" + d && ':' !in device ::
                if ok(d + name) then item.Some? && item.value.path == d + name && item.value.fileName == name && item.value.scanPathId == sp
                else item == None && rows == old(rows)
    {
      forall device, d | directory == device + ":" + d && ':' !in device ensures AfterColon(directory) == d {
        AfterDevice(device, d);
      }
      var path := AfterColon(directory) + name;
      if !ok(path) {
        return None;
      }
      var id := AddContentItem(path, name, sp);
      return Some(Content(id, path, name, sp));
    }

    method AddItem(item: Content)
      modifies this`contentItems
      ensures contentItems == old(contentItems) + [item]
    {
      contentItems := contentItems + [item];
    }

    /** Makes the item of one file, if it is one, and puts it into the list. */
    method TryFile(sp: nat, directory: string, name: string, ok: string -> bool) returns (added: bool)
      requires Valid()
      modifies this`rows, this`contentItems
      ensures Valid()
      ensures added == ok(AfterColon(directory) + name)
      ensures Value() == if added then Added(old(Value()), sp, AfterColon(directory) + name, name) else old(Value())
    {
      var item := CreateItem(sp, directory, name, ok);
      if item.Some? {
        AddItem(item.value);
      }
      return item.Some?;
    }

    method ScanDirectory(sp: nat, directory: string, listing: Listing, levels: int, ok: string -> bool)
      requires Valid() && WellFormed(listing)
      modifies this`rows, this`contentItems
      ensures Valid()
      ensures Value() == Scanned(old(Value()), sp, ok, AfterColon(directory), listing, levels)
      decreases Size(listing)
    {
      ghost var dir := AfterColon(directory);
      AfterColonJoins(directory, XEX);
      AfterColonJoins(directory, XBE);
      var found := ItemPathExistsInDB(AfterColon(directory + XEX), sp);
      if found {
        return;
      }
      found := ItemPathExistsInDB(AfterColon(directory + XBE), sp);
      if found {
        return;
      }
      var added := TryFile(sp, directory, XEX, ok);
      if added {
        return;
      }
      added := TryFile(sp, directory, XBE, ok);
      if added {
        return;
      }
      var rest := listing;
      while rest.Next?
        invariant Valid() && WellFormed(rest) && Size(rest) <= Size(listing)
        invariant ScannedEach(Value(), sp, ok, dir, rest, levels) == ScannedEach(old(Value()), sp, ok, dir, listing, levels)
        decreases Size(rest)
      {
        var name := rest.entry.name;
        if rest.entry.Folder? {
          var nextDirectory := directory + name + "\\";
          SubdirectoryJoins(directory, name);
          if levels == -1 {
            ScanDirectory(sp, nextDirectory, rest.entry.inside, -1, ok);
          } else if levels > 0 {
            ScanDirectory(sp, nextDirectory, rest.entry.inside, levels - 1, ok);
          }
        } else {
          AfterColonJoins(directory, name);
          found := ItemPathExistsInDB(AfterColon(directory + name), sp);
          if !found {
            added := TryFile(sp, directory, name, ok);
          }
        }
        rest := rest.rest;
      }
    }

    // -------------------------------------------------- deleting

    method DeleteItem(item: Content)
      requires Valid()
      modifies this`rows, this`contentItems
      ensures Valid()
      ensures Value() == Deleted(old(Value()), item)
    {
      var i := 0;
      while i < |contentItems|
        invariant 0 <= i <= |contentItems| && contentItems == old(contentItems)
        invariant WithoutFirst(contentItems, item) == contentItems[..i] + WithoutFirst(contentItems[i..], item)
      {
        if contentItems[i] == item {
          contentItems := contentItems[..i] + contentItems[i + 1..];
          break;
        }
        i := i + 1;
      }
      DeleteContentItem(item.id);
    }

    /** After every removal the loop starts over; the list is shorter then. */
    method RemoveScanPath(sp: nat)
      requires Valid()
      modifies this`rows, this`contentItems
      ensures Valid()
      ensures Value() == Removed(old(Value()), sp)
    {
      ghost var gone: set<nat> := {};
      WithoutNone(rows);
      var begin := true;
      while begin
        invariant Valid() && rows == Without(old(rows), gone)
        invariant OfOthers(contentItems, sp) == OfOthers(old(contentItems), sp)
        invariant gone + IdsOfPath(contentItems, sp) == IdsOfPath(old(contentItems), sp)
        invariant !begin ==> forall c | c in contentItems :: c.scanPathId != sp
        decreases |contentItems|, begin
      {
        begin := false;
        var i := 0;
        while i < |contentItems|
          invariant 0 <= i <= |contentItems| && !begin
          invariant forall k | 0 <= k < i :: contentItems[k].scanPathId != sp
          invariant Valid() && rows == Without(old(rows), gone)
          invariant OfOthers(contentItems, sp) == OfOthers(old(contentItems), sp)
          invariant gone + IdsOfPath(contentItems, sp) == IdsOfPath(old(contentItems), sp)
        {
          var content := contentItems[i];
          if content.scanPathId == sp {
            OneOfPathLess(contentItems, i, sp);
            WithoutTwice(old(rows), gone, {content.id});
            contentItems := contentItems[..i] + contentItems[i + 1..];
            DeleteContentItem(content.id);
            gone := gone + {content.id};
            begin := true;
            break;
          }
          i := i + 1;
        }
      }
      OthersOnly(contentItems, sp);
      assert IdsOfPath(contentItems, sp) == {};
    }

    // -------------------------------------------------- the queue

    method AddScanPath(scanPath: ScanPath)
      modifies this`scanPathQueue
      ensures scanPathQueue == old(scanPathQueue) + [scanPath]
    {
      scanPathQueue := scanPathQueue + [scanPath];
    }

    method UpdateScanPath(scanPath: ScanPath)
      requires Valid()
      modifies this`rows, this`contentItems, this`scanPathQueue
      ensures Valid()
      ensures Value() == Removed(old(Value()), scanPath.id)
      ensures scanPathQueue == old(scanPathQueue) + [scanPath]
    {
      RemoveScanPath(scanPath.id);
      AddScanPath(scanPath);
    }

    /** One turn of the manager's thread: the first path of the queue is taken off and scanned. */
    method ProcessNext(listing: Listing, ok: string -> bool) returns (scanned: bool)
      requires Valid() && WellFormed(listing)
      modifies this`rows, this`contentItems, this`scanPathQueue
      ensures Valid() && scanned == (old(scanPathQueue) != [])
      ensures scanned ==>
                var p := old(scanPathQueue)[0];
                scanPathQueue == old(scanPathQueue)[1..] &&
                Value() == Scanned(old(Value()), p.id, ok, AfterColon(p.path), listing, p.depth)
      ensures !scanned ==> scanPathQueue == [] && Value() == old(Value())
    {
      if |scanPathQueue| == 0 {
        return false;
      }
      var scanPath := scanPathQueue[0];
      scanPathQueue := scanPathQueue[1..];
      ScanDirectory(scanPath.id, scanPath.path, listing, scanPath.depth, ok);
      return true;
    }

    // -------------------------------------------------- loading

    /**
      * `times` says how often the query yields a row; `paths` are the scan paths whose devices are mounted.
      * What is in the list already stays in front.
      */
    method Initialize(times: Content -> nat, paths: seq<ScanPath>, autoScanDisabled: bool)
      requires Valid()
      modifies this`contentItems, this`hidden, this`scanPathQueue
      ensures contentItems == old(contentItems) + Loaded(rows, scanPaths, times).list
      ensures old(contentItems) == [] ==> Value() == Loaded(rows, scanPaths, times)
      ensures scanPathQueue == if autoScanDisabled then old(scanPathQueue) else old(scanPathQueue) + paths
    {
      hidden := HiddenIds(rows, times);
      var dbItems := Fetched(rows, times);
      var x := 0;
      while x < |dbItems|
        invariant 0 <= x <= |dbItems|
        invariant contentItems == old(contentItems) + dbItems[..x]
        modifies this`contentItems
      {
        contentItems := contentItems + [dbItems[x]];
        x := x + 1;
      }
      if !autoScanDisabled {
        for k := 0 to |paths|
          invariant scanPathQueue == old(scanPathQueue) + paths[..k]
          modifies this`scanPathQueue
        {
          AddScanPath(paths[k]);
        }
      }
    }
  }

  /** The steps of a run are the calls of the class; the table of scan paths is changed from outside. */
  method Perform(manager: ContentManager, op: Op)
    requires manager.Valid() && (op.Scan? ==> WellFormed(op.l))
    modifies manager`rows, manager`contentItems, manager`scanPaths
    ensures manager.Valid()
    ensures op.Scan? ==> manager.Value() == Do(old(manager.Value()), op.(dir := AfterColon(op.dir)))
    ensures !op.Scan? ==> manager.Value() == Do(old(manager.Value()), op)
  {
    match op
    case Scan(sp, ok, dir, l, levels) => manager.ScanDirectory(sp, dir, l, levels, ok);
    case Delete(c) => manager.DeleteItem(c);
    case Remove(sp) => manager.RemoveScanPath(sp);
    case Register(sp) => manager.scanPaths := manager.scanPaths + {sp};
    case Unregister(sp) => manager.scanPaths := manager.scanPaths - {sp};
  }

  lemma {:induction false} WithoutNone(cs: seq<Content>)
    ensures Without(cs, {}) == cs
    decreases |cs|
  {
    NoneToLeaveOut(cs, {});
  }

  lemma {:induction false} OthersJoins(xs: seq<Content>, ys: seq<Content>, sp: nat)
    ensures OfOthers(xs + ys, sp) == OfOthers(xs, sp) + OfOthers(ys, sp)
    decreases |xs|
  {
    if xs == [] {
      assert xs + ys == ys;
    } else {
      assert (xs + ys)[1..] == xs[1..] + ys;
      OthersJoins(xs[1..], ys, sp);
    }
  }

  lemma {:induction false} OthersOnly(cs: seq<Content>, sp: nat)
    requires forall c | c in cs :: c.scanPathId != sp
    ensures OfOthers(cs, sp) == cs
    decreases |cs|
  {
    if cs != [] {
      assert cs[0] in cs && forall c | c in cs[1..] :: c in cs;
      OthersOnly(cs[1..], sp);
    }
  }

  lemma OneOfPathLess(cs: seq<Content>, i: nat, sp: nat)
    requires i < |cs| && cs[i].scanPathId == sp
    ensures OfOthers(cs[..i] + cs[i + 1..], sp) == OfOthers(cs, sp)
    ensures {cs[i].id} + IdsOfPath(cs[..i] + cs[i + 1..], sp) == IdsOfPath(cs, sp)
  {
    assert cs == cs[..i] + ([cs[i]] + cs[i + 1..]);
    OthersJoins(cs[..i], [cs[i]] + cs[i + 1..], sp);
    OthersJoins([cs[i]], cs[i + 1..], sp);
    OthersJoins(cs[..i], cs[i + 1..], sp);
    forall c ensures c in cs <==> c == cs[i] || c in cs[..i] + cs[i + 1..] {
    }
  }

  lemma SubdirectoryJoins(directory: string, name: string)
    requires ':' !in name
    ensures AfterColon(directory + name + "\\") == Inside(AfterColon(directory), name)
  {
    assert directory + name + "\\" == directory + (name + "\\");
    AfterColonJoins(directory, name + "\\");
    assert AfterColon(directory) + (name + "\\") == Inside(AfterColon(directory), name);
  }
}
