/** The files below a scan path, and which of them a scan is after. */
module ContentTree {

  /** One directory, in the order in which it is enumerated. */
  datatype Listing = End | Next(entry: Entry, rest: Listing)
  datatype Entry = File(name: string) | Folder(name: string, inside: Listing)

  const XEX := "default.xex"
  const XBE := "default.xbe"

  /** The part of a path after its device. */
  function AfterColon(p: string): (r: string)
    ensures |r| <= |p|
  {
    if ':' !in p then p else if p[0] == ':' then p[1..] else AfterColon(p[1..])
  }

  /** Of a path on a device, the path is left; a path without a device is left as it is. */
  lemma {:induction false} AfterDevice(device: string, d: string)
    requires ':' !in device
    ensures AfterColon(device + ":" + d) == d && AfterColon(device) == device
    decreases |device|
  {
    if device != "" {
      assert (device + ":" + d)[1..] == device[1..] + ":" + d;
      AfterDevice(device[1..], d);
    }
  }

  /** Cutting the device off a directory or off a file in it comes to the same. */
  lemma {:induction false} AfterColonJoins(d: string, x: string)
    requires ':' !in x
    ensures AfterColon(d + x) == AfterColon(d) + x
    decreases |d|
  {
    if ':' in d {
      assert ':' in d + x && (d + x)[0] == d[0] && (d + x)[1..] == d[1..] + x;
      if d[0] != ':' {
        AfterColonJoins(d[1..], x);
      }
    } else {
      assert ':' !in d + x;
    }
  }

  function Names(l: Listing): set<string> {
    match l
    case End => {}
    case Next(e, rest) => {e.name} + Names(rest)
  }

  /** No two entries of a directory have the same name, and no name holds a separator. */
  predicate WellFormed(l: Listing) {
    match l
    case End => true
    case Next(e, rest) =>
      && e.name !in Names(rest) && '\\' !in e.name && ':' !in e.name
      && WellFormed(rest) && (e.Folder? ==> WellFormed(e.inside))
  }

  function Size(l: Listing): nat {
    match l
    case End => 0
    case Next(File(_), rest) => 1 + Size(rest)
    case Next(Folder(_, inside), rest) => 1 + Size(inside) + Size(rest)
  }

  function Inside(dir: string, name: string): string {
    dir + name + "\\"
  }

  // ---------------------------------------------------- depth

  /** Whether subdirectories are entered. */
  predicate Enters(levels: int) {
    levels == -1 || levels > 0
  }

  function Below(levels: int): int
    requires Enters(levels)
  {
    if levels == -1 then -1 else levels - 1
  }

  /** The second depth goes at least as far as the first. */
  predicate NoDeeper(levels: int, more: int) {
    more == -1 || (levels != -1 && levels <= more) || !Enters(levels)
  }

  // ---------------------------------------------------- what there is to find

  /** A file that makes an item, with every path that is looked up in the database on the way to it. */
  datatype Found = Found(path: string, name: string, lookups: seq<string>)

  /**
    * What a directory has: a good default.xex alone, else a good default.xbe alone,
    * else its good files and what its subdirectories have.
    */
  function Yields(ok: string -> bool, dir: string, l: Listing, levels: int, above: seq<string>): seq<Found>
    decreases l, 1
  {
    var here := above + [dir + XEX, dir + XBE];
    if ok(dir + XEX) then [Found(dir + XEX, XEX, here)]
    else if ok(dir + XBE) then [Found(dir + XBE, XBE, here)]
    else YieldsOfEach(ok, dir, l, levels, here)
  }

  function YieldsOfEach(ok: string -> bool, dir: string, l: Listing, levels: int, here: seq<string>): seq<Found>
    decreases l, 0
  {
    match l
    case End => []
    case Next(e, rest) => YieldsOfEntry(ok, dir, e, levels, here) + YieldsOfEach(ok, dir, rest, levels, here)
  }

  function YieldsOfEntry(ok: string -> bool, dir: string, e: Entry, levels: int, here: seq<string>): seq<Found>
    decreases e, 2
  {
    match e
    case File(n) => if ok(dir + n) then [Found(dir + n, n, here + [dir + n])] else []
    case Folder(n, inside) => if Enters(levels) then Yields(ok, Inside(dir, n), inside, Below(levels), here) else []
  }

  function Paths(ys: seq<Found>): set<string> {
    set y | y in ys :: y.path
  }

  // ---------------------------------------------------- where the paths are

  /** A path is an entry of a directory, or below it. */
  predicate At(dir: string, name: string, p: string) {
    p == dir + name || Inside(dir, name) <= p
  }

  lemma OneName(dir: string, n: string, m: string, p: string)
    requires '\\' !in n && '\\' !in m && At(dir, n, p) && At(dir, m, p)
    ensures n == m
  {
    var d := |dir|;
    assert Inside(dir, n)[d + |n|] == '\\' && Inside(dir, m)[d + |m|] == '\\';
    assert p[d..d + |n|] == n && p[d..d + |m|] == m;
  }

  /** Everything about one found file that does not depend on the others. */
  ghost predicate Sound(ok: string -> bool, dir: string, above: seq<string>, y: Found) {
    && ok(y.path) && y.path in y.lookups && dir <= y.path
    && (forall a | a in above :: a in y.lookups)
    && (forall l | l in y.lookups :: l in above || dir <= l)
  }

  lemma {:induction false} YieldsAreSound(ok: string -> bool, dir: string, l: Listing, levels: int, above: seq<string>)
    ensures forall y | y in Yields(ok, dir, l, levels, above) ::
              Sound(ok, dir, above, y) && dir + XEX in y.lookups && dir + XBE in y.lookups
    decreases l, 1
  {
    var here := above + [dir + XEX, dir + XBE];
    YieldsOfEachAreSound(ok, dir, l, levels, here);
    forall y | y in YieldsOfEach(ok, dir, l, levels, here)
      ensures Sound(ok, dir, above, y) && dir + XEX in y.lookups && dir + XBE in y.lookups
    {
      assert SoundAt(ok, dir, Names(l), here, y);
      assert dir + XEX in here && dir + XBE in here;
    }
  }

  /** As `Sound`, for an entry of one of these names. */
  ghost predicate SoundAt(ok: string -> bool, dir: string, names: set<string>, here: seq<string>, y: Found) {
    && ok(y.path) && y.path in y.lookups && dir <= y.path
    && (exists n | n in names :: At(dir, n, y.path))
    && (forall h | h in here :: h in y.lookups)
    && (forall l | l in y.lookups :: l in here || (dir <= l && exists n | n in names :: At(dir, n, l)))
  }

  lemma {:induction false} YieldsOfEntryAreSound(ok: string -> bool, dir: string, e: Entry, levels: int, here: seq<string>)
    ensures forall y | y in YieldsOfEntry(ok, dir, e, levels, here) :: SoundAt(ok, dir, {e.name}, here, y)
    decreases e, 2
  {
    if e.Folder? && Enters(levels) {
      var sub := Inside(dir, e.name);
      YieldsAreSound(ok, sub, e.inside, Below(levels), here);
      forall y | y in Yields(ok, sub, e.inside, Below(levels), here)
        ensures SoundAt(ok, dir, {e.name}, here, y)
      {
        assert Sound(ok, sub, here, y);
        assert dir <= sub;
        assert At(dir, e.name, y.path);
        forall p | p in y.lookups ensures p in here || (dir <= p && exists n | n in {e.name} :: At(dir, n, p)) {
          if p !in here {
            assert At(dir, e.name, p);
          }
        }
      }
    } else if e.File? {
      assert At(dir, e.name, dir + e.name);
    }
  }

  lemma {:induction false} YieldsOfEachAreSound(ok: string -> bool, dir: string, l: Listing, levels: int, here: seq<string>)
    ensures forall y | y in YieldsOfEach(ok, dir, l, levels, here) :: SoundAt(ok, dir, Names(l), here, y)
    decreases l, 0
  {
    if l.Next? {
      YieldsOfEntryAreSound(ok, dir, l.entry, levels, here);
      YieldsOfEachAreSound(ok, dir, l.rest, levels, here);
      forall y | y in YieldsOfEach(ok, dir, l, levels, here)
        ensures SoundAt(ok, dir, Names(l), here, y)
      {
        if y in YieldsOfEntry(ok, dir, l.entry, levels, here) {
          SoundAtMore(ok, dir, {l.entry.name}, Names(l), here, y);
        } else {
          SoundAtMore(ok, dir, Names(l.rest), Names(l), here, y);
        }
      }
    }
  }

  lemma SoundAtMore(ok: string -> bool, dir: string, names: set<string>, more: set<string>, here: seq<string>, y: Found)
    requires SoundAt(ok, dir, names, here, y) && names <= more
    ensures SoundAt(ok, dir, more, here, y)
  {
  }

  // ---------------------------------------------------- the found files among themselves

  /** The lookups for one are not the path of the other, either way. */
  ghost predicate Apart(y: Found, z: Found) {
    y.path !in z.lookups && z.path !in y.lookups
  }

  /** What entries of different names have to offer does not meet, once nothing above it is a good file. */
  lemma OtherNamesAreApart(ok: string -> bool, dir: string, names: set<string>, others: set<string>, here: seq<string>, y: Found, z: Found)
    requires SoundAt(ok, dir, names, here, y) && SoundAt(ok, dir, others, here, z)
    requires names !! others && (forall h | h in here :: !ok(h))
    requires forall n | n in names + others :: '\\' !in n
    ensures Apart(y, z)
  {
    if y.path in z.lookups {
      var n :| n in names && At(dir, n, y.path);
      var m :| m in others && At(dir, m, y.path);
      OneName(dir, n, m, y.path);
    }
    if z.path in y.lookups {
      var n :| n in names && At(dir, n, z.path);
      var m :| m in others && At(dir, m, z.path);
      OneName(dir, n, m, z.path);
    }
  }

  lemma {:induction false} NoSeparators(l: Listing)
    requires WellFormed(l)
    ensures forall n | n in Names(l) :: '\\' !in n
  {
    if l.Next? {
      NoSeparators(l.rest);
    }
  }

  /** The first entry and the rest of a directory do not meet. */
  lemma EntryApartFromRest(ok: string -> bool, dir: string, l: Listing, levels: int, here: seq<string>)
    requires l.Next? && WellFormed(l) && (forall h | h in here :: !ok(h))
    ensures forall y, z | y in YieldsOfEntry(ok, dir, l.entry, levels, here) && z in YieldsOfEach(ok, dir, l.rest, levels, here) ::
              Apart(y, z)
  {
    YieldsOfEntryAreSound(ok, dir, l.entry, levels, here);
    YieldsOfEachAreSound(ok, dir, l.rest, levels, here);
    NoSeparators(l);
    forall y, z | y in YieldsOfEntry(ok, dir, l.entry, levels, here) && z in YieldsOfEach(ok, dir, l.rest, levels, here)
      ensures Apart(y, z)
    {
      OtherNamesAreApart(ok, dir, {l.entry.name}, Names(l.rest), here, y, z);
    }
  }

  /** Each is found once, and the path of one is looked up only for itself. */
  ghost predicate EachOnce(ys: seq<Found>) {
    && (forall y | y in ys :: y.path in y.lookups)
    && (forall i, j | 0 <= i < |ys| && 0 <= j < |ys| && i != j :: Apart(ys[i], ys[j]))
  }

  lemma EachOnceJoins(xs: seq<Found>, ys: seq<Found>)
    requires EachOnce(xs) && EachOnce(ys) && (forall x, y | x in xs && y in ys :: Apart(x, y))
    ensures EachOnce(xs + ys)
  {
    var all := xs + ys;
    forall i, j | 0 <= i < |all| && 0 <= j < |all| && i != j ensures Apart(all[i], all[j]) {
      if i < |xs| <= j {
        assert all[i] in xs && all[j] in ys;
      } else if j < |xs| <= i {
        assert all[j] in xs && all[i] in ys;
      }
    }
  }

  lemma {:induction false} YieldsOnce(ok: string -> bool, dir: string, l: Listing, levels: int, above: seq<string>)
    requires WellFormed(l) && (forall a | a in above :: !ok(a))
    ensures EachOnce(Yields(ok, dir, l, levels, above))
    decreases l, 1
  {
    if !ok(dir + XEX) && !ok(dir + XBE) {
      YieldsOfEachOnce(ok, dir, l, levels, above + [dir + XEX, dir + XBE]);
    }
  }

  lemma {:induction false} YieldsOfEachOnce(ok: string -> bool, dir: string, l: Listing, levels: int, here: seq<string>)
    requires WellFormed(l) && (forall h | h in here :: !ok(h))
    ensures EachOnce(YieldsOfEach(ok, dir, l, levels, here))
    decreases l, 0
  {
    match l
    case End =>
    case Next(e, rest) =>
      if e.Folder? && Enters(levels) {
        YieldsOnce(ok, Inside(dir, e.name), e.inside, Below(levels), here);
      }
      YieldsOfEachOnce(ok, dir, rest, levels, here);
      EntryApartFromRest(ok, dir, l, levels, here);
      EachOnceJoins(YieldsOfEntry(ok, dir, e, levels, here), YieldsOfEach(ok, dir, rest, levels, here));
  }

  /** A scan that goes no deeper finds nothing that the other one does not find, with the same lookups. */
  lemma {:induction false} DeeperFindsMore(ok: string -> bool, dir: string, l: Listing, levels: int, more: int, above: seq<string>)
    requires NoDeeper(levels, more)
    ensures forall y | y in Yields(ok, dir, l, levels, above) :: y in Yields(ok, dir, l, more, above)
    decreases l, 1
  {
    DeeperFindsMoreOfEach(ok, dir, l, levels, more, above + [dir + XEX, dir + XBE]);
  }

  lemma {:induction false} DeeperFindsMoreOfEach(ok: string -> bool, dir: string, l: Listing, levels: int, more: int, here: seq<string>)
    requires NoDeeper(levels, more)
    ensures forall y | y in YieldsOfEach(ok, dir, l, levels, here) :: y in YieldsOfEach(ok, dir, l, more, here)
    decreases l, 0
  {
    match l
    case End =>
    case Next(e, rest) =>
      DeeperFindsMoreOfEach(ok, dir, rest, levels, more, here);
      DeeperFindsMoreOfEntry(ok, dir, e, levels, more, here);
  }

  lemma {:induction false} DeeperFindsMoreOfEntry(ok: string -> bool, dir: string, e: Entry, levels: int, more: int, here: seq<string>)
    requires NoDeeper(levels, more)
    ensures forall y | y in YieldsOfEntry(ok, dir, e, levels, here) :: y in YieldsOfEntry(ok, dir, e, more, here)
    decreases e, 2
  {
    match e
    case File(_) =>
    case Folder(n, inside) =>
      if Enters(levels) {
        assert Enters(more) && NoDeeper(Below(levels), Below(more));
        DeeperFindsMore(ok, Inside(dir, n), inside, Below(levels), Below(more), here);
      }
  }

  // ---------------------------------------------------- what the database hides

  predicate Masked(seen: set<string>, y: Found) {
    exists p | p in y.lookups :: p in seen
  }

  /** The found files for which no lookup hits, in order. */
  function Unmasked(seen: set<string>, ys: seq<Found>): (r: seq<Found>)
    ensures forall y :: y in r <==> y in ys && !Masked(seen, y)
    ensures r == [] <==> forall y | y in ys :: Masked(seen, y)
  {
    if ys == [] then []
    else if Masked(seen, ys[0]) then Unmasked(seen, ys[1..])
    else [ys[0]] + Unmasked(seen, ys[1..])
  }

  lemma {:induction false} UnmaskedJoins(seen: set<string>, xs: seq<Found>, ys: seq<Found>)
    ensures Unmasked(seen, xs + ys) == Unmasked(seen, xs) + Unmasked(seen, ys)
    decreases |xs|
  {
    if xs == [] {
      assert xs + ys == ys;
    } else {
      assert (xs + ys)[1..] == xs[1..] + ys;
      UnmaskedJoins(seen, xs[1..], ys);
    }
  }

  /** Rows whose paths are looked up for none of these hide none of these. */
  lemma {:induction false} UnmaskedWithMore(seen: set<string>, more: set<string>, ys: seq<Found>)
    requires forall y, p | y in ys && p in y.lookups && p in more :: p in seen
    ensures Unmasked(seen + more, ys) == Unmasked(seen, ys)
    decreases |ys|
  {
    if ys != [] {
      assert forall y | y in ys[1..] :: y in ys;
      assert ys[0] in ys;
      UnmaskedWithMore(seen, more, ys[1..]);
      assert Masked(seen + more, ys[0]) <==> Masked(seen, ys[0]);
    }
  }

  lemma {:induction false} AllUnmaskedIff(seen: set<string>, ys: seq<Found>)
    ensures Unmasked(seen, ys) == ys <==> forall y | y in ys :: !Masked(seen, y)
    ensures |Unmasked(seen, ys)| <= |ys|
    decreases |ys|
  {
    if ys != [] {
      AllUnmaskedIff(seen, ys[1..]);
      if Masked(seen, ys[0]) {
        assert ys[0] in ys;
      } else {
        assert Unmasked(seen, ys)[1..] == Unmasked(seen, ys[1..]);
      }
    }
  }

  /** Looked up again after what was not hidden has been added, everything is hidden. */
  lemma NothingLeft(seen: set<string>, ys: seq<Found>)
    requires EachOnce(ys)
    ensures Unmasked(seen + Paths(Unmasked(seen, ys)), ys) == []
  {
  }

  /** A lookup that hits. */
  ghost function AHit(seen: set<string>, y: Found): (p: string)
    requires Masked(seen, y)
    ensures p in y.lookups && p in seen
  {
    var p :| p in y.lookups && p in seen;
    p
  }

  /** First the one and then the other, the second not meeting again what the first found: the same as the second alone. */
  lemma InTwoSteps(seen: set<string>, some: seq<Found>, all: seq<Found>)
    requires EachOnce(all) && (forall y | y in some :: y in all)
    ensures var first := Unmasked(seen, some);
            var second := Unmasked(seen + Paths(first), all);
            forall y :: (y in first || y in second <==> y in Unmasked(seen, all)) && !(y in first && y in second)
  {
    var first := Unmasked(seen, some);
    var now := seen + Paths(first);
    forall y
      ensures (y in first || y in Unmasked(now, all) <==> y in Unmasked(seen, all)) && !(y in first && y in Unmasked(now, all))
    {
      if y in first {
        assert y.path in now && y.path in y.lookups;
      } else if y in all && Masked(seen, y) {
        assert AHit(seen, y) in now;
      } else if y in all && Masked(now, y) {
        var hit := AHit(now, y);
        var z :| z in first && z.path == hit;
        SelfHit(all, y, z);
      }
    }
  }

  lemma SelfHit(ys: seq<Found>, y: Found, z: Found)
    requires EachOnce(ys) && y in ys && z in ys && z.path in y.lookups
    ensures y == z
  {
  }
}
