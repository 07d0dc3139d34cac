/** The list of handles that the user interface waits for, and what is done when one is signalled. */
module WaitList {

  const MAXIMUM_WAIT_OBJECTS := 64
  const NULL := 0
  const WAIT_HANDLE_F_NONE: bv32 := 0
  const WAIT_HANDLE_F_NOREMOVE: bv32 := 1
  const WAIT_OBJECT_0 := 0
  const WAIT_ABANDONED_0 := 0x80

  type Handle = int
  type Address = int

  datatype WaitEntry = WaitEntry(obj: Address, messageId: bv32, routine: Address, context: Address, flags: bv32)

  /** What a dispatch does: a message to an object, or a call of a routine. */
  datatype Action = Send(obj: Address, messageId: bv32) | Call(routine: Address, context: Address)

  datatype Option<T> = None | Some(value: T)

  type Pairs = seq<(Handle, WaitEntry)>

  // ---------------------------------------------------- the list as one sequence

  function Pair(handles: seq<Handle>, entries: seq<WaitEntry>): (r: Pairs)
    requires |handles| == |entries|
    ensures |r| == |handles|
  {
    seq(|handles|, i requires 0 <= i < |handles| => (handles[i], entries[i]))
  }

  function Without<T>(s: seq<T>, i: nat): seq<T>
    requires i < |s|
  {
    s[..i] + s[i + 1..]
  }

  function Flags(removeAfterSignaled: bool): bv32 {
    if removeAfterSignaled then WAIT_HANDLE_F_NONE else WAIT_HANDLE_F_NOREMOVE
  }

  function Registered(s: Pairs, h: Handle, e: WaitEntry): Pairs {
    if |s| < MAXIMUM_WAIT_OBJECTS then s + [(h, e)] else s
  }

  /** The place of the first pair with this handle, or the length of the list. */
  function FirstWith(s: Pairs, h: Handle): (i: nat)
    ensures i <= |s|
    ensures i < |s| ==> s[i].0 == h
    ensures forall k | 0 <= k < i :: s[k].0 != h
  {
    if s == [] || s[0].0 == h then 0 else 1 + FirstWith(s[1..], h)
  }

  lemma FirstWithIs(s: Pairs, h: Handle, i: nat)
    requires i <= |s| && (forall k | 0 <= k < i :: s[k].0 != h) && (i < |s| ==> s[i].0 == h)
    ensures FirstWith(s, h) == i
  {
  }

  function Unregistered(s: Pairs, h: Handle): Pairs {
    if FirstWith(s, h) < |s| then Without(s, FirstWith(s, h)) else s
  }

  predicate Persistent(e: WaitEntry) {
    e.flags & WAIT_HANDLE_F_NOREMOVE != 0
  }

  function Dispatched(s: Pairs, i: int): Pairs {
    if 0 <= i < |s| && !Persistent(s[i].1) then Without(s, i) else s
  }

  /** The action that an entry has been registered with. */
  function Own(e: WaitEntry): Action {
    if e.obj != NULL then Send(e.obj, e.messageId) else Call(e.routine, e.context)
  }

  /** The entry that stands at a place of the array after the place has been removed from the list, or not. */
  function Reread(s: Pairs, i: nat, removed: bool): WaitEntry
    requires i < |s|
  {
    if removed && i < |s| - 1 then s[i + 1].1 else s[i].1
  }

  /** What the dispatch of a place fires. */
  function Fired(s: Pairs, i: int): Option<Action> {
    if 0 <= i < |s| then
      var e, now := s[i].1, Reread(s, i, !Persistent(s[i].1));
      Some(if now.obj != NULL then Send(e.obj, e.messageId) else Call(now.routine, now.context))
    else None
  }

  /** The place that a wait result stands for: a signalled handle, or an abandoned one. */
  function Place(ret: nat, n: nat): int {
    if WAIT_OBJECT_0 <= ret <= WAIT_OBJECT_0 + n then ret - WAIT_OBJECT_0
    else if WAIT_ABANDONED_0 <= ret <= WAIT_ABANDONED_0 + n then ret - WAIT_ABANDONED_0
    else -1
  }

  // ---------------------------------------------------- the two arrays

  /** `memmove` of the elements `i + 1 .. n` one place down. */
  function Shifted<T>(s: seq<T>, i: nat, n: nat): seq<T>
    requires i < n <= |s|
  {
    s[..i] + s[i + 1..n] + s[n - 1..]
  }

  method MoveDown<T>(a: array<T>, i: nat, n: nat)
    requires i < n <= a.Length
    modifies a
    ensures a[..] == Shifted(old(a[..]), i, n)
  {
    var j := i;
    while j < n - 1
      invariant i <= j <= n - 1
      invariant forall k | 0 <= k < a.Length :: a[k] == if i <= k < j then old(a[k + 1]) else old(a[k])
    {
      a[j] := a[j + 1];
      j := j + 1;
    }
  }

  class WaitList {
    var numWaitHandles: int
    const waitHandles: array<Handle>
    const waitEntries: array<WaitEntry>

    ghost predicate Valid()
      reads this
    {
      && waitHandles.Length == waitEntries.Length == MAXIMUM_WAIT_OBJECTS
      && 0 <= numWaitHandles <= MAXIMUM_WAIT_OBJECTS
    }

    ghost function Contents(): (s: Pairs)
      requires Valid()
      reads this, waitHandles, waitEntries
      ensures |s| == numWaitHandles
    {
      Pair(waitHandles[..numWaitHandles], waitEntries[..numWaitHandles])
    }

    constructor ()
      ensures Valid() && fresh(waitHandles) && fresh(waitEntries) && Contents() == []
    {
      numWaitHandles := 0;
      waitHandles := new Handle[MAXIMUM_WAIT_OBJECTS];
      waitEntries := new WaitEntry[MAXIMUM_WAIT_OBJECTS];
    }

    method Append(h: Handle, e: WaitEntry) returns (ok: bool)
      requires Valid()
      modifies this`numWaitHandles, waitHandles, waitEntries
      ensures Valid()
      ensures ok == (|old(Contents())| < 64)
      ensures Contents() == Registered(old(Contents()), h, e)
    {
      if numWaitHandles >= MAXIMUM_WAIT_OBJECTS {
        return false;
      }
      waitHandles[numWaitHandles] := h;
      waitEntries[numWaitHandles] := e;
      numWaitHandles := numWaitHandles + 1;
      return true;
    }

    method RegisterWaitHandle(h: Handle, obj: Address, messageId: bv32, removeAfterSignaled: bool) returns (ok: bool)
      requires Valid()
      modifies this`numWaitHandles, waitHandles, waitEntries
      ensures Valid()
      ensures ok == (|old(Contents())| < 64)
      ensures Contents() == Registered(old(Contents()), h, WaitEntry(obj, messageId, NULL, NULL, Flags(removeAfterSignaled)))
    {
      ok := Append(h, WaitEntry(obj, messageId, NULL, NULL, Flags(removeAfterSignaled)));
    }

    method RegisterWaitHandleFunc(h: Handle, routine: Address, context: Address, removeAfterSignaled: bool) returns (ok: bool)
      requires Valid()
      modifies this`numWaitHandles, waitHandles, waitEntries
      ensures Valid()
      ensures ok == (|old(Contents())| < 64)
      ensures Contents() == Registered(old(Contents()), h, WaitEntry(NULL, 0, routine, context, Flags(removeAfterSignaled)))
    {
      ok := Append(h, WaitEntry(NULL, 0, routine, context, Flags(removeAfterSignaled)));
    }

    /** The last slot is not touched when it is the one removed: it keeps the entry that is gone from the list. */
    method RemoveWaitEntry(index: nat)
      requires Valid() && index < numWaitHandles
      modifies this`numWaitHandles, waitHandles, waitEntries
      ensures Valid()
      ensures Contents() == old(Contents())[..index] + old(Contents())[index + 1..]
      ensures waitEntries[index] == Reread(old(Contents()), index, true)
    {
      if index < numWaitHandles - 1 {
        MoveDown(waitHandles, index, numWaitHandles);
        MoveDown(waitEntries, index, numWaitHandles);
      }
      numWaitHandles := numWaitHandles - 1;
    }

    method UnregisterWaitHandle(h: Handle)
      requires Valid()
      modifies this`numWaitHandles, waitHandles, waitEntries
      ensures Valid()
      ensures Contents() == Unregistered(old(Contents()), h)
    {
      var entryIndex := -1;
      var i := 0;
      while i < numWaitHandles
        invariant 0 <= i <= numWaitHandles
        invariant entryIndex == -1 && forall k | 0 <= k < i :: waitHandles[k] != h
      {
        if waitHandles[i] == h {
          entryIndex := i;
          break;
        }
        i := i + 1;
      }
      FirstWithIs(Contents(), h, i);
      if entryIndex < 0 {
        return;
      }
      RemoveWaitEntry(entryIndex);
    }

    /** The action is returned; what it does when it runs is the receiver's. */
    method DispatchWaitEntry(index: int) returns (action: Option<Action>)
      requires Valid()
      modifies this`numWaitHandles, waitHandles, waitEntries
      ensures Valid()
      ensures action == Fired(old(Contents()), index)
      ensures Contents() == Dispatched(old(Contents()), index)
    {
      if index < 0 || index >= numWaitHandles {
        return None;
      }
      var obj, messageId := waitEntries[index].obj, waitEntries[index].messageId;
      if waitEntries[index].flags & WAIT_HANDLE_F_NOREMOVE == 0 {
        RemoveWaitEntry(index);
      }
      if waitEntries[index].obj != NULL {
        return Some(Send(obj, messageId));
      } else {
        return Some(Call(waitEntries[index].routine, waitEntries[index].context));
      }
    }

    /** `ret` is what the wait for the handles has returned. */
    method ProcessWaitHandles(ret: nat) returns (action: Option<Action>)
      requires Valid()
      modifies this`numWaitHandles, waitHandles, waitEntries
      ensures Valid()
      ensures var i := Place(ret, |old(Contents())|);
              action == Fired(old(Contents()), i) && Contents() == Dispatched(old(Contents()), i)
    {
      if numWaitHandles < 1 {
        return None;
      }
      if WAIT_OBJECT_0 <= ret <= WAIT_OBJECT_0 + numWaitHandles {
        action := DispatchWaitEntry(ret - WAIT_OBJECT_0);
      } else if WAIT_ABANDONED_0 <= ret <= WAIT_ABANDONED_0 + numWaitHandles {
        action := DispatchWaitEntry(ret - WAIT_ABANDONED_0);
      } else {
        return None;
      }
    }
  }

  // ---------------------------------------------------- what the dispatch gets right

  /** With the second entry in the first one's place, the first one's action still comes out. */
  predicate SameKindAndCallback(e: WaitEntry, now: WaitEntry) {
    if e.obj != NULL then now.obj != NULL
    else now.obj == NULL && now.routine == e.routine && now.context == e.context
  }

  /**
    * The dispatch of an entry fires its own action exactly when it stays in the list, or is the last one, or the
    * entry after it is of its kind and, for a callback, has the same routine and context.
    */
  lemma FiresOwnIff(s: Pairs, i: nat)
    requires i < |s|
    ensures Fired(s, i) == Some(Own(s[i].1)) <==>
            Persistent(s[i].1) || i == |s| - 1 || SameKindAndCallback(s[i].1, s[i + 1].1)
  {
  }

  /** Two callbacks that fire once: when the first is signalled, the second one's routine runs, and is still in the list. */
  lemma FiresTheNext(h: Handle, k: Handle)
    ensures var e, next := WaitEntry(NULL, 0, 10, 11, Flags(true)), WaitEntry(NULL, 0, 20, 21, Flags(true));
            var s := [(h, e), (k, next)];
            Fired(s, 0) == Some(Own(next)) && Own(next) != Own(e) && Dispatched(s, 0) == [(k, next)]
  {
  }

  /** An entry stays in the list when it is signalled exactly when it was registered to stay. */
  lemma FlagsMean(removeAfterSignaled: bool)
    ensures Flags(removeAfterSignaled) == if removeAfterSignaled then 0 else 1
    ensures forall e: WaitEntry | e.flags == Flags(removeAfterSignaled) :: Persistent(e) <==> !removeAfterSignaled
  {
  }

  /** Registering with room, and then a signal for it: the action is the registered one, and the list is as asked for. */
  lemma RegisteredThenSignalled(s: Pairs, h: Handle, obj: Address, messageId: bv32, routine: Address, context: Address, remove: bool)
    requires |s| < 64
    ensures var t := Registered(s, h, WaitEntry(obj, messageId, 0, 0, Flags(remove)));
            && t == s + [(h, WaitEntry(obj, messageId, 0, 0, if remove then 0 else 1))]
            && Dispatched(t, |s|) == (if remove then s else t)
            && (obj != 0 ==> Fired(t, |s|) == Some(Send(obj, messageId)))
    ensures var t := Registered(s, h, WaitEntry(0, 0, routine, context, Flags(remove)));
            && t == s + [(h, WaitEntry(0, 0, routine, context, if remove then 0 else 1))]
            && Dispatched(t, |s|) == (if remove then s else t)
            && Fired(t, |s|) == Some(Call(routine, context))
  {
    forall e: WaitEntry | e.flags == Flags(remove)
      ensures Dispatched(s + [(h, e)], |s|) == if remove then s else s + [(h, e)]
    {
      assert (s + [(h, e)])[|s|] == (h, e);
      assert Without(s + [(h, e)], |s|) == s;
      FlagsMean(remove);
    }
  }

  /** A wait result that stands for a handle of the list dispatches it; one past the end dispatches nothing. */
  lemma PlaceMeans(ret: nat, s: Pairs)
    requires |s| <= 64
    ensures var i := Place(ret, |s|);
            && (0 <= i < |s| <==> ret < |s| || 0x80 <= ret < 0x80 + |s|)
            && (0 <= i < |s| ==> ret == i || ret == 0x80 + i)
            && (!(0 <= i < |s|) ==> Fired(s, i) == None && Dispatched(s, i) == s)
  {
  }

  // ---------------------------------------------------- register, then unregister

  /**
    * Taking a handle out again gives the list back, unless the handle stood there before with other company;
    * of a full list, which has not taken the new pair, it may not have been there at all.
    */
  lemma RegisterUnregister(s: Pairs, h: Handle, e: WaitEntry)
    ensures Unregistered(Registered(s, h, e), h) == s <==>
            if |s| < 64 then forall k | FirstWith(s, h) <= k < |s| :: s[k] == (h, e)
            else FirstWith(s, h) == |s|
  {
    if |s| >= MAXIMUM_WAIT_OBJECTS {
      return;
    }
    var t, i := s + [(h, e)], FirstWith(s, h);
    FirstWithIs(t, h, i);
    var u := Without(t, i);
    assert forall k | i <= k < |s| :: u[k] == t[k + 1];
    if u == s {
      OneValue(s, i, (h, e));
    } else {
      assert exists k | 0 <= k < |s| :: u[k] != s[k];
    }
  }

  lemma {:induction false} OneValue<T>(s: seq<T>, i: nat, x: T)
    requires i <= |s| && forall k | i <= k < |s| :: s[k] == (s + [x])[k + 1]
    ensures forall k | i <= k < |s| :: s[k] == x
    decreases |s| - i
  {
    if i < |s| {
      OneValue(s, i + 1, x);
    }
  }

  // ---------------------------------------------------- whole runs

  datatype Op = Register(h: Handle, e: WaitEntry) | Unregister(h: Handle) | Process(ret: nat)

  function Do(s: Pairs, op: Op): Pairs {
    match op
    case Register(h, e) => Registered(s, h, e)
    case Unregister(h) => Unregistered(s, h)
    case Process(ret) => Dispatched(s, Place(ret, |s|))
  }

  /** The steps of a run are the calls of the class. */
  method Perform(list: WaitList, op: Op) returns (action: Option<Action>)
    requires list.Valid()
    modifies list`numWaitHandles, list.waitHandles, list.waitEntries
    ensures list.Valid() && list.Contents() == Do(old(list.Contents()), op)
    ensures action == if op.Process? then Fired(old(list.Contents()), Place(op.ret, |old(list.Contents())|)) else None
  {
    action := None;
    match op
    case Register(h, e) => var ok := list.Append(h, e);
    case Unregister(h) => list.UnregisterWaitHandle(h);
    case Process(ret) => action := list.ProcessWaitHandles(ret);
  }

  function Run(s: Pairs, ops: seq<Op>): Pairs {
    if ops == [] then s else Do(Run(s, ops[..|ops| - 1]), ops[|ops| - 1])
  }

  /** The pairs that a run offers to the list, in order. */
  function Offered(ops: seq<Op>): Pairs {
    if ops == [] then []
    else
      var op := ops[|ops| - 1];
      Offered(ops[..|ops| - 1]) + if op.Register? then [(op.h, op.e)] else []
  }

  /** `places` picks `s` out of `t`, in order and each place once. */
  predicate Picks<T(==)>(s: seq<T>, t: seq<T>, places: seq<nat>) {
    && |places| == |s|
    && (forall k | 0 <= k < |s| :: places[k] < |t| && t[places[k]] == s[k])
    && (forall j, k | 0 <= j < k < |s| :: places[j] < places[k])
  }

  lemma PicksWithout<T>(s: seq<T>, t: seq<T>, places: seq<nat>, i: nat)
    requires Picks(s, t, places) && i < |s|
    ensures Picks(Without(s, i), t, Without(places, i))
  {
  }

  lemma PicksMore<T>(s: seq<T>, t: seq<T>, places: seq<nat>, x: T)
    requires Picks(s, t, places)
    ensures Picks(s, t + [x], places) && Picks(s + [x], t + [x], places + [|t|])
  {
  }

  /**
    * After any run the list is within its capacity and holds, in the order in which they were registered,
    * some of the pairs of the run, each no more often than it was registered.
    */
  lemma {:induction false} RunKeepsOrder(ops: seq<Op>) returns (places: seq<nat>)
    ensures |Run([], ops)| <= 64
    ensures Picks(Run([], ops), Offered(ops), places)
    decreases |ops|
  {
    if ops == [] {
      return [];
    }
    var op := ops[|ops| - 1];
    var before := Run([], ops[..|ops| - 1]);
    var offered := Offered(ops[..|ops| - 1]);
    places := RunKeepsOrder(ops[..|ops| - 1]);
    match op
    case Register(h, e) =>
      PicksMore(before, offered, places, (h, e));
      if |before| < MAXIMUM_WAIT_OBJECTS {
        places := places + [|offered|];
      }
    case Unregister(h) =>
      var i := FirstWith(before, h);
      assert Offered(ops) == offered;
      if i < |before| {
        PicksWithout(before, offered, places, i);
        places := Without(places, i);
      }
    case Process(ret) =>
      var i := Place(ret, |before|);
      assert Offered(ops) == offered;
      if 0 <= i < |before| && !Persistent(before[i].1) {
        PicksWithout(before, offered, places, i);
        places := Without(places, i);
      }
  }
}
