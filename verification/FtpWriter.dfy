/**
  * The hand-over between the FTP session, which calls `SetBytes` and `Close`, and the writer thread,
  * which runs `Process`. The two share three flags, one buffer and the file, and take turns in any order:
  * every read and every write of a flag is a step of its own.
  */
module FtpWriter {

  type Bytes = seq<bv8>

  /** Where the session is: each name says what its next step does. */
  datatype Session =
    | Ready                          // between two calls
    | AskIfWaiting(buffer: Bytes)    // SetBytes: reads waitingForBytes, again and again
    | Allocate(buffer: Bytes)        //           currentBuffer = malloc
    | Copy(buffer: Bytes)            //           memcpy
    | SetSize(buffer: Bytes)         //           currentBufferSize = length
    | HandOver(buffer: Bytes)        //           waitingForBytes = false
    | SetDone                        // Close: done = true
    | AskIfRunning                   //        reads loopRunning, again and again
    | CloseFile                      //        fclose
    | AwaitThread                    //        Terminate: waits half a second at most, and leaves the thread alone
    | Closed

  /** Where the writer thread is. */
  datatype Writer =
    | AskIfServerOn                  // reads the setting
    | SetRunning                     // loopRunning = true
    | SetWaiting                     // waitingForBytes = true, before the loop
    | TestDone                       // the loop test reads done
    | TestWaiting                    // the loop test reads waitingForBytes
    | Body                           // the body reads waitingForBytes
    | Write                          // fwrite
    | Free                           // delete
    | SetWaitingAgain                // waitingForBytes = true, in the loop
    | ClearRunning                   // loopRunning = false
    | Returned

  /** What `currentBuffer` points to. */
  datatype Slot = Nothing | Block(bytes: Bytes) | Freed

  datatype State = State(
    serverOn: bool,
    done: bool,
    running: bool,
    waiting: bool,
    slot: Slot,
    size: nat,
    open: bool,
    file: Bytes,
    session: Session,
    writer: Writer,
    given: seq<Bytes>,   // the buffers that SetBytes has been called with, in order
    fault: bool          // a dead block or a closed file has been used, or a live block lost
  )

  /** One step of an interleaving. */
  datatype Event = CallSetBytes(buffer: Bytes) | CallClose | SessionStep(junk: bv8) | WriterStep

  // ------------------------------------------------------------ the program

  function Initial(serverOn: bool): State {
    State(serverOn, false, false, false, Nothing, 0, true, [], Ready, AskIfServerOn, [], false)
  }

  function Live(s: State): bool {
    s.slot.Block?
  }

  /** What `malloc` returns holds anything; here, one byte all over. */
  function Fresh(n: nat, junk: bv8): Bytes {
    seq(n, _ => junk)
  }

  function NextOfSession(s: State, junk: bv8): State {
    match s.session
    case Ready => s
    case AskIfWaiting(b) => if s.waiting then s.(session := Allocate(b)) else s
    case Allocate(b) => s.(slot := Block(Fresh(|b|, junk)), fault := s.fault || Live(s), session := Copy(b))
    case Copy(b) =>
      if Live(s) && |s.slot.bytes| >= |b| then s.(slot := Block(b + s.slot.bytes[|b|..]), session := SetSize(b))
      else s.(fault := true)
    case SetSize(b) => s.(size := |b|, session := HandOver(b))
    case HandOver(b) => s.(waiting := false, session := Ready)
    case SetDone => s.(done := true, session := AskIfRunning)
    case AskIfRunning => if s.running then s else s.(session := CloseFile)
    case CloseFile => s.(open := false, fault := s.fault || !s.open, session := AwaitThread)
    case AwaitThread => s.(session := Closed)
    case Closed => s
  }

  function NextOfWriter(s: State): State {
    match s.writer
    case AskIfServerOn => s.(writer := if s.serverOn then SetRunning else Returned)
    case SetRunning => s.(running := true, writer := SetWaiting)
    case SetWaiting => s.(waiting := true, writer := TestDone)
    case TestDone => s.(writer := if !s.done then Body else TestWaiting)
    case TestWaiting => s.(writer := if !s.waiting then Body else ClearRunning)
    case Body => s.(writer := if !s.waiting then Write else TestDone)
    case Write =>
      if Live(s) && s.size <= |s.slot.bytes| && s.open then
        s.(file := s.file + s.slot.bytes[..s.size], writer := Free)
      else s.(fault := true)
    case Free => s.(slot := Freed, fault := s.fault || !Live(s), writer := SetWaitingAgain)
    case SetWaitingAgain => s.(waiting := true, writer := TestDone)
    case ClearRunning => s.(running := false, writer := Returned)
    case Returned => s
  }

  /** A call is taken only between two calls. */
  function Next(s: State, e: Event): State {
    match e
    case CallSetBytes(b) => if s.session == Ready then s.(session := AskIfWaiting(b), given := s.given + [b]) else s
    case CallClose => if s.session == Ready then s.(session := SetDone) else s
    case SessionStep(junk) => NextOfSession(s, junk)
    case WriterStep => NextOfWriter(s)
  }

  function After(s: State, run: seq<Event>): State
    decreases |run|
  {
    if run == [] then s else After(Next(s, run[0]), run[1..])
  }

  lemma {:induction false} AfterBoth(s: State, x: seq<Event>, y: seq<Event>)
    ensures After(s, x + y) == After(After(s, x), y)
    decreases |x|
  {
    if x == [] {
      assert x + y == y;
    } else {
      assert (x + y)[1..] == x[1..] + y;
      AfterBoth(Next(s, x[0]), x[1..], y);
    }
  }

  // ------------------------------------------------------------ what is where

  function Concat(buffers: seq<Bytes>): Bytes {
    if buffers == [] then [] else Concat(buffers[..|buffers| - 1]) + buffers[|buffers| - 1]
  }

  /** The session is in a call of `SetBytes` that has not handed its buffer over yet. */
  predicate InSetBytes(p: Session) {
    p.AskIfWaiting? || Filling(p)
  }

  /** The session may touch the buffer. */
  predicate Filling(p: Session) {
    p.Allocate? || p.Copy? || p.SetSize? || p.HandOver?
  }

  /** The writer may touch the buffer. */
  predicate Draining(w: Writer) {
    w.Write? || w.Free?
  }

  predicate InLoop(w: Writer) {
    w.TestDone? || w.TestWaiting? || w.Body? || w.Write? || w.Free? || w.SetWaitingAgain?
  }

  /** `Close` has seen `loopRunning` false. */
  predicate PastWait(p: Session) {
    p.CloseFile? || p.AwaitThread? || p.Closed?
  }

  /** The buffers whose hand-over is complete. */
  function Accepted(s: State): seq<Bytes> {
    if InSetBytes(s.session) && s.given != [] then s.given[..|s.given| - 1] else s.given
  }

  /** A buffer has been handed over and not been written yet. */
  predicate Pending(s: State) {
    !s.waiting && (s.writer.TestDone? || s.writer.TestWaiting? || s.writer.Body? || s.writer.Write?)
  }

  function PendingBytes(s: State): Bytes {
    if Pending(s) && Live(s) then s.slot.bytes else []
  }

  // ------------------------------------------------------------ the invariant

  /** What the position of the session says. */
  predicate SessionHolds(s: State) {
    && (s.done <==> s.session.AskIfRunning? || PastWait(s.session))
    && (s.open <==> !s.session.AwaitThread? && !s.session.Closed?)
    && (InSetBytes(s.session) ==> s.given != [] && s.given[|s.given| - 1] == s.session.buffer)
    && (Filling(s.session) ==> s.waiting && s.running && (s.writer.TestDone? || s.writer.Body?))
    && (s.session.Copy? ==> Live(s) && |s.slot.bytes| == |s.session.buffer|)
    && (s.session.SetSize? || s.session.HandOver? ==> s.slot == Block(s.session.buffer))
    && (s.session.HandOver? ==> s.size == |s.session.buffer|)
    && (PastWait(s.session) ==> !Pending(s) && !Draining(s.writer) && !s.writer.SetWaitingAgain? && !s.writer.Body?)
    && (PastWait(s.session) && s.given != [] ==> s.writer.Returned?)
  }

  /** What the position of the writer says. */
  predicate WriterHolds(s: State) {
    && (s.running <==> s.writer.SetWaiting? || InLoop(s.writer) || s.writer.ClearRunning?)
    && (s.writer.AskIfServerOn? || s.writer.SetRunning? || s.writer.SetWaiting? ==> !s.waiting && Accepted(s) == [])
    && (Draining(s.writer) || s.writer.SetWaitingAgain? ==> !s.waiting)
    && (s.writer.TestWaiting? || s.writer.ClearRunning? ==> s.done)
    && (s.writer.ClearRunning? ==> s.waiting)
    && (s.writer.Returned? ==> (s.serverOn ==> s.waiting && s.done) && (!s.serverOn ==> !s.waiting && Accepted(s) == []))
    && (!s.serverOn ==> s.writer.AskIfServerOn? || s.writer.Returned?)
  }

  /** What the buffer and the file hold. */
  predicate DataHolds(s: State) {
    && !s.fault
    && (Pending(s) ==> Live(s) && s.size == |s.slot.bytes|)
    && (Live(s) <==> Pending(s) || s.writer.Free? || s.session.Copy? || s.session.SetSize? || s.session.HandOver?)
    && Concat(Accepted(s)) == s.file + PendingBytes(s)
    && (Pending(s) ==> Accepted(s) != [] && s.slot == Block(Accepted(s)[|Accepted(s)| - 1]))
  }

  predicate Inv(s: State) {
    SessionHolds(s) && WriterHolds(s) && DataHolds(s)
  }

  lemma AcceptedKept(s: State, n: State)
    requires InSetBytes(s.session) == InSetBytes(n.session) && s.given == n.given
    ensures Accepted(n) == Accepted(s)
  {
  }

  lemma AllAccepted(s: State)
    requires !InSetBytes(s.session)
    ensures Accepted(s) == s.given
  {
  }

  lemma AcceptedAtCall(s: State, b: Bytes)
    requires s.session == Ready
    ensures Accepted(s.(session := AskIfWaiting(b), given := s.given + [b])) == s.given == Accepted(s)
  {
  }

  lemma InvCall(s: State, e: Event)
    requires Inv(s) && (e.CallSetBytes? || e.CallClose?)
    ensures Inv(Next(s, e))
  {
    hide Accepted, Concat;
    if s.session == Ready {
      if e.CallSetBytes? {
        AcceptedAtCall(s, e.buffer);
      } else {
        AcceptedKept(s, Next(s, e));
      }
      assert PendingBytes(Next(s, e)) == PendingBytes(s);
    }
  }

  lemma SessionKeepsPositions(s: State, junk: bv8)
    requires Inv(s)
    ensures SessionHolds(NextOfSession(s, junk)) && WriterHolds(NextOfSession(s, junk))
  {
    hide Concat, Accepted;
    if !s.session.HandOver? {
      AcceptedKept(s, NextOfSession(s, junk));
    }
    if s.session.AskIfRunning? {
      AllAccepted(s);
    }
    if s.session.Copy? {
      assert NextOfSession(s, junk).slot.bytes == s.session.buffer;
    }
  }

  /** The buffer handed over is the one that is now in flight. */
  lemma HandOverKeepsData(s: State, junk: bv8)
    requires Inv(s) && s.session.HandOver?
    ensures DataHolds(NextOfSession(s, junk))
  {
  }

  lemma SessionKeepsData(s: State, junk: bv8)
    requires Inv(s)
    ensures DataHolds(NextOfSession(s, junk))
  {
    hide Concat, Accepted;
    var n := NextOfSession(s, junk);
    if s.session.HandOver? {
      HandOverKeepsData(s, junk);
    } else {
      AcceptedKept(s, n);
      assert PendingBytes(n) == PendingBytes(s);
    }
  }

  lemma InvSession(s: State, junk: bv8)
    requires Inv(s)
    ensures Inv(NextOfSession(s, junk))
  {
    hide SessionHolds, WriterHolds, DataHolds, NextOfSession;
    SessionKeepsPositions(s, junk);
    SessionKeepsData(s, junk);
  }

  lemma WriterKeepsPositions(s: State)
    requires Inv(s)
    ensures SessionHolds(NextOfWriter(s)) && WriterHolds(NextOfWriter(s))
  {
    hide Concat, Accepted;
    AcceptedKept(s, NextOfWriter(s));
  }

  lemma WriterKeepsData(s: State)
    requires Inv(s)
    ensures DataHolds(NextOfWriter(s))
  {
    hide Concat, Accepted;
    var n := NextOfWriter(s);
    AcceptedKept(s, n);
    if s.writer.Write? {
      assert s.slot.bytes[..s.size] == s.slot.bytes;
      assert PendingBytes(n) == [];
    } else if !s.writer.Free? {
      assert n.file == s.file && n.slot == s.slot;
    }
  }

  lemma InvStep(s: State, e: Event)
    requires Inv(s)
    ensures Inv(Next(s, e))
  {
    hide SessionHolds, WriterHolds, DataHolds, NextOfSession, NextOfWriter;
    match e
    case CallSetBytes(_) => InvCall(s, e);
    case CallClose => InvCall(s, e);
    case SessionStep(junk) => InvSession(s, junk);
    case WriterStep => WriterKeepsPositions(s); WriterKeepsData(s);
  }

  /** The invariant holds after every interleaving. */
  lemma {:induction false} Always(s: State, run: seq<Event>)
    requires Inv(s)
    ensures Inv(After(s, run))
    decreases |run|
  {
    hide Inv, NextOfSession, NextOfWriter;
    if run != [] {
      InvStep(s, run[0]);
      Always(Next(s, run[0]), run[1..]);
    }
  }

  // ------------------------------------------------------------ safety, over every run

  function Reached(serverOn: bool, run: seq<Event>): State {
    After(Initial(serverOn), run)
  }

  lemma ReachedHolds(serverOn: bool, run: seq<Event>)
    ensures Inv(Reached(serverOn, run))
  {
    assert Concat([]) == [];
    Always(Initial(serverOn), run);
  }

  /** The buffers of the calls of `SetBytes` in a run: of those calls that come between two calls. */
  function Calls(serverOn: bool, run: seq<Event>): seq<Bytes>
    decreases |run|
  {
    if run == [] then []
    else
      var before, e := run[..|run| - 1], run[|run| - 1];
      Calls(serverOn, before) + if e.CallSetBytes? && Reached(serverOn, before).session == Ready then [e.buffer] else []
  }

  /** A call starts at its first statement with its own buffer; nothing but a call gives a buffer. */
  lemma CallsGive(s: State, e: Event)
    requires Inv(s)
    ensures e.CallSetBytes? && s.session == Ready ==>
              Next(s, e).session == AskIfWaiting(e.buffer) && Next(s, e).given == s.given + [e.buffer]
    ensures e.CallClose? && s.session == Ready ==> Next(s, e).session == SetDone
    ensures !e.CallSetBytes? || s.session != Ready ==> Next(s, e).given == s.given
  {
    hide Inv, NextOfSession, NextOfWriter;
    match e
    case CallSetBytes(_) =>
    case CallClose =>
    case SessionStep(junk) => SessionGivesNothing(s, junk);
    case WriterStep => WriterGivesNothing(s);
  }

  lemma SessionGivesNothing(s: State, junk: bv8)
    requires Inv(s)
    ensures NextOfSession(s, junk).given == s.given
  {
    hide Concat, Accepted;
  }

  lemma WriterGivesNothing(s: State)
    requires Inv(s)
    ensures NextOfWriter(s).given == s.given
  {
    hide Concat, Accepted;
  }

  lemma {:induction false} CallsAreGiven(serverOn: bool, run: seq<Event>)
    ensures Reached(serverOn, run).given == Calls(serverOn, run)
    decreases |run|
  {
    hide Next, Inv;
    if run != [] {
      var before, e := run[..|run| - 1], run[|run| - 1];
      CallsAreGiven(serverOn, before);
      ReachedHolds(serverOn, before);
      assert run == before + [e];
      AfterBoth(Initial(serverOn), before, [e]);
      CallsGive(Reached(serverOn, before), e);
    }
  }

  lemma {:induction false} ConcatJoins(xs: seq<Bytes>, ys: seq<Bytes>)
    ensures Concat(xs + ys) == Concat(xs) + Concat(ys)
    ensures |xs| == 1 ==> Concat(xs) == xs[0]
    decreases |ys|
  {
    if ys == [] {
      assert xs + ys == xs;
    } else {
      assert (xs + ys)[..|xs + ys| - 1] == xs + ys[..|ys| - 1];
      ConcatJoins(xs, ys[..|ys| - 1]);
    }
  }

  /**
    * Nothing is lost, doubled or reordered: the file holds the buffers of the calls that are over, all of them or
    * all but the last, which is then the one in the slot.
    */
  lemma Conservation(serverOn: bool, run: seq<Event>)
    ensures var s, calls := Reached(serverOn, run), Calls(serverOn, run);
            var over := if s.session.AskIfWaiting? || s.session.Allocate? || s.session.Copy? || s.session.SetSize? || s.session.HandOver?
                        then |calls| - 1 else |calls|;
            && over >= 0
            && (|| s.file == Concat(calls[..over])
                || (over > 0 && s.file == Concat(calls[..over - 1]) && s.slot == Block(calls[over - 1])))
  {
    hide Inv, Concat, Accepted, Calls;
    var s, calls := Reached(serverOn, run), Calls(serverOn, run);
    ReachedHolds(serverOn, run);
    CallsAreGiven(serverOn, run);
    AcceptedIs(s);
    InFlight(s);
    var all := Accepted(s);
    assert all != [] ==> all[..|all| - 1] == calls[..|all| - 1];
  }

  /** What is in flight is the last buffer handed over. */
  lemma InFlight(s: State)
    requires Inv(s)
    ensures var all := Accepted(s);
            || s.file == Concat(all)
            || (all != [] && s.file == Concat(all[..|all| - 1]) && s.slot == Block(all[|all| - 1]))
  {
    hide SessionHolds, WriterHolds, Concat, Accepted;
    var all := Accepted(s);
    if Pending(s) {
      var last := all[|all| - 1];
      assert all[..|all| - 1] + [last] == all;
      ConcatJoins(all[..|all| - 1], [last]);
      ConcatJoins([last], []);
      SameFront(s.file, Concat(all[..|all| - 1]), last);
    }
  }

  lemma AcceptedIs(s: State)
    requires Inv(s)
    ensures InSetBytes(s.session) ==> s.given != []
    ensures Accepted(s) == s.given[..if InSetBytes(s.session) then |s.given| - 1 else |s.given|]
  {
    hide Concat;
  }

  lemma SameFront(x: Bytes, y: Bytes, z: Bytes)
    requires x + z == y + z
    ensures x == y
  {
    assert |x| == |y|;
    assert (x + z)[..|x|] == x && (y + z)[..|y|] == y;
  }

  /**
    * The buffer belongs to one side at a time, no dead block is used, none is lost, no closed file is written.
    * The file is open until `Close` closes it.
    */
  lemma OneOwner(serverOn: bool, run: seq<Event>)
    ensures var s := Reached(serverOn, run);
            && !(Filling(s.session) && (Draining(s.writer) || Pending(s)))
            && !s.fault
            && (Live(s) ==> Filling(s.session) || Pending(s) || s.writer.Free?)
            && (s.open <==> s.session != AwaitThread && s.session != Closed)
  {
    hide Concat;
    ReachedHolds(serverOn, run);
  }

  lemma {:induction false} ClosingStays(s: State, run: seq<Event>)
    requires Inv(s) && PastWait(s.session)
    ensures var e := After(s, run); PastWait(e.session) && e.file == s.file && e.given == s.given
    decreases |run|
  {
    hide Concat;
    if run != [] {
      InvStep(s, run[0]);
      ClosingStays(Next(s, run[0]), run[1..]);
    }
  }

  /**
    * Once `Close` is past its wait loop the file holds every buffer that `SetBytes` was ever called with,
    * and whatever the two sides do from there on, it stays as it is. This includes the runs where `Close`
    * looks at `loopRunning` before the thread has set it.
    */
  lemma CloseLosesNothing(serverOn: bool, run: seq<Event>, more: seq<Event>)
    requires var p := Reached(serverOn, run).session; p == CloseFile || p == AwaitThread || p == Closed
    ensures var e := Reached(serverOn, run + more);
            && e.file == Reached(serverOn, run).file == Concat(Calls(serverOn, run))
            && Calls(serverOn, run + more) == Calls(serverOn, run) && !e.fault
  {
    hide Concat;
    var s := Reached(serverOn, run);
    ReachedHolds(serverOn, run);
    ReachedHolds(serverOn, run + more);
    CallsAreGiven(serverOn, run);
    CallsAreGiven(serverOn, run + more);
    AllAccepted(s);
    AfterBoth(Initial(serverOn), run, more);
    ClosingStays(s, more);
  }

  // ------------------------------------------------------------ progress

  function WriterSteps(run: seq<Event>): nat {
    if run == [] then 0 else (if run[0].WriterStep? then 1 else 0) + WriterSteps(run[1..])
  }

  /** How many steps of its own the writer is from its end once `done` is set. */
  function StepsToReturn(s: State): nat {
    match s.writer
    case AskIfServerOn => if s.serverOn then 6 else 1
    case SetRunning => 5
    case SetWaiting => 4
    case TestDone => if s.waiting then 3 else 9
    case TestWaiting => if s.waiting then 2 else 8
    case Body => if s.waiting then 4 else 7
    case Write => 6
    case Free => 5
    case SetWaitingAgain => 4
    case ClearRunning => 1
    case Returned => 0
  }

  function Minus(n: nat, k: nat): nat {
    if k <= n then n - k else 0
  }

  lemma WriterComesCloser(s: State)
    requires Inv(s) && s.done
    ensures var n := NextOfWriter(s);
            && n.done && n.given == s.given
            && StepsToReturn(n) == Minus(StepsToReturn(s), 1)
            && n.file + PendingBytes(n) == s.file + PendingBytes(s)
  {
    hide Concat;
    assert s.writer.Write? ==> s.slot.bytes[..s.size] == s.slot.bytes;
  }

  lemma SessionKeepsDistance(s: State, j: bv8)
    requires Inv(s) && s.done
    ensures var n := NextOfSession(s, j);
            && n.done && n.given == s.given
            && StepsToReturn(n) <= StepsToReturn(s)
            && n.file + PendingBytes(n) == s.file + PendingBytes(s)
            && StepsToClose(n) == if s.session.AskIfRunning? && s.running then 3 else Minus(StepsToClose(s), 1)
  {
    hide Concat;
  }

  /** How many steps of its own the session is from the end of `Close`, not counting waiting. */
  function StepsToClose(s: State): nat {
    match s.session
    case AskIfRunning => 3
    case CloseFile => 2
    case AwaitThread => 1
    case _ => 0
  }

  lemma ReturnComesCloser(s: State, e: Event)
    requires Inv(s) && s.done
    ensures var n := Next(s, e);
            && n.done && n.given == s.given
            && StepsToReturn(n) <= Minus(StepsToReturn(s), if e.WriterStep? then 1 else 0)
            && n.file + PendingBytes(n) == s.file + PendingBytes(s)
  {
    hide Concat, NextOfSession, NextOfWriter, StepsToReturn, PendingBytes;
    if e.WriterStep? {
      WriterComesCloser(s);
    } else if e.SessionStep? {
      SessionKeepsDistance(s, e.junk);
    }
  }

  /**
    * Once `done` is set the writer needs at most nine more steps of its own, however the session's steps
    * fall between them; all that it writes in them is the one buffer in flight.
    */
  lemma {:induction false} DrainsAndReturns(s: State, run: seq<Event>)
    requires Inv(s) && s.done
    ensures var e := After(s, run);
            && e.done && e.given == s.given
            && StepsToReturn(e) <= Minus(StepsToReturn(s), WriterSteps(run)) <= Minus(9, WriterSteps(run))
            && e.file + PendingBytes(e) == s.file + PendingBytes(s)
            && (WriterSteps(run) >= 9 ==> e.writer == Returned)
            && (e.writer == Returned ==> e.file == s.file + PendingBytes(s))
    decreases |run|
  {
    hide Concat, Inv, NextOfSession, NextOfWriter;
    if run != [] {
      InvStep(s, run[0]);
      ReturnComesCloser(s, run[0]);
      DrainsAndReturns(Next(s, run[0]), run[1..]);
    }
  }

  function SessionSteps(run: seq<Event>): nat {
    if run == [] then 0 else (if run[0].SessionStep? then 1 else 0) + SessionSteps(run[1..])
  }

  /** With the thread at its end, nothing holds the session up. */
  lemma OneStepCloser(s: State, e: Event)
    requires Inv(s) && s.done && s.writer == Returned
    ensures StepsToClose(s) <= 3 && (StepsToClose(s) == 0 ==> s.session == Closed)
    ensures var n := Next(s, e);
            && Inv(n) && n.done && n.writer == Returned
            && StepsToClose(n) == Minus(StepsToClose(s), if e.SessionStep? then 1 else 0)
  {
    hide Concat;
    InvStep(s, e);
    if e.SessionStep? {
      SessionKeepsDistance(s, e.junk);
    }
  }

  lemma {:induction false} ClosesInThree(s: State, run: seq<Event>)
    requires Inv(s) && s.done && s.writer == Returned && SessionSteps(run) >= StepsToClose(s)
    ensures After(s, run).session == Closed
    decreases |run|
  {
    hide Concat, Inv, NextOfSession, NextOfWriter, StepsToClose;
    if run == [] {
      OneStepCloser(s, WriterStep);
    } else {
      OneStepCloser(s, run[0]);
      ClosesInThree(Next(s, run[0]), run[1..]);
    }
  }

  lemma {:induction false} SetsDone(s: State, run: seq<Event>)
    requires Inv(s) && (s.session == SetDone || s.done) && SessionSteps(run) >= 1
    ensures After(s, run).done
    decreases |run|
  {
    hide Concat;
    if s.done {
      DrainsAndReturns(s, run);
    } else {
      InvStep(s, run[0]);
      if run[0].SessionStep? {
        DrainsAndReturns(Next(s, run[0]), run[1..]);
      } else {
        SetsDone(Next(s, run[0]), run[1..]);
      }
    }
  }

  /**
    * From the start of `Close` on, one step of the session, then nine of the writer, then three of the session are
    * enough, with any other steps between them: `Close` has returned, and the closed file is complete.
    */
  lemma CloseReturns(serverOn: bool, run: seq<Event>, first: seq<Event>, more: seq<Event>, rest: seq<Event>)
    requires Reached(serverOn, run).session == SetDone || Reached(serverOn, run).done
    requires SessionSteps(first) >= 1 && WriterSteps(more) >= 9 && SessionSteps(rest) >= 3
    ensures var e := Reached(serverOn, run + first + more + rest);
            e.session == Closed && !e.open && e.file == Concat(Calls(serverOn, run + first + more + rest))
  {
    hide Concat, Inv, NextOfSession, NextOfWriter;
    var all := run + first + more + rest;
    var s := Reached(serverOn, run);
    ReachedHolds(serverOn, run);
    AfterBoth(Initial(serverOn), run, first);
    AfterBoth(Initial(serverOn), run + first, more);
    AfterBoth(Initial(serverOn), run + first + more, rest);
    SetsDone(s, first);
    ReachedHolds(serverOn, run + first);
    DrainsAndReturns(Reached(serverOn, run + first), more);
    ReachedHolds(serverOn, run + first + more);
    OneStepCloser(Reached(serverOn, run + first + more), WriterStep);
    ClosesInThree(Reached(serverOn, run + first + more), rest);
    assert all + [] == all;
    CloseLosesNothing(serverOn, all, []);
    OneOwner(serverOn, all);
  }

  /** How many steps of its own the writer is from asking for the next buffer. */
  function StepsToAsk(s: State): nat {
    if s.waiting then 0
    else
      match s.writer
      case AskIfServerOn => 3
      case SetRunning => 2
      case SetWaiting => 1
      case TestDone => 5
      case TestWaiting => 5
      case Body => 4
      case Write => 3
      case Free => 2
      case SetWaitingAgain => 1
      case ClearRunning => 0
      case Returned => 0
  }

  /** At some point of the run the session is between two calls. */
  predicate GetsReady(s: State, run: seq<Event>)
    decreases |run|
  {
    s.session == Ready || (run != [] && GetsReady(Next(s, run[0]), run[1..]))
  }

  lemma {:induction false} GetsReadyMeans(s: State, run: seq<Event>)
    ensures GetsReady(s, run) <==> exists n | 0 <= n <= |run| :: After(s, run[..n]).session == Ready
    decreases |run|
  {
    hide Next;
    if s.session == Ready {
      assert After(s, run[..0]) == s;
    } else if run != [] {
      var t, tail := Next(s, run[0]), run[1..];
      GetsReadyMeans(t, tail);
      forall n | 1 <= n <= |run| ensures After(s, run[..n]) == After(t, tail[..n - 1]) {
        assert run[..n][1..] == tail[..n - 1];
      }
      if GetsReady(t, tail) {
        var n :| 0 <= n <= |tail| && After(t, tail[..n]).session == Ready;
        assert After(s, run[..n + 1]).session == Ready;
      }
    }
  }

  /** How many steps of its own the session is from the end of `SetBytes`, once the writer asks. */
  function StepsToReady(s: State): nat {
    match s.session
    case AskIfWaiting(_) => 5
    case Allocate(_) => 4
    case Copy(_) => 3
    case SetSize(_) => 2
    case HandOver(_) => 1
    case _ => 0
  }

  lemma ReadyComesCloser(s: State, e: Event)
    requires Inv(s) && s.serverOn && InSetBytes(s.session) && s.waiting
    ensures var n := Next(s, e);
            && n.serverOn && StepsToReady(n) == StepsToReady(s) - (if e.SessionStep? then 1 else 0)
            && (n.session == Ready || (InSetBytes(n.session) && n.waiting))
  {
    hide Concat;
  }

  lemma {:induction false} FillsAndReturns(s: State, run: seq<Event>)
    requires Inv(s) && s.serverOn && InSetBytes(s.session) && s.waiting && SessionSteps(run) >= StepsToReady(s)
    ensures GetsReady(s, run)
    decreases |run|
  {
    hide Concat, Inv, NextOfSession, NextOfWriter;
    if run != [] {
      InvStep(s, run[0]);
      ReadyComesCloser(s, run[0]);
      if Next(s, run[0]).session != Ready {
        FillsAndReturns(Next(s, run[0]), run[1..]);
      }
    }
  }

  /** With the server on, five steps of the writer and then five of the session are enough for `SetBytes`. */
  lemma {:induction false} SetBytesReturns(s: State, run: seq<Event>, rest: seq<Event>)
    requires Inv(s) && s.serverOn && InSetBytes(s.session)
    requires WriterSteps(run) >= StepsToAsk(s) && SessionSteps(rest) >= 5
    ensures GetsReady(s, run + rest)
    decreases |run|
  {
    hide Concat, Inv, NextOfSession, NextOfWriter;
    if s.waiting {
      SessionStepsJoin(run, rest);
      FillsAndReturns(s, run + rest);
    } else {
      StillAsking(s, WriterStep);
      StillAsking(s, run[0]);
      InvStep(s, run[0]);
      assert (run + rest)[1..] == run[1..] + rest;
      SetBytesReturns(Next(s, run[0]), run[1..], rest);
    }
  }

  lemma StillAsking(s: State, e: Event)
    requires Inv(s) && s.serverOn && InSetBytes(s.session) && !s.waiting
    ensures 0 < StepsToAsk(s) <= 5
    ensures var n := Next(s, e);
            n.serverOn && InSetBytes(n.session) && StepsToAsk(n) <= Minus(StepsToAsk(s), if e.WriterStep? then 1 else 0)
  {
    hide Concat;
  }

  lemma {:induction false} SessionStepsJoin(x: seq<Event>, y: seq<Event>)
    ensures SessionSteps(x + y) == SessionSteps(x) + SessionSteps(y)
    decreases |x|
  {
    if x == [] {
      assert x + y == y;
    } else {
      assert (x + y)[1..] == x[1..] + y;
      SessionStepsJoin(x[1..], y);
    }
  }

  lemma {:induction false} SetBytesHangs(s: State, run: seq<Event>)
    requires Inv(s) && !s.serverOn && s.session.AskIfWaiting?
    ensures After(s, run).session == s.session && !GetsReady(s, run)
    decreases |run|
  {
    hide Concat;
    if run != [] {
      InvStep(s, run[0]);
      assert !s.waiting;
      SetBytesHangs(Next(s, run[0]), run[1..]);
    }
  }

  /**
    * In a call of `SetBytes`, five steps of the writer and then five of the session, with any others between them,
    * end the call exactly when the server is on.
    */
  lemma SetBytesReturnsIff(serverOn: bool, run: seq<Event>, more: seq<Event>, rest: seq<Event>)
    requires Reached(serverOn, run).session.AskIfWaiting? && WriterSteps(more) >= 5 && SessionSteps(rest) >= 5
    ensures (exists n | 0 <= n <= |more + rest| :: After(Reached(serverOn, run), (more + rest)[..n]).session == Ready)
            <==> serverOn
  {
    hide Concat, Inv, NextOfSession, NextOfWriter;
    var s := Reached(serverOn, run);
    ReachedHolds(serverOn, run);
    ReachedHolds(serverOn, []);
    SettingStays(Initial(serverOn), run);
    GetsReadyMeans(s, more + rest);
    if serverOn {
      if !s.waiting { StillAsking(s, WriterStep); }
      SetBytesReturns(s, more, rest);
    } else {
      SetBytesHangs(s, more + rest);
    }
  }

  lemma SettingKept(s: State, e: Event)
    requires Inv(s)
    ensures Next(s, e).serverOn == s.serverOn
  {
    hide Concat;
  }

  lemma {:induction false} SettingStays(s: State, run: seq<Event>)
    requires Inv(s)
    ensures After(s, run).serverOn == s.serverOn
    decreases |run|
  {
    hide Next, Inv;
    if run != [] {
      InvStep(s, run[0]);
      SettingKept(s, run[0]);
      SettingStays(Next(s, run[0]), run[1..]);
    }
  }

  // ------------------------------------------------------------ the thread after `Close`

  /** Once a buffer has been given, `Close` gets through only after the thread has run to its end. */
  lemma NoThreadBehindClose(serverOn: bool, run: seq<Event>)
    requires var p := Reached(serverOn, run).session; p == CloseFile || p == AwaitThread || p == Closed
    requires Calls(serverOn, run) != []
    ensures Reached(serverOn, run).writer == Returned
  {
    hide Concat;
    ReachedHolds(serverOn, run);
    CallsAreGiven(serverOn, run);
  }

  /** `Close` without a call of `SetBytes`, all of it before the thread has done a step. */
  function CloseAtOnce(j: bv8): seq<Event> {
    [CallClose, SessionStep(j), SessionStep(j), SessionStep(j), SessionStep(j)]
  }

  lemma ClosesAtOnce(serverOn: bool, j: bv8)
    ensures Reached(serverOn, CloseAtOnce(j)) ==
            Initial(serverOn).(done := true, open := false, session := Closed)
  {
    var run, e := CloseAtOnce(j), SessionStep(j);
    var t1, t2, t3, t4, t5 := run[1..], [e, e, e], [e, e], [e], [];
    assert t1[1..] == t2 && t2[1..] == t3 && t3[1..] == t4 && t4[1..] == t5;
    var a := Initial(serverOn).(session := SetDone);
    var b := a.(done := true, session := AskIfRunning);
    var c := b.(session := CloseFile);
    var d := c.(open := false, session := AwaitThread);
    calc {
      After(Initial(serverOn), run);
      After(a, t1);
      After(b, t2);
      After(c, t3);
      After(d, t4);
      After(d.(session := Closed), t5);
      d.(session := Closed);
    }
  }

  /** A thread that starts then sets the flags of an object that its owner may have done away with. */
  lemma LateThread(j: bv8)
    ensures var s := Reached(true, CloseAtOnce(j) + [WriterStep, WriterStep]);
            && s.session == Closed && s.running && s.writer == SetWaiting
            && Calls(true, CloseAtOnce(j) + [WriterStep, WriterStep]) == []
  {
    CallsAreGiven(true, CloseAtOnce(j) + [WriterStep, WriterStep]);
    var s := Reached(true, CloseAtOnce(j));
    ClosesAtOnce(true, j);
    AfterBoth(Initial(true), CloseAtOnce(j), [WriterStep, WriterStep]);
    assert [WriterStep, WriterStep][1..] == [WriterStep];
    var t := s.(writer := SetRunning);
    assert After(s, [WriterStep, WriterStep]) == After(t, [WriterStep]) == NextOfWriter(t);
  }

  /** That the thread is at its end whenever `Close` is holds exactly for those who have given a buffer. */
  lemma ThreadEndsBeforeCloseIff(serverOn: bool, calls: seq<Bytes>)
    ensures (forall run | Reached(serverOn, run).session == Closed && Calls(serverOn, run) == calls ::
               Reached(serverOn, run).writer == Returned)
            <==> calls != []
  {
    if calls == [] {
      ClosesAtOnce(serverOn, 0);
      CallsAreGiven(serverOn, CloseAtOnce(0));
    } else {
      forall run | Reached(serverOn, run).session == Closed && Calls(serverOn, run) == calls
        ensures Reached(serverOn, run).writer == Returned
      {
        NoThreadBehindClose(serverOn, run);
      }
    }
  }

  /** The thread may start after `Close` has already gone past its wait loop. */
  lemma CloseBeforeStart(j: bv8)
    ensures var s := Reached(true, [CallClose, SessionStep(j), SessionStep(j)]);
            PastWait(s.session) && s.writer == AskIfServerOn && s.open
  {
    var run := [CallClose, SessionStep(j), SessionStep(j)];
    assert run[1..] == [SessionStep(j), SessionStep(j)] && run[1..][1..] == [SessionStep(j)] && run[1..][1..][1..] == [];
    var a := Initial(true).(session := SetDone);
    var b := a.(done := true, session := AskIfRunning);
    var c := b.(session := CloseFile);
    assert After(Initial(true), run) == After(a, run[1..]) == After(b, run[1..][1..]) == After(c, run[1..][1..][1..]) == c;
  }
}
