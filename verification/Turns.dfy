/** What one turn of run() comes to: who is connected after it, exactly, and what became of the bytes that arrived. */
module Turns {
  import opened Wrappers
  import opened Ordering
  import opened ServerState
  import opened PollTable
  import opened Machine
  import opened EventLoop
  import opened Marks
  import DeferredDeletion
  import Framing

  // ---- the drain ----

  /** The states in which the drain handles a message, one for each. */
  function Handled(s: State, fd: int): seq<State>
    requires StateInv(s)
    decreases if fd in s.io.buffers then |s.io.buffers[fd].recv| else 0
  {
    if !CanProcess(s, fd) then []
    else
      ProcessKeepsInv(s, fd);
      Framing.ExtractIsLossless(s.io.buffers[fd].recv);
      var (s1, keep) := ProcessOne(s, fd);
      [s] + if keep then Handled(s1, fd) else []
  }

  /** The message at the front of the buffer. */
  function Front(s: State, fd: int): string
    requires CanProcess(s, fd)
  {
    Framing.Extract(s.io.buffers[fd].recv).value.0
  }

  /** One of the messages the drain handles marks f. */
  predicate DrainGivesUp(s: State, fd: int, f: int)
    requires StateInv(s)
  {
    exists m | m in Handled(s, fd) :: CanProcess(m, fd) && f in m.io.buffers && MessageMarks(m, fd, Front(m, fd), f)
  }

  lemma ProcessMarks(s: State, fd: int, f: int)
    requires StateInv(s) && CanProcess(s, fd)
    ensures f in ProcessOne(s, fd).0.io.toRemove <==>
            f in s.io.toRemove || (f in s.io.buffers && MessageMarks(s, fd, Front(s, fd), f))
    ensures !ProcessOne(s, fd).1 ==> fd in ProcessOne(s, fd).0.io.toRemove
  {
    var (msg, rest) := Framing.Extract(s.io.buffers[fd].recv).value;
    var s1 := s.(io := Received(s.io, fd, rest));
    ReceivedKeepsIo(s.io, s.ctl.serverFd, fd, rest);
    HandleMarks(s1, fd, msg, f);
    HandleMarks(s1, fd, msg, fd);
    hide Inv, IoInv, Handle, AllEffects, HearsGone, AsksRemoval, Framing.Extract;
    assert s1.io.buffers.Keys == s.io.buffers.Keys;
  }

  lemma {:induction false} DrainMarks(s: State, fd: int, f: int)
    requires StateInv(s)
    ensures f in DrainClient(s, fd).0.io.toRemove <==> f in s.io.toRemove || DrainGivesUp(s, fd, f)
    ensures !DrainClient(s, fd).1 ==> fd in DrainClient(s, fd).0.io.toRemove
    decreases if fd in s.io.buffers then |s.io.buffers[fd].recv| else 0
  {
    hide Inv, IoInv, MessageMarks, ProcessOne, Framing.Extract;
    if CanProcess(s, fd) {
      ProcessKeepsInv(s, fd);
      Framing.ExtractIsLossless(s.io.buffers[fd].recv);
      ProcessMarks(s, fd, f);
      ProcessMarks(s, fd, fd);
      var (s1, keep) := ProcessOne(s, fd);
      assert s in Handled(s, fd);
      if keep {
        DrainMarks(s1, fd, f);
        DrainMarks(s1, fd, fd);
        assert Handled(s, fd) == [s] + Handled(s1, fd);
      } else {
        assert Handled(s, fd) == [s];
      }
    }
  }

  /** Texts of the handled messages. */
  function Texts(states: seq<State>, fd: int): seq<string>
    requires forall m | m in states :: CanProcess(m, fd)
  {
    if states == [] then [] else [Front(states[0], fd)] + Texts(states[1..], fd)
  }

  lemma {:induction false} HandledCanProcess(s: State, fd: int)
    requires StateInv(s)
    ensures forall m | m in Handled(s, fd) :: CanProcess(m, fd)
    decreases if fd in s.io.buffers then |s.io.buffers[fd].recv| else 0
  {
    hide Inv, IoInv, CanProcess, ProcessOne, Framing.Extract;
    if CanProcess(s, fd) {
      DrainStep(s, fd);
      if ProcessOne(s, fd).1 { HandledCanProcess(ProcessOne(s, fd).0, fd); }
    }
  }

  lemma DrainStep(s: State, fd: int)
    requires StateInv(s) && CanProcess(s, fd)
    ensures var (s1, _) := ProcessOne(s, fd);
            StateInv(s1) && fd in s.io.buffers && fd in s1.io.buffers
            && |s1.io.buffers[fd].recv| < |s.io.buffers[fd].recv|
            && Framing.Extract(s.io.buffers[fd].recv) == Some((Front(s, fd), s1.io.buffers[fd].recv))
  {
    ProcessKeepsInv(s, fd);
    Framing.ExtractIsLossless(s.io.buffers[fd].recv);
  }

  /** A client that is not marked after the drain had all of its buffer's messages handled, and keeps the leftover. */
  lemma {:induction false} DrainHandlesAll(s: State, fd: int)
    requires StateInv(s) && fd in s.io.buffers && fd !in DrainClient(s, fd).0.io.toRemove
    ensures (forall m | m in Handled(s, fd) :: CanProcess(m, fd))
            && Texts(Handled(s, fd), fd) == Framing.Drain(s.io.buffers[fd].recv).0
    ensures fd in DrainClient(s, fd).0.io.buffers
            && DrainClient(s, fd).0.io.buffers[fd].recv == Framing.Drain(s.io.buffers[fd].recv).1
    decreases |s.io.buffers[fd].recv|
  {
    DrainMarks(s, fd, fd);
    HandledCanProcess(s, fd);
    if CanProcess(s, fd) {
      DrainStep(s, fd);
      hide Inv, IoInv, ProcessOne, DrainGivesUp, Framing.Extract, MessageMarks;
      var (s1, keep) := ProcessOne(s, fd);
      assert keep;
      DrainHandlesAll(s1, fd);
      assert Handled(s, fd) == [s] + Handled(s1, fd);
    } else {
      assert s.io.buffers.Keys == s.ctl.clients.Keys;
    }
  }

  // ---- one slot's turn ----

  /** The received bytes are in the buffer. */
  function Appended(s: State, fd: int, chunk: string): (r: State)
    requires StateInv(s) && fd in s.io.buffers
    ensures StateInv(r) && r.ctl == s.ctl && r.io.toRemove == s.io.toRemove
  {
    var all := s.io.buffers[fd].recv + Framing.CString(chunk);
    ReceivedKeepsIo(s.io, s.ctl.serverFd, fd, all);
    s.(io := Received(s.io, fd, all))
  }

  function AfterReading(s: State, fd: int, r: Ready): (s': State)
    requires StateInv(s)
    ensures StateInv(s')
  {
    if r.readable then ReadClient(s, fd, r.recv).0 else s
  }

  /** Bytes are pending, and send() will report an error that lasts. */
  predicate WriteFails(s: State, fd: int) {
    fd in s.io.buffers && s.io.buffers[fd].send != "" && LastingError(s.io.net)
  }

  /** Why the turn of a client's slot marks f: a hang-up, the end of its stream, a failed write, a message handled. */
  predicate SlotGivesUp(s: State, i: nat, r: Ready, f: int)
    requires StateInv(s) && i < |s.io.fds|
  {
    var g := s.io.fds[i].fd;
    g in s.io.buffers &&
    ((f == g && (r.broken || (r.readable && r.recv.None?)))
     || (r.readable && r.recv.Some? && DrainGivesUp(Appended(s, g, r.recv.value), g, f))
     || (f == g && r.writable && WriteFails(AfterReading(s, g, r), g)))
  }

  lemma ReadMarks(s: State, fd: int, recv: Option<string>, f: int)
    requires StateInv(s) && fd in s.io.buffers
    ensures f in ReadClient(s, fd, recv).0.io.toRemove <==>
            f in s.io.toRemove || (recv.Some? && DrainGivesUp(Appended(s, fd, recv.value), fd, f))
    ensures !ReadClient(s, fd, recv).1 ==> recv.None? || fd in ReadClient(s, fd, recv).0.io.toRemove
    ensures ReadClient(s, fd, recv).1 ==> recv.Some?
  {
    hide Inv, IoInv, DrainGivesUp, Framing.CString, DrainClient;
    if recv.Some? {
      DrainMarks(Appended(s, fd, recv.value), fd, f);
      DrainMarks(Appended(s, fd, recv.value), fd, fd);
    }
  }

  lemma AfterReadMarks(s: State, i: nat, r: Ready, f: int)
    requires StateInv(s) && i < |s.io.fds| && s.io.fds[i].fd != s.ctl.serverFd
    ensures var g := s.io.fds[i].fd;
            f in AfterRead(s, i, r).io.toRemove <==>
            f in s.io.toRemove || (f == g != -1 && (r.broken || (r.writable && WriteFails(s, g))))
  {
    TableMeans(s.io, s.ctl.serverFd);
    var g := s.io.fds[i].fd;
    hide Inv, IoInv, FlushOut, Void;
    if g != -1 {
      WriteMarks(s.io, g);
      MarkMarks(s.io, g);
      if r.writable { AfterWriteSlot(s, i, r); }
    }
  }

  lemma AfterWriteSlot(s: State, i: nat, r: Ready)
    requires StateInv(s) && i < |s.io.fds| && s.io.fds[i].fd in s.io.buffers
    ensures var g, io := s.io.fds[i].fd, WriteOut(s.io, s.io.fds[i].fd);
            FlushOut(s.io, g).1 ==> i < |io.fds| && io.fds[i].fd == g && g in io.buffers
  {
    hide Inv, IoInv;
  }

  /** Main result for a slot: whom its turn marks, exactly. */
  lemma SlotMarks(s: State, i: nat, r: Ready, f: int)
    requires StateInv(s) && i < |s.io.fds| && FreshFor(s, s.io.fds[i].fd, r)
    ensures f in SlotTurn(s, i, r).0.io.toRemove <==> f in s.io.toRemove || SlotGivesUp(s, i, r, f)
  {
    TableMeans(s.io, s.ctl.serverFd);
    var g := s.io.fds[i].fd;
    if Quiet(r) || g == s.ctl.serverFd {
    } else if g == -1 {
      VoidSlotRests(s, i, r);
    } else {
      ClientSlotMarks(s, i, r, f);
    }
  }

  lemma VoidSlotRests(s: State, i: nat, r: Ready)
    requires StateInv(s) && i < |s.io.fds| && s.io.fds[i].fd == -1
    ensures -1 !in s.io.buffers && ServeSlot(s, i, r).io.toRemove == s.io.toRemove
  {
  }

  lemma ClientSlotMarks(s: State, i: nat, r: Ready, f: int)
    requires StateInv(s) && i < |s.io.fds| && s.io.fds[i].fd in s.io.buffers && s.io.fds[i].fd != s.ctl.serverFd
    ensures f in ServeSlot(s, i, r).io.toRemove <==> f in s.io.toRemove || SlotGivesUp(s, i, r, f)
  {
    hide StateInv, ReadClient, AfterRead, DrainGivesUp, WriteFails, Appended, Mark;
    var g := s.io.fds[i].fd;
    var s1 := AfterReading(s, g, r);
    SlotAfterReading(s, i, r);
    if r.readable { ReadMarks(s, g, r.recv, f); ReadMarks(s, g, r.recv, g); }
    if !r.readable || ReadClient(s, g, r.recv).1 {
      ClientDescriptor(s, g);
      AfterReadMarks(s1, i, r, f);
    } else {
      MarkMarks(s1.io, g);
    }
  }

  lemma ClientDescriptor(s: State, g: int)
    requires StateInv(s) && g in s.io.buffers
    ensures g != -1 && s.ctl.serverFd != -1 && g != s.ctl.serverFd
  {
  }

  /** A client whose slot was voided while reading has been marked. */
  lemma SlotAfterReading(s: State, i: nat, r: Ready)
    requires StateInv(s) && i < |s.io.fds| && s.io.fds[i].fd in s.io.buffers
    ensures var g, s1 := s.io.fds[i].fd, AfterReading(s, s.io.fds[i].fd, r);
            && i < |s1.io.fds| && g in s1.io.buffers && s1.ctl.serverFd == s.ctl.serverFd
            && (s1.io.fds[i].fd == g || (s1.io.fds[i].fd == -1 && g in s1.io.toRemove))
  {
    hide *;
    var g := s.io.fds[i].fd;
    var s1 := AfterReading(s, g, r);
    ReadingKeepsTable(s, g, r);
    SameTableSize(s, s1);
    SameDescriptors(s);
    SameDescriptors(s1);
    SlotLasts(s.io.fds, s1.io.fds, i);
    SlotIsUnmarked(s, i);
    SlotIsUnmarked(s1, i);
    if g !in s1.io.toRemove {
      ClientHasSlot(s, g);
      ClientHasSlot(s1, g);
      SameLength(s.io.fds, s1.io.fds, g);
      DescriptorStays(s.io.fds, s1.io.fds, g);
    }
  }

  lemma ReadingKeepsTable(s: State, g: int, r: Ready)
    requires StateInv(s)
    ensures var s1 := AfterReading(s, g, r);
            && SlotsLast(s.io.fds, s1.io.fds) && s1.ctl.serverFd == s.ctl.serverFd
            && s1.ctl.clients.Keys == s.ctl.clients.Keys
  {
    hide StateInv, ReadClient;
  }

  lemma SlotLasts(fds: seq<Slot>, fds': seq<Slot>, i: nat)
    requires SlotsLast(fds, fds') && i < |fds|
    ensures i < |fds'| && (fds'[i].fd == fds[i].fd || fds'[i].fd == -1)
  {
  }

  lemma SameLength(fds: seq<Slot>, fds': seq<Slot>, d: int)
    requires |fds| == |fds'|
    ensures NotAppended(fds, fds', d)
  {
  }

  lemma AfterReadSends(s: State, i: nat, r: Ready)
    requires StateInv(s) && i < |s.io.fds| && s.io.fds[i].fd in s.io.buffers && r.writable
    requires !WriteFails(s, s.io.fds[i].fd)
    ensures var g := s.io.fds[i].fd;
            AfterRead(s, i, r).io.buffers
            == s.io.buffers[g := s.io.buffers[g].(send := Remaining(s.io.buffers[g].send, s.io.net))]
  {
    var g := s.io.fds[i].fd;
    ClientDescriptor(s, g);
    hide Inv, IoInv, WriteOut, FlushOut, Remaining;
    WriteSends(s.io, g);
    WriteMarks(s.io, g);
  }

  /** A writable slot whose client is not given up offers its pending bytes to send(), once, after the reading. */
  lemma SlotSends(s: State, i: nat, r: Ready)
    requires StateInv(s) && i < |s.io.fds| && FreshFor(s, s.io.fds[i].fd, r)
    requires s.io.fds[i].fd in s.io.buffers && r.writable && s.io.fds[i].fd !in SlotTurn(s, i, r).0.io.toRemove
    ensures var g, s1 := s.io.fds[i].fd, AfterReading(s, s.io.fds[i].fd, r);
            && g in s1.io.buffers
            && SlotTurn(s, i, r).0.io.buffers
            == s1.io.buffers[g := s1.io.buffers[g].(send := Remaining(s1.io.buffers[g].send, s1.io.net))]
  {
    var g, s1 := s.io.fds[i].fd, AfterReading(s, s.io.fds[i].fd, r);
    ClientDescriptor(s, g);
    SlotMarks(s, i, r, g);
    SlotAfterReading(s, i, r);
    if r.readable { ReadMarks(s, g, r.recv, g); }
    ServeAfterReading(s, i, r);
    hide StateInv, AfterReading, ServeSlot, AfterRead, DrainGivesUp, Appended, Remaining, FreshFor;
    AfterReadSends(s1, i, r);
  }

  lemma ServeAfterReading(s: State, i: nat, r: Ready)
    requires StateInv(s) && i < |s.io.fds| && s.io.fds[i].fd in s.io.buffers
    requires r.readable ==> ReadClient(s, s.io.fds[i].fd, r.recv).1
    ensures i < |AfterReading(s, s.io.fds[i].fd, r).io.fds|
    ensures ServeSlot(s, i, r) == AfterRead(AfterReading(s, s.io.fds[i].fd, r), i, r)
  {
    SlotAfterReading(s, i, r);
    hide StateInv, ReadClient, AfterRead;
  }

  // ---- the scan ----

  /** The state in which the scan that starts at slot i comes to slot j. */
  ghost function At(s: State, ready: seq<Ready>, i: nat, j: nat): (r: State)
    requires StateInv(s) && ScanReady(s, ready, i) && i <= j <= |ready|
    ensures StateInv(r) && ScanReady(r, ready, j)
    decreases j - i
  {
    if i == j then s else ScanGoesOn(s, ready, i); At(SlotTurn(s, i, ready[i]).0, ready, i + 1, j)
  }

  /** In the scan from slot i on, the turn of some slot marks f. */
  ghost predicate ScanGivesUp(s: State, ready: seq<Ready>, i: nat, f: int)
    requires StateInv(s) && ScanReady(s, ready, i)
  {
    exists j | i <= j < |ready| :: SlotGivesUp(At(s, ready, i, j), j, ready[j], f)
  }

  lemma ScanGivesUpUnfolds(s: State, ready: seq<Ready>, i: nat, f: int)
    requires StateInv(s) && ScanReady(s, ready, i) && i < |ready|
    requires ScanReady(SlotTurn(s, i, ready[i]).0, ready, i + 1)
    ensures ScanGivesUp(s, ready, i, f) <==>
            SlotGivesUp(s, i, ready[i], f) || ScanGivesUp(SlotTurn(s, i, ready[i]).0, ready, i + 1, f)
  {
    AtUnfolds(s, ready, i);
    hide StateInv, ScanReady, SlotGivesUp, SlotTurn, FreshFor, At;
  }

  lemma AtUnfolds(s: State, ready: seq<Ready>, i: nat)
    requires StateInv(s) && ScanReady(s, ready, i) && i < |ready|
    requires ScanReady(SlotTurn(s, i, ready[i]).0, ready, i + 1)
    ensures At(s, ready, i, i) == s
    ensures forall j | i < j < |ready| :: At(s, ready, i, j) == At(SlotTurn(s, i, ready[i]).0, ready, i + 1, j)
  {
    hide StateInv, SlotTurn, FreshFor;
  }

  lemma AtStart(s: State, ready: seq<Ready>, i: nat)
    requires StateInv(s) && ScanReady(s, ready, i)
    ensures At(s, ready, i, i) == s
  {
    hide StateInv, ScanReady;
  }

  lemma {:induction false} ScanMarks(s: State, ready: seq<Ready>, i: nat, f: int)
    requires StateInv(s) && ScanReady(s, ready, i) && Scan(s, ready, i).1
    ensures f in Scan(s, ready, i).0.io.toRemove <==> f in s.io.toRemove || ScanGivesUp(s, ready, i, f)
    decreases |ready| - i
  {
    assert i <= |ready|;
    hide *;
    if i < |ready| {
      ScanLater(s, ready, i);
      SlotMarks(s, i, ready[i], f);
      ScanGivesUpUnfolds(s, ready, i, f);
      ScanMarks(SlotTurn(s, i, ready[i]).0, ready, i + 1, f);
    } else {
      NobodyLeftToGiveUp(s, ready, f);
    }
  }

  lemma NobodyLeftToGiveUp(s: State, ready: seq<Ready>, f: int)
    requires StateInv(s) && ScanReady(s, ready, |ready|)
    ensures !ScanGivesUp(s, ready, |ready|, f) && Scan(s, ready, |ready|) == (s, true)
  {
  }

  // ---- who is connected after it ----

  /** The server's slot is reported, and accept() has a connection for which there is room. */
  predicate Admits(s: State, i: nat, r: Ready)
    requires i < |s.io.fds|
  {
    s.io.fds[i].fd == s.ctl.serverFd && !Quiet(r) && r.incoming.Connection? && |s.io.fds| <= 20
  }

  /** An admitted connection is a new client with nothing done yet, and a slot of its own at the end of the table. */
  lemma NewcomerIs(s: State, i: nat, r: Ready)
    requires StateInv(s) && i < |s.io.fds| && FreshFor(s, s.io.fds[i].fd, r) && Admits(s, i, r)
    ensures var fd, k := r.incoming.fd, s.ctl;
            SlotTurn(s, i, r).0
            == State(k.(clients := k.clients[fd := ClientData(k.nextId, "", "", r.incoming.host, "",
                                                              false, false, false, false, "")],
                        nextId := k.nextId + 1),
                     s.io.(fds := s.io.fds + [Slot(fd, false)], buffers := s.io.buffers[fd := Buffers("", "")]))
  {
    hide Inv, IoInv;
  }

  /** Whoever was connected still is, as the same object. */
  predicate KeepsClients(s: State, s': State) {
    && (forall f | f in s.ctl.clients :: f in s'.ctl.clients && s'.ctl.clients[f].id == s.ctl.clients[f].id)
    && s.io.toRemove <= s'.io.toRemove
  }

  lemma {:induction false} DrainKeepsClients(s: State, fd: int)
    requires StateInv(s)
    ensures KeepsClients(s, DrainClient(s, fd).0)
    decreases if fd in s.io.buffers then |s.io.buffers[fd].recv| else 0
  {
    hide Inv, IoInv, ProcessOne, CanProcess;
    if CanProcess(s, fd) {
      DrainStep(s, fd);
      ProcessKeepsInv(s, fd);
      if ProcessOne(s, fd).1 { DrainKeepsClients(ProcessOne(s, fd).0, fd); }
    }
  }

  lemma ReadKeepsClients(s: State, fd: int, recv: Option<string>)
    requires StateInv(s)
    ensures KeepsClients(s, ReadClient(s, fd, recv).0)
  {
    hide Inv, IoInv, DrainClient, Framing.CString;
    if fd in s.ctl.clients && recv.Some? { DrainKeepsClients(Appended(s, fd, recv.value), fd); }
  }

  lemma ServeKeepsClients(s: State, i: nat, r: Ready)
    requires StateInv(s) && i < |s.io.fds|
    ensures KeepsClients(s, ServeSlot(s, i, r))
  {
    hide StateInv, ReadClient, AfterRead, Mark;
    var g := s.io.fds[i].fd;
    ReadKeepsClients(s, g, r.recv);
    var s1 := if r.readable then ReadClient(s, g, r.recv).0 else s;
    AfterReadKeepsMarks(s1, i, r);
    MarkMarks(s1.io, g);
  }

  lemma AfterReadKeepsMarks(s: State, i: nat, r: Ready)
    requires StateInv(s) && i < |s.io.fds|
    ensures s.io.toRemove <= AfterRead(s, i, r).io.toRemove
  {
    hide Inv, IoInv, WriteOut, Mark, FlushOut;
    var g := s.io.fds[i].fd;
    if g in s.io.buffers { WriteMarks(s.io, g); }
    var s1 := if g != -1 && r.writable then WriteClient(s, g).0 else s;
    MarkMarks(s1.io, s1.io.fds[i].fd);
  }

  /** One slot: nobody leaves, and exactly an admitted connection comes in. */
  lemma SlotClients(s: State, i: nat, r: Ready)
    requires StateInv(s) && i < |s.io.fds| && FreshFor(s, s.io.fds[i].fd, r)
    ensures var s' := SlotTurn(s, i, r).0;
            && KeepsClients(s, s')
            && s'.ctl.clients.Keys == s.ctl.clients.Keys + (if Admits(s, i, r) then {r.incoming.fd} else {})
            && (!Admits(s, i, r) ==> |s'.io.fds| == |s.io.fds|)
            && (SlotTurn(s, i, r).1 <==> s.io.fds[i].fd != s.ctl.serverFd || Quiet(r) || Admits(s, i, r))
  {
    if s.io.fds[i].fd == s.ctl.serverFd || Quiet(r) {
      ServerSlotClients(s, i, r);
    } else {
      hide StateInv, ServeSlot;
      ServeKeepsClients(s, i, r);
      ServeSlotKeeps(s, i, r);
      SameTableSize(s, ServeSlot(s, i, r));
    }
  }

  lemma ServerSlotClients(s: State, i: nat, r: Ready)
    requires StateInv(s) && i < |s.io.fds| && FreshFor(s, s.io.fds[i].fd, r)
    requires s.io.fds[i].fd == s.ctl.serverFd || Quiet(r)
    ensures var s' := SlotTurn(s, i, r).0;
            && KeepsClients(s, s')
            && s'.ctl.clients.Keys == s.ctl.clients.Keys + (if Admits(s, i, r) then {r.incoming.fd} else {})
            && (!Admits(s, i, r) ==> |s'.io.fds| == |s.io.fds|)
            && (SlotTurn(s, i, r).1 <==> s.io.fds[i].fd != s.ctl.serverFd || Quiet(r) || Admits(s, i, r))
  {
    hide Inv, IoInv, ServeSlot;
  }

  lemma SameTableSize(s: State, s': State)
    requires StateInv(s) && StateInv(s') && s'.ctl.clients.Keys == s.ctl.clients.Keys
    ensures |s'.io.fds| == |s.io.fds|
  {
    TableMeans(s.io, s.ctl.serverFd);
    TableMeans(s'.io, s'.ctl.serverFd);
    SameSize(s.io.buffers, s'.io.buffers);
  }

  /** The descriptor has one slot and no other. */
  predicate OneSlot(fds: seq<Slot>, d: int) {
    && d != -1 && (exists k :: 0 <= k < |fds| && fds[k].fd == d)
    && forall i, j | 0 <= i < j < |fds| && fds[i].fd == d :: fds[j].fd != d
  }

  /** Slots of the table keep their descriptor or become void. */
  predicate SlotsLast(fds: seq<Slot>, fds': seq<Slot>) {
    |fds| <= |fds'| && forall j | 0 <= j < |fds| :: fds'[j].fd == fds[j].fd || fds'[j].fd == -1
  }

  predicate NotAppended(fds: seq<Slot>, fds': seq<Slot>, d: int) {
    forall j | |fds| <= j < |fds'| :: fds'[j].fd != d
  }

  /** A descriptor that is still in the table, and not in a new slot, is where it was. */
  lemma DescriptorStays(fds: seq<Slot>, fds': seq<Slot>, d: int)
    requires SlotsLast(fds, fds') && NotAppended(fds, fds', d) && OneSlot(fds, d) && OneSlot(fds', d)
    ensures forall j | 0 <= j < |fds| :: fds'[j].fd == d <==> fds[j].fd == d
  {
    var k :| 0 <= k < |fds'| && fds'[k].fd == d;
    assert fds[k].fd == d;
  }

  lemma ServerSlotStays(s: State, s': State)
    requires StateInv(s) && StateInv(s') && s'.ctl.serverFd == s.ctl.serverFd
    requires SlotsKeep(s.io, s'.io) && |s'.io.fds| == |s.io.fds|
    ensures forall j | 0 <= j < |s.io.fds| :: s'.io.fds[j].fd == s.ctl.serverFd <==> s.io.fds[j].fd == s.ctl.serverFd
  {
    assert SlotsLast(s.io.fds, s'.io.fds) && NotAppended(s.io.fds, s'.io.fds, s.ctl.serverFd);
    hide *;
    ServerHasSlot(s);
    ServerHasSlot(s');
    DescriptorStays(s.io.fds, s'.io.fds, s.ctl.serverFd);
  }

  lemma ServerHasSlot(s: State)
    requires StateInv(s)
    ensures OneSlot(s.io.fds, s.ctl.serverFd)
  {
    TableMeans(s.io, s.ctl.serverFd);
  }

  /** From slot i on, no accept fails: nothing is refused, and there is room. */
  predicate AcceptsOk(s: State, ready: seq<Ready>, i: nat)
    requires i <= |ready| <= |s.io.fds|
  {
    forall j | i <= j < |ready| && s.io.fds[j].fd == s.ctl.serverFd && !Quiet(ready[j]) :: Admits(s, j, ready[j])
  }

  /** From slot i on, this connection is admitted. */
  predicate Admitted(s: State, ready: seq<Ready>, i: nat, f: int)
    requires i <= |ready| <= |s.io.fds|
  {
    exists j | i <= j < |ready| :: Admits(s, j, ready[j]) && ready[j].incoming.fd == f
  }

  lemma AcceptsUnfold(s: State, ready: seq<Ready>, i: nat)
    requires StateInv(s) && ScanReady(s, ready, i) && i < |ready|
    ensures var (s1, ok) := SlotTurn(s, i, ready[i]);
            && ScanReady(s1, ready, i + 1)
            && (AcceptsOk(s, ready, i) <==> ok && AcceptsOk(s1, ready, i + 1))
            && (ok ==> forall f :: Admitted(s, ready, i, f) <==>
                (Admits(s, i, ready[i]) && ready[i].incoming.fd == f) || Admitted(s1, ready, i + 1, f))
  {
    ScanGoesOn(s, ready, i);
    SlotClients(s, i, ready[i]);
    var (s1, ok) := SlotTurn(s, i, ready[i]);
    if !ok {
      return;
    }
    LaterAdmissions(s, ready, i);
    hide StateInv, SlotTurn, FreshFor, ScanReady, KeepsClients;
    AdmissionsSplit(s, s1, ready, i);
  }

  lemma AdmissionsSplit(s: State, s1: State, ready: seq<Ready>, i: nat)
    requires i < |ready| <= |s.io.fds| && |ready| <= |s1.io.fds|
    requires forall j | i < j < |ready| ::
               && (Admits(s, j, ready[j]) <==> Admits(s1, j, ready[j]))
               && (s.io.fds[j].fd == s.ctl.serverFd <==> s1.io.fds[j].fd == s1.ctl.serverFd)
    ensures AcceptsOk(s, ready, i) <==>
            (s.io.fds[i].fd == s.ctl.serverFd && !Quiet(ready[i]) ==> Admits(s, i, ready[i]))
            && AcceptsOk(s1, ready, i + 1)
    ensures forall f :: Admitted(s, ready, i, f) <==>
            (Admits(s, i, ready[i]) && ready[i].incoming.fd == f) || Admitted(s1, ready, i + 1, f)
  {
    hide Admits;
  }

  /** What comes after slot i is admitted or not as it looked before slot i. */
  lemma LaterAdmissions(s: State, ready: seq<Ready>, i: nat)
    requires StateInv(s) && ScanReady(s, ready, i) && i < |ready| && SlotTurn(s, i, ready[i]).1
    ensures var s1 := SlotTurn(s, i, ready[i]).0;
            && s1.ctl.serverFd == s.ctl.serverFd && |ready| <= |s1.io.fds|
            && forall j | i < j < |ready| ::
                 && (Admits(s, j, ready[j]) <==> Admits(s1, j, ready[j]))
                 && (s.io.fds[j].fd == s.ctl.serverFd <==> s1.io.fds[j].fd == s.ctl.serverFd)
  {
    ScanGoesOn(s, ready, i);
    SlotClients(s, i, ready[i]);
    var s1 := SlotTurn(s, i, ready[i]).0;
    if Admits(s, i, ready[i]) {
      OneServerSlot(s, i);
    } else {
      ServerSlotStays(s, s1);
    }
    hide StateInv, SlotTurn, FreshFor;
  }

  lemma OneServerSlot(s: State, i: nat)
    requires StateInv(s) && i < |s.io.fds| && s.io.fds[i].fd == s.ctl.serverFd
    ensures forall j | 0 <= j < |s.io.fds| && j != i :: s.io.fds[j].fd != s.ctl.serverFd
  {
    TableMeans(s.io, s.ctl.serverFd);
  }

  /** Main result for the scan: it goes through iff no accept fails, and then exactly the admitted have come in. */
  lemma {:induction false} ScanClients(s: State, ready: seq<Ready>, i: nat)
    requires StateInv(s) && ScanReady(s, ready, i)
    ensures var (s', ok) := Scan(s, ready, i);
            && KeepsClients(s, s') && (ok <==> AcceptsOk(s, ready, i))
            && (ok ==> forall f :: f in s'.ctl.clients <==> f in s.ctl.clients || Admitted(s, ready, i, f))
    decreases |ready| - i
  {
    hide StateInv, SlotTurn, FreshFor, AcceptsOk, Admitted;
    if i < |ready| {
      AcceptsUnfold(s, ready, i);
      SlotClients(s, i, ready[i]);
      if SlotTurn(s, i, ready[i]).1 { ScanClients(SlotTurn(s, i, ready[i]).0, ready, i + 1); }
    } else {
      NoneLeft(s, ready);
    }
  }

  lemma NoneLeft(s: State, ready: seq<Ready>)
    requires |ready| <= |s.io.fds|
    ensures AcceptsOk(s, ready, |ready|) && forall f :: !Admitted(s, ready, |ready|, f)
  {
  }

  // ---- what became of the bytes ----

  lemma {:induction false} DrainReceives(s: State, fd: int, f: int)
    requires StateInv(s) && f in s.io.buffers && f != fd
    ensures f in DrainClient(s, fd).0.io.buffers
            && DrainClient(s, fd).0.io.buffers[f].recv == s.io.buffers[f].recv
    decreases if fd in s.io.buffers then |s.io.buffers[fd].recv| else 0
  {
    hide Inv, IoInv, ProcessOne, CanProcess;
    if CanProcess(s, fd) {
      DrainStep(s, fd);
      ProcessReceives(s, fd, f);
      if ProcessOne(s, fd).1 { DrainReceives(ProcessOne(s, fd).0, fd, f); }
    }
  }

  lemma ProcessReceives(s: State, fd: int, f: int)
    requires StateInv(s) && CanProcess(s, fd) && f in s.io.buffers && f != fd
    ensures var io' := ProcessOne(s, fd).0.io; f in io'.buffers && io'.buffers[f].recv == s.io.buffers[f].recv
  {
    var (msg, rest) := Framing.Extract(s.io.buffers[fd].recv).value;
    ReceivedKeepsIo(s.io, s.ctl.serverFd, fd, rest);
    HandleKeepsIo(s.(io := Received(s.io, fd, rest)), fd, msg);
    hide Inv, IoInv, Handle;
  }

  /** What a readable slot leaves in f's buffer, if f is not marked: its own bytes drained, anybody else's untouched. */
  lemma ReadReceives(s: State, fd: int, recv: Option<string>, f: int)
    requires StateInv(s) && fd in s.io.buffers && f in s.io.buffers
    ensures var io' := ReadClient(s, fd, recv).0.io;
            && f in io'.buffers
            && (f != fd || recv.None? ==> io'.buffers[f].recv == s.io.buffers[f].recv)
            && (f == fd && recv.Some? && fd !in io'.toRemove ==>
                io'.buffers[f].recv == Framing.Drain(s.io.buffers[f].recv + Framing.CString(recv.value)).1)
  {
    hide Inv, IoInv, DrainClient, Framing.Drain, Framing.CString;
    if recv.Some? {
      var s1 := Appended(s, fd, recv.value);
      if f != fd {
        DrainReceives(s1, fd, f);
      } else if fd !in DrainClient(s1, fd).0.io.toRemove {
        DrainHandlesAll(s1, fd);
      } else {
        DrainKeepsClients(s1, fd);
      }
    }
  }

  lemma AfterReadReceives(s: State, i: nat, r: Ready, f: int)
    requires StateInv(s) && i < |s.io.fds| && f in s.io.buffers
    ensures f in AfterRead(s, i, r).io.buffers
            && AfterRead(s, i, r).io.buffers[f].recv == s.io.buffers[f].recv
  {
    hide Inv, IoInv, WriteOut, FlushOut;
    var g := s.io.fds[i].fd;
    if g in s.io.buffers { WriteFrame(s.io, g); }
  }

  /** The chunk that the slot's turn reads from f, if any. */
  predicate Reads(s: State, i: nat, r: Ready, f: int)
    requires i < |s.io.fds|
  {
    s.io.fds[i].fd == f && r.readable
  }

  lemma SlotReceives(s: State, i: nat, r: Ready, f: int)
    requires StateInv(s) && i < |s.io.fds| && FreshFor(s, s.io.fds[i].fd, r) && f in s.io.buffers
    ensures var io' := SlotTurn(s, i, r).0.io;
            && f in io'.buffers
            && (!Reads(s, i, r, f) ==> io'.buffers[f].recv == s.io.buffers[f].recv)
            && (Reads(s, i, r, f) && f !in io'.toRemove ==>
                r.recv.Some?
                && io'.buffers[f].recv == Framing.Drain(s.io.buffers[f].recv + Framing.CString(r.recv.value)).1)
  {
    var g := s.io.fds[i].fd;
    SlotMarks(s, i, r, f);
    if Quiet(r) || g == s.ctl.serverFd {
      ServerSlotReceives(s, i, r, f);
    } else if g in s.io.buffers {
      ServeReceives(s, i, r, f);
    } else {
      VoidSlotReceives(s, i, r, f);
    }
  }

  lemma ServerSlotReceives(s: State, i: nat, r: Ready, f: int)
    requires StateInv(s) && i < |s.io.fds| && FreshFor(s, s.io.fds[i].fd, r) && f in s.io.buffers
    requires Quiet(r) || s.io.fds[i].fd == s.ctl.serverFd
    ensures f in SlotTurn(s, i, r).0.io.buffers && SlotTurn(s, i, r).0.io.buffers[f] == s.io.buffers[f]
    ensures !Reads(s, i, r, f)
  {
    hide Inv, Armed;
  }

  lemma VoidSlotReceives(s: State, i: nat, r: Ready, f: int)
    requires StateInv(s) && i < |s.io.fds| && s.io.fds[i].fd !in s.io.buffers && s.io.fds[i].fd != s.ctl.serverFd
    requires f in s.io.buffers
    ensures f in ServeSlot(s, i, r).io.buffers && ServeSlot(s, i, r).io.buffers[f] == s.io.buffers[f]
  {
    TableMeans(s.io, s.ctl.serverFd);
    hide Inv, IoInv;
  }

  lemma ServeReceives(s: State, i: nat, r: Ready, f: int)
    requires StateInv(s) && i < |s.io.fds| && s.io.fds[i].fd in s.io.buffers && f in s.io.buffers
    ensures var io' := ServeSlot(s, i, r).io;
            && f in io'.buffers
            && (!Reads(s, i, r, f) ==> io'.buffers[f].recv == s.io.buffers[f].recv)
            && (Reads(s, i, r, f) && f !in io'.toRemove ==>
                r.recv.Some?
                && io'.buffers[f].recv == Framing.Drain(s.io.buffers[f].recv + Framing.CString(r.recv.value)).1)
  {
    hide StateInv, ReadClient, AfterRead, Framing.Drain, Framing.CString;
    var g := s.io.fds[i].fd;
    var s1 := AfterReading(s, g, r);
    if r.readable {
      ReadReceives(s, g, r.recv, f);
      ReadMarks(s, g, r.recv, g);
    }
    AfterReadReceives(s1, i, r, f);
    AfterReadKeepsMarks(s1, i, r);
    MarkMarks(s1.io, g);
  }

  lemma ClientHasSlot(s: State, f: int)
    requires StateInv(s) && f in s.io.buffers && f !in s.io.toRemove
    ensures OneSlot(s.io.fds, f)
  {
    TableMeans(s.io, s.ctl.serverFd);
  }

  lemma NewSlotIsNew(s: State, i: nat, r: Ready)
    requires StateInv(s) && i < |s.io.fds| && FreshFor(s, s.io.fds[i].fd, r) && Admits(s, i, r)
    ensures SlotTurn(s, i, r).0.io.fds == s.io.fds + [Slot(r.incoming.fd, false)] && r.incoming.fd !in s.io.buffers
  {
  }

  lemma TurnKeepsSlots(s: State, i: nat, r: Ready)
    requires StateInv(s) && i < |s.io.fds| && FreshFor(s, s.io.fds[i].fd, r)
    ensures var s1 := SlotTurn(s, i, r).0;
            && s.ctl.clients.Keys == s.io.buffers.Keys && s1.ctl.clients.Keys == s1.io.buffers.Keys
            && StateInv(s1) && SlotsLast(s.io.fds, s1.io.fds)
            && forall f | f in s.io.buffers :: NotAppended(s.io.fds, s1.io.fds, f)
  {
    hide SlotTurn;
    SlotClients(s, i, r);
    if Admits(s, i, r) { NewSlotIsNew(s, i, r); }
  }

  lemma StillConnected(s: State, i: nat, r: Ready, f: int)
    requires StateInv(s) && i < |s.io.fds| && FreshFor(s, s.io.fds[i].fd, r)
    requires f in s.io.buffers && f !in SlotTurn(s, i, r).0.io.toRemove
    ensures f in SlotTurn(s, i, r).0.io.buffers && f !in s.io.toRemove
  {
    SlotClients(s, i, r);
    TurnKeepsSlots(s, i, r);
    hide SlotTurn, StateInv;
  }

  /** The slot of a client that is not marked in the end stays where it is through another slot's turn. */
  lemma ClientSlotStays(s: State, i: nat, r: Ready, f: int)
    requires StateInv(s) && i < |s.io.fds| && FreshFor(s, s.io.fds[i].fd, r)
    requires f in s.io.buffers && f !in SlotTurn(s, i, r).0.io.toRemove
    ensures var s1 := SlotTurn(s, i, r).0;
            f in s1.io.buffers && f !in s.io.toRemove
            && forall j | 0 <= j < |s.io.fds| :: s1.io.fds[j].fd == f <==> s.io.fds[j].fd == f
  {
    var s1 := SlotTurn(s, i, r).0;
    TurnKeepsSlots(s, i, r);
    hide *;
    StillConnected(s, i, r, f);
    ClientHasSlot(s, f);
    ClientHasSlot(s1, f);
    DescriptorStays(s.io.fds, s1.io.fds, f);
  }

  /** What the chunk of a slot, if it is f's, makes of f's buffer. */
  predicate Drained(s: State, ready: seq<Ready>, j: nat, f: int, recv': string)
    requires j < |ready| && f in s.io.buffers
  {
    ready[j].recv.Some?
    && recv' == Framing.Drain(s.io.buffers[f].recv + Framing.CString(ready[j].recv.value)).1
  }

  /** recv' is f's buffer with the chunk of its slot, if it has one from slot i on, drained. */
  predicate AllDrained(s: State, ready: seq<Ready>, i: nat, f: int, recv': string)
    requires i <= |ready| <= |s.io.fds| && f in s.io.buffers
  {
    && (forall j | i <= j < |ready| && Reads(s, j, ready[j], f) :: Drained(s, ready, j, f, recv'))
    && ((forall j | i <= j < |ready| :: !Reads(s, j, ready[j], f)) ==> recv' == s.io.buffers[f].recv)
  }

  lemma DrainedLater(s: State, s1: State, ready: seq<Ready>, i: nat, f: int, recv': string)
    requires i < |ready| <= |s.io.fds| && |ready| <= |s1.io.fds| && f in s.io.buffers && f in s1.io.buffers
    requires forall j | i < j < |ready| :: Reads(s1, j, ready[j], f) <==> Reads(s, j, ready[j], f)
    requires Reads(s, i, ready[i], f) ==>
               Drained(s, ready, i, f, s1.io.buffers[f].recv)
               && forall j | i < j < |ready| :: !Reads(s, j, ready[j], f)
    requires !Reads(s, i, ready[i], f) ==> s1.io.buffers[f].recv == s.io.buffers[f].recv
    requires AllDrained(s1, ready, i + 1, f, recv')
    ensures AllDrained(s, ready, i, f, recv')
  {
    hide Framing.Drain, Framing.CString, Reads;
  }

  /** Main result for the bytes: what the scan leaves in the buffer of a client that is not marked in the end. */
  lemma {:induction false} ScanReceives(s: State, ready: seq<Ready>, i: nat, f: int)
    requires StateInv(s) && ScanReady(s, ready, i) && Scan(s, ready, i).1
    requires f in s.io.buffers && f !in Scan(s, ready, i).0.io.toRemove
    ensures var s' := Scan(s, ready, i).0;
            && f in s'.io.buffers && f !in s.io.toRemove
            && AllDrained(s, ready, i, f, s'.io.buffers[f].recv)
    decreases |ready| - i
  {
    assert i <= |ready|;
    hide *;
    if i < |ready| {
      ScanLater(s, ready, i);
      var s1 := SlotTurn(s, i, ready[i]).0;
      NotMarkedYet(s1, ready, i + 1, f);
      NextSlotReads(s, ready, i, f);
      ScanReceives(s1, ready, i + 1, f);
      SlotDrained(s, ready, i, f);
      DrainedLater(s, s1, ready, i, f, Scan(s1, ready, i + 1).0.io.buffers[f].recv);
    } else {
      ScanEnds(s, ready, f);
    }
  }

  lemma ScanEnds(s: State, ready: seq<Ready>, f: int)
    requires StateInv(s) && ScanReady(s, ready, |ready|) && f in s.io.buffers
    ensures |ready| <= |s.io.fds| && Scan(s, ready, |ready|) == (s, true)
    ensures AllDrained(s, ready, |ready|, f, s.io.buffers[f].recv)
  {
  }

  lemma ScanLater(s: State, ready: seq<Ready>, i: nat)
    requires StateInv(s) && ScanReady(s, ready, i) && i < |ready| && Scan(s, ready, i).1
    ensures i < |s.io.fds| && FreshFor(s, s.io.fds[i].fd, ready[i]) && |ready| <= |s.io.fds|
    ensures var (s1, ok) := SlotTurn(s, i, ready[i]);
            && ok && StateInv(s1) && ScanReady(s1, ready, i + 1) && Scan(s, ready, i) == Scan(s1, ready, i + 1)
            && s.io.toRemove <= s1.io.toRemove
  {
    ScanGoesOn(s, ready, i);
    SlotClients(s, i, ready[i]);
    hide StateInv, SlotTurn;
  }

  lemma NotMarkedYet(s: State, ready: seq<Ready>, i: nat, f: int)
    requires StateInv(s) && ScanReady(s, ready, i) && f !in Scan(s, ready, i).0.io.toRemove
    ensures f !in s.io.toRemove
  {
    ScanClients(s, ready, i);
    hide StateInv, Scan;
  }

  lemma SlotDrained(s: State, ready: seq<Ready>, i: nat, f: int)
    requires StateInv(s) && i < |ready| <= |s.io.fds| && FreshFor(s, s.io.fds[i].fd, ready[i])
    requires f in s.io.buffers && f !in SlotTurn(s, i, ready[i]).0.io.toRemove
    ensures var s1 := SlotTurn(s, i, ready[i]).0;
            && f in s1.io.buffers
            && (Reads(s, i, ready[i], f) ==> Drained(s, ready, i, f, s1.io.buffers[f].recv))
            && (!Reads(s, i, ready[i], f) ==> s1.io.buffers[f].recv == s.io.buffers[f].recv)
  {
    SlotReceives(s, i, ready[i], f);
    hide StateInv, SlotTurn;
  }

  lemma NextSlotReads(s: State, ready: seq<Ready>, i: nat, f: int)
    requires StateInv(s) && ScanReady(s, ready, i) && i < |ready|
    requires f in s.io.buffers && f !in SlotTurn(s, i, ready[i]).0.io.toRemove
    ensures var s1 := SlotTurn(s, i, ready[i]).0;
            && f in s1.io.buffers && |ready| <= |s1.io.fds|
            && (forall j | i < j < |ready| :: Reads(s1, j, ready[j], f) <==> Reads(s, j, ready[j], f))
            && (Reads(s, i, ready[i], f) ==> forall j | i < j < |ready| :: !Reads(s, j, ready[j], f))
  {
    ClientSlotStays(s, i, ready[i], f);
    ClientHasSlot(s, f);
    hide StateInv, SlotTurn;
  }

  // ---- the turn ----

  lemma {:induction false} TimeoutsMark(s: State, fds: seq<int>)
    requires StateInv(s)
    ensures var s1 := MarkAll(s, fds);
            && s1.ctl == s.ctl && s1.io.buffers == s.io.buffers
            && forall f :: f in s1.io.toRemove <==> f in s.io.toRemove || (f in fds && f in s.ctl.clients)
    decreases |fds|
  {
    hide Inv, IoInv, Mark;
    if fds != [] {
      assert fds == [fds[0]] + fds[1..];
      MarkMarks(s.io, fds[0]);
      MarkOnlyMarks(s.io, fds[0]);
      TimeoutsMark(MarkState(s, fds[0]), fds[1..]);
    }
  }

  lemma MarkOnlyMarks(io: Io, fd: int)
    ensures Mark(io, fd).buffers == io.buffers
  {
  }

  lemma AfterTimeouts(s: State, timeouts: set<int>)
    requires StateInv(s)
    ensures var s1 := MarkAll(s, SortedFds(timeouts));
            && s1.ctl == s.ctl && s1.io.buffers == s.io.buffers && s1.io.toRemove <= s1.ctl.clients.Keys
            && s1.io.toRemove == s.io.toRemove + timeouts * s.ctl.clients.Keys
  {
    TimeoutsMark(s, SortedFds(timeouts));
    hide SortedFds, MarkAll, Inv;
    var s1 := MarkAll(s, SortedFds(timeouts));
    forall f ensures f in s1.io.toRemove <==> f in s.io.toRemove + timeouts * s.ctl.clients.Keys {
      assert f in SortedFds(timeouts) <==> f in timeouts;
    }
  }

  lemma CleanClients(s: State)
    requires StateInv(s)
    ensures Clean(s).ctl.clients == s.ctl.clients - s.io.toRemove && Clean(s).io.toRemove == {}
    ensures Clean(s).io.buffers == s.io.buffers - s.io.toRemove
  {
    DeferredDeletion.CleanupPurgesExactlyTheMarked(s);
  }

  lemma AdmittedIsNew(s: State, ready: seq<Ready>, f: int)
    requires ScanReady(s, ready, 0) && Admitted(s, ready, 0, f)
    ensures f !in s.ctl.clients
  {
    var j :| 0 <= j < |ready| && Admits(s, j, ready[j]) && ready[j].incoming.fd == f;
    assert FreshFor(s, s.io.fds[j].fd, ready[j]);
  }

  /** The three stages of a turn in which no accept fails. */
  lemma FullTurn(s: State, timeouts: set<int>, ready: seq<Ready>)
    requires StateInv(s) && ScanReady(MarkAll(s, SortedFds(timeouts)), ready, 0)
    requires AcceptsOk(MarkAll(s, SortedFds(timeouts)), ready, 0)
    ensures var s1 := MarkAll(s, SortedFds(timeouts));
            && StateInv(s1) && |ready| <= |s1.io.fds| && Scan(s1, ready, 0).1 && StateInv(Scan(s1, ready, 0).0)
            && s1.io.buffers.Keys == s1.ctl.clients.Keys
            && KeepsClients(s1, Scan(s1, ready, 0).0)
            && (forall f :: f in Scan(s1, ready, 0).0.ctl.clients <==> f in s1.ctl.clients || Admitted(s1, ready, 0, f))
            && Turn(s, timeouts, Some(ready)) == Clean(Scan(s1, ready, 0).0)
  {
    hide *;
    var s1 := MarkAll(s, SortedFds(timeouts));
    ScanClients(s1, ready, 0);
    ReadyFits(s1, ready, 0);
    SameDescriptors(s1);
    TurnCleans(s, timeouts, ready);
  }

  lemma SameDescriptors(s: State)
    requires StateInv(s)
    ensures s.io.buffers.Keys == s.ctl.clients.Keys && s.io.toRemove <= s.ctl.clients.Keys
  {
  }

  lemma TurnCleans(s: State, timeouts: set<int>, ready: seq<Ready>)
    requires StateInv(s) && ScanReady(MarkAll(s, SortedFds(timeouts)), ready, 0)
    ensures var (s2, ok) := Scan(MarkAll(s, SortedFds(timeouts)), ready, 0);
            Turn(s, timeouts, Some(ready)) == if ok then Clean(s2) else s2
  {
    hide Scan, Clean, MarkAll, SortedFds, ScanReady, StateInv;
  }

  /**
   * Main result: who is connected after a turn in which no accept fails. Exactly those who were and had neither been
   * marked before nor timed out, and whoever was admitted, except those that the turn of some slot gave up; the ones
   * who stay are the same objects, and nobody is left marked.
   */
  lemma TurnClients(s: State, timeouts: set<int>, ready: seq<Ready>)
    requires StateInv(s) && ScanReady(MarkAll(s, SortedFds(timeouts)), ready, 0)
    requires AcceptsOk(MarkAll(s, SortedFds(timeouts)), ready, 0)
    ensures var s1, r := MarkAll(s, SortedFds(timeouts)), Turn(s, timeouts, Some(ready));
            && r.io.toRemove == {}
            && (forall f :: f in r.ctl.clients <==>
                  ((f in s.ctl.clients && f !in s.io.toRemove && f !in timeouts) || Admitted(s1, ready, 0, f))
                  && !ScanGivesUp(s1, ready, 0, f))
            && (forall f | f in s.ctl.clients && f in r.ctl.clients :: r.ctl.clients[f].id == s.ctl.clients[f].id)
  {
    hide *;
    FullTurn(s, timeouts, ready);
    AfterTimeouts(s, timeouts);
    var s1, r := MarkAll(s, SortedFds(timeouts)), Turn(s, timeouts, Some(ready));
    var s2 := Scan(s1, ready, 0).0;
    CleanClients(s2);
    forall f
      ensures f in r.ctl.clients <==>
              ((f in s.ctl.clients && f !in s.io.toRemove && f !in timeouts) || Admitted(s1, ready, 0, f))
              && !ScanGivesUp(s1, ready, 0, f)
    {
      ScanMarks(s1, ready, 0, f);
      if Admitted(s1, ready, 0, f) { AdmittedIsNew(s1, ready, f); }
    }
    KeptIdentity(s1, s2);
  }

  lemma KeptIdentity(s: State, s': State)
    requires KeepsClients(s, s')
    ensures forall f | f in s.ctl.clients :: f in s'.ctl.clients && s'.ctl.clients[f].id == s.ctl.clients[f].id
    ensures s.io.toRemove <= s'.io.toRemove
  {
  }

  /** And what is in their buffers: the chunk of the turn drained, with every complete message gone. */
  lemma TurnBuffers(s: State, timeouts: set<int>, ready: seq<Ready>, f: int)
    requires StateInv(s) && ScanReady(MarkAll(s, SortedFds(timeouts)), ready, 0)
    requires AcceptsOk(MarkAll(s, SortedFds(timeouts)), ready, 0)
    requires f in s.ctl.clients && f in Turn(s, timeouts, Some(ready)).ctl.clients
    ensures var s1, r := MarkAll(s, SortedFds(timeouts)), Turn(s, timeouts, Some(ready));
            && f in r.io.buffers && f in s.io.buffers && |ready| <= |s1.io.fds| && s1.io.buffers == s.io.buffers
            && AllDrained(s1, ready, 0, f, r.io.buffers[f].recv)
            && (forall j | 0 <= j < |ready| && Reads(s1, j, ready[j], f) ::
                  Framing.Extract(r.io.buffers[f].recv).None?)
  {
    hide *;
    FullTurn(s, timeouts, ready);
    AfterTimeouts(s, timeouts);
    var s1, r := MarkAll(s, SortedFds(timeouts)), Turn(s, timeouts, Some(ready));
    var s2 := Scan(s1, ready, 0).0;
    CleanClients(s2);
    ScanReceives(s1, ready, 0, f);
    DrainedHasNoMessage(s1, ready, f, s2.io.buffers[f].recv);
  }

  lemma DrainedHasNoMessage(s: State, ready: seq<Ready>, f: int, recv': string)
    requires |ready| <= |s.io.fds| && f in s.io.buffers && AllDrained(s, ready, 0, f, recv')
    ensures forall j | 0 <= j < |ready| && Reads(s, j, ready[j], f) :: Framing.Extract(recv').None?
  {
    hide Framing.Drain, Framing.Extract;
    forall j | 0 <= j < |ready| && Reads(s, j, ready[j], f) ensures Framing.Extract(recv').None? {
      NothingMore(s.io.buffers[f].recv + Framing.CString(ready[j].recv.value));
    }
  }

  lemma {:induction false} NothingMore(buf: string)
    ensures Framing.Extract(Framing.Drain(buf).1).None?
    decreases |buf|
  {
    hide Framing.Extract;
    Framing.ExtractIsLossless(buf);
    if Framing.Extract(buf).Some? { NothingMore(Framing.Extract(buf).value.1); }
  }

  /** The slot of a client that is not marked in the end is its own when the scan comes to it. */
  lemma {:induction false} SlotReached(s: State, ready: seq<Ready>, i: nat, j: nat, f: int)
    requires StateInv(s) && ScanReady(s, ready, i) && Scan(s, ready, i).1 && i <= j < |ready| <= |s.io.fds|
    requires f in s.io.buffers && f !in Scan(s, ready, i).0.io.toRemove && s.io.fds[j].fd == f
    ensures var sj := At(s, ready, i, j); j < |sj.io.fds| && f in sj.io.buffers && sj.io.fds[j].fd == f
    decreases j - i
  {
    hide *;
    if i == j {
      AtStart(s, ready, i);
    } else {
      ScanLater(s, ready, i);
      var s1 := SlotTurn(s, i, ready[i]).0;
      NotMarkedYet(s1, ready, i + 1, f);
      ClientSlotStays(s, i, ready[i], f);
      ReadyFits(s1, ready, i + 1);
      SlotReached(s1, ready, i + 1, j, f);
      AtUnfolds(s, ready, i);
    }
  }

  lemma ReadyFits(s: State, ready: seq<Ready>, i: nat)
    requires ScanReady(s, ready, i)
    ensures i <= |ready| <= |s.io.fds|
  {
  }

  /** In particular: whoever poll() reported as broken, or whose stream has ended, is gone after the turn. */
  lemma BrokenClientsGo(s: State, timeouts: set<int>, ready: seq<Ready>, j: nat)
    requires StateInv(s) && ScanReady(MarkAll(s, SortedFds(timeouts)), ready, 0)
    requires AcceptsOk(MarkAll(s, SortedFds(timeouts)), ready, 0) && j < |ready|
    requires ready[j].broken || (ready[j].readable && ready[j].recv.None?)
    ensures var f := MarkAll(s, SortedFds(timeouts)).io.fds[j].fd;
            f in s.ctl.clients ==> f !in Turn(s, timeouts, Some(ready)).ctl.clients
  {
    hide *;
    FullTurn(s, timeouts, ready);
    AfterTimeouts(s, timeouts);
    var s1, r := MarkAll(s, SortedFds(timeouts)), Turn(s, timeouts, Some(ready));
    var f, s2 := s1.io.fds[j].fd, Scan(s1, ready, 0).0;
    CleanClients(s2);
    if f in s.ctl.clients && f !in s2.io.toRemove {
      SlotReached(s1, ready, 0, j, f);
      ScanMarks(s1, ready, 0, f);
      BrokenSlotGivesUp(s1, ready, j, f);
    }
  }

  lemma BrokenSlotGivesUp(s: State, ready: seq<Ready>, j: nat, f: int)
    requires StateInv(s) && ScanReady(s, ready, 0) && j < |ready|
    requires var sj := At(s, ready, 0, j); j < |sj.io.fds| && f in sj.io.buffers && sj.io.fds[j].fd == f
    requires ready[j].broken || (ready[j].readable && ready[j].recv.None?)
    ensures ScanGivesUp(s, ready, 0, f)
  {
    hide StateInv, ScanReady, At;
    assert SlotGivesUp(At(s, ready, 0, j), j, ready[j], f);
  }

  /** A turn that a failed poll() cuts short: whoever timed out is marked, and nothing else of the registry changes. */
  lemma PollFailure(s: State, timeouts: set<int>)
    requires StateInv(s)
    ensures var r := Turn(s, timeouts, None);
            r.ctl == s.ctl && r.io.buffers == s.io.buffers
            && r.io.toRemove == s.io.toRemove + timeouts * s.ctl.clients.Keys
  {
    hide *;
    AfterTimeouts(s, timeouts);
    SameDescriptors(s);
    FailedPoll(s, timeouts);
  }

  /** A turn that a failed accept cuts short: nobody leaves, and whoever timed out or had been marked is marked. */
  lemma AcceptFailure(s: State, timeouts: set<int>, ready: seq<Ready>)
    requires StateInv(s) && ScanReady(MarkAll(s, SortedFds(timeouts)), ready, 0)
    requires !AcceptsOk(MarkAll(s, SortedFds(timeouts)), ready, 0)
    ensures var r := Turn(s, timeouts, Some(ready));
            && (forall f | f in s.ctl.clients :: f in r.ctl.clients && r.ctl.clients[f].id == s.ctl.clients[f].id)
            && s.io.toRemove + timeouts * s.ctl.clients.Keys <= r.io.toRemove
  {
    hide *;
    AfterTimeouts(s, timeouts);
    SameDescriptors(s);
    HaltedTurn(s, timeouts, ready);
    KeptIdentity(MarkAll(s, SortedFds(timeouts)), Turn(s, timeouts, Some(ready)));
  }

  lemma FailedPoll(s: State, timeouts: set<int>)
    requires StateInv(s)
    ensures Turn(s, timeouts, None) == MarkAll(s, SortedFds(timeouts))
  {
    hide MarkAll, SortedFds, StateInv;
  }

  lemma HaltedTurn(s: State, timeouts: set<int>, ready: seq<Ready>)
    requires StateInv(s) && ScanReady(MarkAll(s, SortedFds(timeouts)), ready, 0)
    requires !AcceptsOk(MarkAll(s, SortedFds(timeouts)), ready, 0)
    ensures KeepsClients(MarkAll(s, SortedFds(timeouts)), Turn(s, timeouts, Some(ready)))
  {
    hide *;
    ScanClients(MarkAll(s, SortedFds(timeouts)), ready, 0);
    TurnCleans(s, timeouts, ready);
  }
}
