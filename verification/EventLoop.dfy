/**
 * One turn of run(): timeouts, the scan of the poll table, and the cleanup that a failure skips. Every turn is a run of
 * the state machine's events, so all that is proved of runs holds turn after turn.
 */
module EventLoop {
  import opened Wrappers
  import opened Ordering
  import opened ServerState
  import opened PollTable
  import opened Machine
  import Framing

  /** accept(): a descriptor, or a failure (fcntl's included). */
  datatype Incoming = Refused | Connection(fd: int, host: string)

  /** What poll() reports for one slot, and what recv() or accept() will give there; recv None: closed or failed. */
  datatype Ready = Ready(readable: bool, writable: bool, broken: bool, recv: Option<string>, incoming: Incoming)

  predicate Quiet(r: Ready) { !r.readable && !r.writable && !r.broken }

  /** Slots keep their descriptor or become void; new ones come after them. */
  predicate SlotsKeep(io: Io, io': Io) {
    |io.fds| <= |io'.fds| && forall j | 0 <= j < |io.fds| :: io'.fds[j].fd == io.fds[j].fd || io'.fds[j].fd == -1
  }

  // ---- processClientRead ----

  /** The drain loop; false asks for removal. */
  function DrainClient(s: State, fd: int): (r: (State, bool))
    requires StateInv(s)
    ensures StateInv(r.0) && SlotsKeep(s.io, r.0.io)
    ensures r.0.ctl.clients.Keys == s.ctl.clients.Keys && r.0.ctl.serverFd == s.ctl.serverFd
    decreases if fd in s.io.buffers then |s.io.buffers[fd].recv| else 0
  {
    if !CanProcess(s, fd) then (s, true)
    else
      ProcessKeepsInv(s, fd);
      ProcessKeepsSlots(s, fd);
      Framing.ExtractIsLossless(s.io.buffers[fd].recv);
      var (s1, keep) := ProcessOne(s, fd);
      if keep then DrainClient(s1, fd) else (s1, false)
  }

  lemma ProcessKeepsSlots(s: State, fd: int)
    requires CanProcess(s, fd)
    ensures SlotsKeep(s.io, ProcessOne(s, fd).0.io)
  {
    var (msg, rest) := Framing.Extract(s.io.buffers[fd].recv).value;
    var s0 := s.(io := Received(s.io, fd, rest));
    HandleDelivers(s0, fd, msg);
    DeliverFrame(s0.io, AllEffects(s0.ctl, fd, msg));
  }

  function ReadClient(s: State, fd: int, recv: Option<string>): (r: (State, bool))
    requires StateInv(s)
    ensures StateInv(r.0) && SlotsKeep(s.io, r.0.io)
    ensures r.0.ctl.clients.Keys == s.ctl.clients.Keys && r.0.ctl.serverFd == s.ctl.serverFd
  {
    if fd !in s.ctl.clients || recv.None? then (s, false)
    else
      var all := s.io.buffers[fd].recv + Framing.CString(recv.value);
      ReceivedKeepsIo(s.io, s.ctl.serverFd, fd, all);
      DrainClient(s.(io := Received(s.io, fd, all)), fd)
  }

  // ---- one slot ----

  function MarkState(s: State, fd: int): (r: State)
    requires StateInv(s)
    ensures StateInv(r) && SlotsKeep(s.io, r.io) && r.ctl == s.ctl
  {
    MarkKeepsIo(s.io, s.ctl.serverFd, fd);
    s.(io := Mark(s.io, fd))
  }

  /** processClientWrite, and the mark run() adds when it fails; false ends the slot's turn. */
  function WriteClient(s: State, fd: int): (r: (State, bool))
    requires StateInv(s)
    ensures StateInv(r.0) && SlotsKeep(s.io, r.0.io) && r.0.ctl == s.ctl
  {
    if fd !in s.io.buffers then (s, false)
    else
      WriteKeepsState(s, fd);
      (s.(io := WriteOut(s.io, fd)), FlushOut(s.io, fd).1)
  }

  lemma WriteKeepsState(s: State, fd: int)
    requires StateInv(s) && fd in s.io.buffers
    ensures StateInv(s.(io := WriteOut(s.io, fd))) && SlotsKeep(s.io, WriteOut(s.io, fd))
  {
    hide TableOk, Armed, Inv;
    WriteKeepsIo(s.io, s.ctl.serverFd, fd);
  }

  /** The write and error parts of a slot's turn, which look at the slot again. */
  function AfterRead(s: State, i: nat, r: Ready): (s': State)
    requires StateInv(s) && i < |s.io.fds|
    ensures StateInv(s') && SlotsKeep(s.io, s'.io) && s'.ctl == s.ctl
  {
    var fd := s.io.fds[i].fd;
    var (s1, kept) := if fd != -1 && r.writable then WriteClient(s, fd) else (s, true);
    if kept && s1.io.fds[i].fd != -1 && r.broken then MarkState(s1, s1.io.fds[i].fd) else s1
  }

  /** A client's slot that has events. */
  function ServeSlot(s: State, i: nat, r: Ready): State
    requires StateInv(s) && i < |s.io.fds|
  {
    var fd := s.io.fds[i].fd;
    var (s1, kept) := if r.readable then ReadClient(s, fd, r.recv) else (s, true);
    if kept then AfterRead(s1, i, r) else MarkState(s1, fd)
  }

  lemma ServeSlotKeeps(s: State, i: nat, r: Ready)
    requires StateInv(s) && i < |s.io.fds|
    ensures var s' := ServeSlot(s, i, r);
            && StateInv(s') && SlotsKeep(s.io, s'.io)
            && s'.ctl.clients.Keys == s.ctl.clients.Keys && s'.ctl.serverFd == s.ctl.serverFd
  {
    hide StateInv, ReadClient, AfterRead, MarkState;
  }

  predicate FullHouse(s: State) { |s.io.fds| - 1 >= MAX_CLIENTS }

  /** accept() answers on the server's slot with a descriptor that is not open. */
  predicate FreshFor(s: State, fd: int, r: Ready) {
    fd == s.ctl.serverFd && r.incoming.Connection? ==> EnvOk(s, Accept(r.incoming.fd, r.incoming.host))
  }

  /** The body of the poll loop for slot i; false: accept failed, which throws out of the loop. */
  function SlotTurn(s: State, i: nat, r: Ready): (o: (State, bool))
    requires StateInv(s) && i < |s.io.fds| && FreshFor(s, s.io.fds[i].fd, r)
    ensures StateInv(o.0) && SlotsKeep(s.io, o.0.io) && o.0.ctl.serverFd == s.ctl.serverFd
    ensures s.io.fds[i].fd != s.ctl.serverFd ==> o.0.ctl.clients.Keys == s.ctl.clients.Keys
  {
    var fd := s.io.fds[i].fd;
    if Quiet(r) then (s, true)
    else if fd == s.ctl.serverFd then
      if r.incoming.Refused? || FullHouse(s) then (s, false)
      else
        AcceptKeepsInv(s, r.incoming.fd, r.incoming.host);
        (Admit(s, r.incoming.fd, r.incoming.host), true)
    else
      ServeSlotKeeps(s, i, r);
      (ServeSlot(s, i, r), true)
  }

  /** The slots still to come: fewer than the table has, and accept() will answer properly. */
  ghost predicate ScanReady(s: State, ready: seq<Ready>, i: nat) {
    && i <= |ready| <= |s.io.fds|
    && forall j | i <= j < |ready| :: FreshFor(s, s.io.fds[j].fd, ready[j])
  }

  /**
   * After one slot's turn the scan can go on: the slots it still has to look at are the ones poll() reported on, or
   * void by now, and what comes after the reported ones is new. If this was the server's slot, it does not come again.
   */
  lemma ScanGoesOn(s: State, ready: seq<Ready>, i: nat)
    requires StateInv(s) && ScanReady(s, ready, i) && i < |ready|
    ensures var s' := SlotTurn(s, i, ready[i]).0;
            && ScanReady(s', ready, i + 1) && SlotsKeep(s.io, s'.io)
            && (s.io.fds[i].fd == s.ctl.serverFd ==>
                forall j | i < j < |ready| :: s'.io.fds[j].fd != s.ctl.serverFd)
  {
    TableMeans(s.io, s.ctl.serverFd);
    var s' := SlotTurn(s, i, ready[i]).0;
    forall j | i + 1 <= j < |ready| ensures FreshFor(s', s'.io.fds[j].fd, ready[j]) {
      assert s'.io.fds[j].fd == s.io.fds[j].fd || s'.io.fds[j].fd == -1;
      assert FreshFor(s, s.io.fds[j].fd, ready[j]);
      assert s.io.fds[i].fd == s.ctl.serverFd ==> s.io.fds[j].fd != s.ctl.serverFd;
    }
  }

  /** The poll loop from slot i on. Slots added meanwhile have no events and are passed over. */
  function Scan(s: State, ready: seq<Ready>, i: nat): (o: (State, bool))
    requires StateInv(s) && ScanReady(s, ready, i)
    ensures StateInv(o.0)
    decreases |ready| - i
  {
    if i == |ready| then (s, true)
    else
      ScanGoesOn(s, ready, i);
      var (s1, ok) := SlotTurn(s, i, ready[i]);
      if ok then Scan(s1, ready, i + 1) else (s1, false)
  }

  function MarkAll(s: State, fds: seq<int>): (r: State)
    requires StateInv(s)
    ensures StateInv(r) && SlotsKeep(s.io, r.io) && r.ctl == s.ctl
    decreases |fds|
  {
    if fds == [] then s else MarkAll(MarkState(s, fds[0]), fds[1..])
  }

  /** One turn: timeouts, poll (None: it failed, which skips the rest), scan, cleanup unless the scan was cut short. */
  function Turn(s: State, timeouts: set<int>, polled: Option<seq<Ready>>): (r: State)
    requires StateInv(s)
    requires polled.Some? ==> ScanReady(MarkAll(s, SortedFds(timeouts)), polled.value, 0)
    ensures StateInv(r)
  {
    var s1 := MarkAll(s, SortedFds(timeouts));
    if polled.None? then s1
    else
      var (s2, ok) := Scan(s1, polled.value, 0);
      if ok then CleanKeepsInv(s2); Clean(s2) else s2
  }

  // ---- a turn is a run ----

  ghost predicate Reaches(s: State, es: seq<Event>, s': State) {
    Possible(s, es) && Run(s, es) == s'
  }

  lemma Stay(s: State)
    ensures Reaches(s, [], s)
  {
  }

  lemma OneEvent(s: State, e: Event)
    requires EnvOk(s, e)
    ensures Reaches(s, [e], Step(s, e))
  {
    assert [e][1..] == [];
  }

  lemma Chain(s: State, a: seq<Event>, s1: State, b: seq<Event>, s2: State)
    requires Reaches(s, a, s1) && Reaches(s1, b, s2)
    ensures Reaches(s, a + b, s2)
  {
    RunConcat(s, a, b);
  }

  lemma {:induction false} DrainIsRun(s: State, fd: int) returns (es: seq<Event>)
    requires StateInv(s)
    ensures Reaches(s, es, DrainClient(s, fd).0)
    decreases if fd in s.io.buffers then |s.io.buffers[fd].recv| else 0
  {
    if !CanProcess(s, fd) {
      es := [];
    } else {
      ProcessKeepsInv(s, fd);
      Framing.ExtractIsLossless(s.io.buffers[fd].recv);
      var (s1, keep) := ProcessOne(s, fd);
      OneEvent(s, Process(fd));
      es := [Process(fd)];
      if keep {
        var more := DrainIsRun(s1, fd);
        Chain(s, es, s1, more, DrainClient(s1, fd).0);
        es := es + more;
      }
    }
  }

  /** Only unmarked clients have a slot, so what arrives there is received. */
  lemma ReadIsRun(s: State, fd: int, recv: Option<string>) returns (es: seq<Event>)
    requires StateInv(s) && fd !in s.io.toRemove
    ensures Reaches(s, es, ReadClient(s, fd, recv).0)
  {
    hide Reaches, Inv, IoInv, DrainClient, Framing.CString;
    es := [];
    Stay(s);
    if fd in s.ctl.clients && recv.Some? {
      var e := Receive(fd, recv.value);
      OneEvent(s, e);
      StepKeepsInv(s, e);
      var more := DrainIsRun(Step(s, e), fd);
      Chain(s, [e], Step(s, e), more, DrainClient(Step(s, e), fd).0);
      es := [e] + more;
    }
  }

  lemma SlotIsUnmarked(s: State, i: nat)
    requires StateInv(s) && i < |s.io.fds|
    ensures s.io.fds[i].fd !in s.io.toRemove
  {
    TableMeans(s.io, s.ctl.serverFd);
  }

  lemma AfterReadIsRun(s: State, i: nat, r: Ready) returns (es: seq<Event>)
    requires StateInv(s) && i < |s.io.fds|
    ensures Reaches(s, es, AfterRead(s, i, r))
  {
    hide Reaches, StateInv;
    SlotIsUnmarked(s, i);
    var fd := s.io.fds[i].fd;
    Stay(s);
    var (s1, kept) := if fd != -1 && r.writable then WriteClient(s, fd) else (s, true);
    es := [];
    if fd != -1 && r.writable && fd in s.io.buffers {
      OneEvent(s, Writable(fd));
      es := [Writable(fd)];
    }
    assert Reaches(s, es, s1);
    if kept && s1.io.fds[i].fd != -1 && r.broken {
      var e := Remove(s1.io.fds[i].fd);
      OneEvent(s1, e);
      Chain(s, es, s1, [e], Step(s1, e));
      es := es + [e];
    }
  }

  lemma SlotTurnIsRun(s: State, i: nat, r: Ready) returns (es: seq<Event>)
    requires StateInv(s) && i < |s.io.fds| && FreshFor(s, s.io.fds[i].fd, r)
    ensures Reaches(s, es, SlotTurn(s, i, r).0)
  {
    hide Reaches, StateInv;
    es := [];
    Stay(s);
    var fd := s.io.fds[i].fd;
    if Quiet(r) {
    } else if fd == s.ctl.serverFd {
      if r.incoming.Connection? && !FullHouse(s) {
        es := [Accept(r.incoming.fd, r.incoming.host)];
        OneEvent(s, es[0]);
      }
    } else {
      es := ServeSlotIsRun(s, i, r);
    }
  }

  lemma ServeSlotIsRun(s: State, i: nat, r: Ready) returns (es: seq<Event>)
    requires StateInv(s) && i < |s.io.fds|
    ensures Reaches(s, es, ServeSlot(s, i, r))
  {
    hide Reaches, StateInv;
    es := [];
    Stay(s);
    SlotIsUnmarked(s, i);
    var fd := s.io.fds[i].fd;
    var (s1, kept) := if r.readable then ReadClient(s, fd, r.recv) else (s, true);
    if r.readable { es := ReadIsRun(s, fd, r.recv); }
    if kept {
      var more := AfterReadIsRun(s1, i, r);
      Chain(s, es, s1, more, AfterRead(s1, i, r));
      es := es + more;
    } else {
      OneEvent(s1, Remove(fd));
      Chain(s, es, s1, [Remove(fd)], MarkState(s1, fd));
      es := es + [Remove(fd)];
    }
  }

  lemma {:induction false} ScanIsRun(s: State, ready: seq<Ready>, i: nat) returns (es: seq<Event>)
    requires StateInv(s) && ScanReady(s, ready, i)
    ensures Reaches(s, es, Scan(s, ready, i).0)
    decreases |ready| - i
  {
    es := [];
    if i < |ready| {
      ScanGoesOn(s, ready, i);
      es := SlotTurnIsRun(s, i, ready[i]);
      var (s1, ok) := SlotTurn(s, i, ready[i]);
      if ok {
        var more := ScanIsRun(s1, ready, i + 1);
        Chain(s, es, s1, more, Scan(s1, ready, i + 1).0);
        es := es + more;
      }
    }
  }

  lemma {:induction false} MarkAllIsRun(s: State, fds: seq<int>) returns (es: seq<Event>)
    requires StateInv(s)
    ensures Reaches(s, es, MarkAll(s, fds))
    decreases |fds|
  {
    hide Reaches, StateInv, Mark;
    es := [];
    Stay(s);
    if fds != [] {
      var e := Remove(fds[0]);
      OneEvent(s, e);
      var more := MarkAllIsRun(MarkState(s, fds[0]), fds[1..]);
      Chain(s, [e], MarkState(s, fds[0]), more, MarkAll(s, fds));
      es := [e] + more;
    }
  }

  /** Main result: the event loop only does what the state machine allows, accept failures and failed polls included. */
  lemma TurnIsRun(s: State, timeouts: set<int>, polled: Option<seq<Ready>>) returns (es: seq<Event>)
    requires StateInv(s)
    requires polled.Some? ==> ScanReady(MarkAll(s, SortedFds(timeouts)), polled.value, 0)
    ensures Reaches(s, es, Turn(s, timeouts, polled))
  {
    hide Reaches, StateInv, MarkAll, Scan, ScanReady, Clean;
    var s1 := MarkAll(s, SortedFds(timeouts));
    es := MarkAllIsRun(s, SortedFds(timeouts));
    if polled.Some? {
      var more := ScanIsRun(s1, polled.value, 0);
      var (s2, ok) := Scan(s1, polled.value, 0);
      Chain(s, es, s1, more, s2);
      es := es + more;
      if ok {
        OneEvent(s2, Cleanup);
        Chain(s, es, s2, [Cleanup], Clean(s2));
        es := es + [Cleanup];
      }
    }
  }
}
