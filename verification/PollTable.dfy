/**
 * The I/O side of the server: the poll table, the clients' buffers, the removal marks, and send()'s answers.
 * Clients are named by descriptor; buffers has exactly the connected ones.
 */
module PollTable {
  import opened ServerState
  import opened Commands
  import opened Outbound

  /** A struct pollfd; POLLIN is always asked for. */
  datatype Slot = Slot(fd: int, pollOut: bool)

  datatype Buffers = Buffers(recv: string, send: string)

  /** net is what the kernel will answer to the next calls of send(); when it is used up they would block. */
  datatype Io = Io(fds: seq<Slot>, buffers: map<int, Buffers>, toRemove: set<int>, net: seq<SendResult>)

  // ---- the table ----

  /** Index of the first slot with this descriptor, or the size of the table. */
  function FirstSlot(fds: seq<Slot>, fd: int): (i: nat)
    ensures i <= |fds|
    ensures i < |fds| ==> fds[i].fd == fd
    ensures forall j | 0 <= j < i :: fds[j].fd != fd
  {
    if fds == [] || fds[0].fd == fd then 0 else 1 + FirstSlot(fds[1..], fd)
  }

  /** enablePollOutEvent, and its inverse in processClientWrite. */
  function SetPollOut(fds: seq<Slot>, fd: int, on: bool): seq<Slot> {
    var i := FirstSlot(fds, fd);
    if i < |fds| then fds[i := fds[i].(pollOut := on)] else fds
  }

  /** The slot of fd becomes -1. */
  function Void(fds: seq<Slot>, fd: int): seq<Slot> {
    var i := FirstSlot(fds, fd);
    if i < |fds| then fds[i := fds[i].(fd := -1)] else fds
  }

  /** Erasing the -1 slots. */
  function Compact(fds: seq<Slot>): seq<Slot> {
    if fds == [] then [] else (if fds[0].fd == -1 then [] else [fds[0]]) + Compact(fds[1..])
  }

  // ---- the operations ----

  function Answer(io: Io): SendResult { if io.net == [] then WouldBlock else io.net[0] }

  function AfterAnswer(net: seq<SendResult>): seq<SendResult> { if net == [] then [] else net[1..] }

  /** markClientForRemoval. */
  function Mark(io: Io, fd: int): Io {
    if fd !in io.buffers || fd in io.toRemove then io
    else io.(toRemove := io.toRemove + {fd}, fds := Void(io.fds, fd))
  }

  /** castMsg. */
  function CastMsg(io: Io, fd: int, msg: string): Io {
    if fd !in io.buffers then io
    else
      var r := Cast(io.buffers[fd].send, msg, Answer(io));
      var io1 := io.(net := AfterAnswer(io.net), buffers := io.buffers[fd := io.buffers[fd].(send := r.buf)]);
      var io2 := if r.arm then io1.(fds := SetPollOut(io1.fds, fd, true)) else io1;
      if r.drop then Mark(io2, fd) else io2
  }

  function Apply(io: Io, e: Effect): Io {
    match e
    case Tell(fd, msg) => CastMsg(io, fd, msg)
    case Drop(fd) => Mark(io, fd)
  }

  /** A command's effects, in order. */
  function Deliver(io: Io, out: seq<Effect>): Io
    decreases |out|
  {
    if out == [] then io else Deliver(Apply(io, out[0]), out[1..])
  }

  /** processClientWrite for a connected client; false asks for the client's removal. */
  function FlushOut(io: Io, fd: int): (Io, bool)
    requires fd in io.buffers
  {
    var buf := io.buffers[fd].send;
    if buf == "" then (io.(fds := SetPollOut(io.fds, fd, false)), true)
    else
      var r := Answer(io);
      var rest := Flush(buf, r);
      var io1 := io.(net := AfterAnswer(io.net), buffers := io.buffers[fd := io.buffers[fd].(send := rest)]);
      if r.PeerGone? || r.OtherError? then (io1, false)
      else if rest == "" then (io1.(fds := SetPollOut(io1.fds, fd, false)), true)
      else (io1, true)
  }

  /** What run() makes of POLLOUT on an unmarked client. */
  function WriteOut(io: Io, fd: int): Io
    requires fd in io.buffers
  {
    var (io1, keep) := FlushOut(io, fd);
    if keep then io1 else Mark(io1, fd)
  }

  function NewSlot(io: Io, fd: int): Io {
    io.(fds := io.fds + [Slot(fd, false)], buffers := io.buffers[fd := Buffers("", "")])
  }

  function Swept(io: Io): Io {
    io.(fds := Compact(io.fds), buffers := io.buffers - io.toRemove, toRemove := {})
  }

  function Received(io: Io, fd: int, recv: string): Io
    requires fd in io.buffers
  {
    io.(buffers := io.buffers[fd := io.buffers[fd].(recv := recv)])
  }

  // ---- the invariant ----

  function Fds(fds: seq<Slot>): (r: seq<int>)
    ensures |r| == |fds| && forall i | 0 <= i < |fds| :: r[i] == fds[i].fd
  {
    seq(|fds|, i requires 0 <= i < |fds| => fds[i].fd)
  }

  /** What the table must hold: the server's descriptor, every unmarked client's, each once, and one -1 per mark. */
  ghost function Expected(serverFd: int, clients: set<int>, toRemove: set<int>): multiset<int> {
    multiset{serverFd} + multiset(clients - toRemove) + multiset{}[-1 := |toRemove|]
  }

  ghost predicate TableOk(io: Io, serverFd: int) {
    && serverFd >= 0 && serverFd !in io.buffers && (forall f | f in io.buffers :: f >= 0)
    && io.toRemove <= io.buffers.Keys
    && multiset(Fds(io.fds)) == Expected(serverFd, io.buffers.Keys, io.toRemove)
    && |io.buffers| <= MAX_CLIENTS
  }

  /** No lost wakeup: whoever has bytes pending is polled for writing. */
  predicate Armed(io: Io) {
    forall i | 0 <= i < |io.fds| && io.fds[i].fd in io.buffers && io.buffers[io.fds[i].fd].send != "" ::
        io.fds[i].pollOut
  }

  ghost predicate IoInv(io: Io, serverFd: int) {
    TableOk(io, serverFd) && Armed(io)
  }

  // ---- what the invariant says ----

  /** Reading the table: sizes, one slot for the server, exactly one for each unmarked client, none for a marked one. */
  lemma TableMeans(io: Io, serverFd: int)
    requires TableOk(io, serverFd)
    ensures |io.fds| == 1 + |io.buffers| <= 1 + MAX_CLIENTS
    ensures forall i | 0 <= i < |io.fds| ::
              var fd := io.fds[i].fd; fd == -1 || fd == serverFd || (fd in io.buffers && fd !in io.toRemove)
    ensures forall i, j | 0 <= i < j < |io.fds| && io.fds[i].fd != -1 :: io.fds[i].fd != io.fds[j].fd
    ensures forall f | f in io.buffers && f !in io.toRemove :: exists i :: 0 <= i < |io.fds| && io.fds[i].fd == f
    ensures exists i :: 0 <= i < |io.fds| && io.fds[i].fd == serverFd
    ensures multiset(Fds(io.fds))[-1] == |io.toRemove|
  {
    var fs := Fds(io.fds);
    var m := multiset(fs);
    var live := io.buffers.Keys - io.toRemove;
    assert |live| == |io.buffers| - |io.toRemove| by {
      assert live + io.toRemove == io.buffers.Keys;
    }
    assert |multiset{}[-1 := |io.toRemove|]| == |io.toRemove| by { OnlyMinusOnes(|io.toRemove|); }
    forall i | 0 <= i < |fs| ensures var fd := fs[i]; fd == -1 || fd == serverFd || fd in live { assert fs[i] in m; }
    forall i, j | 0 <= i < j < |fs| && fs[i] != -1 ensures fs[i] != fs[j] {
      OnceMeansOnce(fs, i, j);
    }
    forall f | f in io.buffers && f !in io.toRemove ensures exists i :: 0 <= i < |io.fds| && io.fds[i].fd == f {
      assert f in live && m[f] == 1;
      var i :| 0 <= i < |fs| && fs[i] == f;
      assert io.fds[i].fd == f;
    }
    assert m[serverFd] == 1;
    var i :| 0 <= i < |fs| && fs[i] == serverFd;
    assert io.fds[i].fd == serverFd;
  }

  lemma {:induction false} OnlyMinusOnes(n: nat)
    ensures |multiset{}[-1 := n]| == n
  {
  }

  lemma OnceMeansOnce(s: seq<int>, i: nat, j: nat)
    requires i < j < |s|
    ensures multiset(s)[s[i]] <= 1 ==> s[i] != s[j]
  {
    assert s == s[..i] + [s[i]] + s[i + 1..j] + [s[j]] + s[j + 1..];
  }

  // ---- every operation keeps it ----

  lemma SlotUpdate(fds: seq<Slot>, i: nat, s: Slot)
    requires i < |fds|
    ensures Fds(fds[i := s]) == Fds(fds)[i := s.fd]
    ensures multiset(Fds(fds[i := s]))
            == multiset(Fds(fds))[fds[i].fd := multiset(Fds(fds))[fds[i].fd] - 1] + multiset{s.fd}
  {
  }

  lemma PollOutKeepsTable(io: Io, serverFd: int, fd: int, on: bool)
    requires TableOk(io, serverFd)
    ensures TableOk(io.(fds := SetPollOut(io.fds, fd, on)), serverFd)
  {
    var i := FirstSlot(io.fds, fd);
    if i < |io.fds| {
      SlotUpdate(io.fds, i, io.fds[i].(pollOut := on));
    }
  }

  /** Marking voids the client's only slot and no other, and keeps the table and the wakeups right. */
  lemma MarkKeepsIo(io: Io, serverFd: int, fd: int)
    requires IoInv(io, serverFd)
    ensures IoInv(Mark(io, fd), serverFd)
    ensures fd in io.buffers ==>
              fd in Mark(io, fd).toRemove && forall i | 0 <= i < |Mark(io, fd).fds| :: Mark(io, fd).fds[i].fd != fd
    ensures |Mark(io, fd).fds| == |io.fds|
    ensures forall i | 0 <= i < |io.fds| && (io.fds[i].fd != fd || fd !in io.buffers) ::
            Mark(io, fd).fds[i] == io.fds[i]
  {
    if fd in io.buffers && fd !in io.toRemove {
      MarkKeepsTable(io, serverFd, fd);
      TableMeans(Mark(io, fd), serverFd);
      hide TableOk, Expected;
      assert Armed(Mark(io, fd));
    } else if fd in io.buffers {
      TableMeans(io, serverFd);
    }
  }

  lemma MarkKeepsTable(io: Io, serverFd: int, fd: int)
    requires TableOk(io, serverFd) && fd in io.buffers && fd !in io.toRemove
    ensures TableOk(Mark(io, fd), serverFd) && -1 !in io.buffers
  {
    TableMeans(io, serverFd);
    var i := FirstSlot(io.fds, fd);
    SlotUpdate(io.fds, i, io.fds[i].(fd := -1));
    ExpectedMarks(serverFd, io.buffers.Keys, io.toRemove, fd);
    hide Expected, Fds;
    assert io.toRemove + {fd} <= io.buffers.Keys;
  }

  lemma ExpectedMarks(serverFd: int, keys: set<int>, marked: set<int>, fd: int)
    requires fd in keys && fd !in marked && fd >= 0 && fd != serverFd
    ensures var m := Expected(serverFd, keys, marked);
            m[fd] == 1 && Expected(serverFd, keys, marked + {fd}) == m[fd := 0] + multiset{-1}
  {
    assert keys - (marked + {fd}) == (keys - marked) - {fd};
  }

  /** castMsg up to the mark for a dead peer. */
  function CastBytes(io: Io, fd: int, r: CastResult): Io
    requires fd in io.buffers
  {
    var io1 := io.(net := AfterAnswer(io.net), buffers := io.buffers[fd := io.buffers[fd].(send := r.buf)]);
    if r.arm then io1.(fds := SetPollOut(io1.fds, fd, true)) else io1
  }

  /** Setting POLLOUT for fd arms its only slot. */
  lemma CastArms(io: Io, serverFd: int, fd: int, msg: string)
    requires IoInv(io, serverFd) && fd in io.buffers
    ensures Armed(CastBytes(io, fd, Cast(io.buffers[fd].send, msg, Answer(io))))
  {
    TableMeans(io, serverFd);
    hide TableOk;
  }

  lemma CastKeepsIo(io: Io, serverFd: int, fd: int, msg: string)
    requires IoInv(io, serverFd)
    ensures IoInv(CastMsg(io, fd, msg), serverFd)
  {
    if fd in io.buffers {
      CastArms(io, serverFd, fd, msg);
      hide TableOk, Armed, Mark, Cast, SetPollOut;
      var r := Cast(io.buffers[fd].send, msg, Answer(io));
      var io1 := io.(net := AfterAnswer(io.net), buffers := io.buffers[fd := io.buffers[fd].(send := r.buf)]);
      NewBufferKeepsTable(io, serverFd, fd, io1.buffers[fd], io1.net);
      PollOutKeepsTable(io1, serverFd, fd, true);
      MarkKeepsIo(CastBytes(io, fd, r), serverFd, fd);
    }
  }

  lemma SameSize<V, W>(a: map<int, V>, b: map<int, W>)
    requires a.Keys == b.Keys
    ensures |a| == |b|
  {
  }

  lemma {:induction false} DeliverKeepsIo(io: Io, serverFd: int, out: seq<Effect>)
    requires IoInv(io, serverFd)
    ensures IoInv(Deliver(io, out), serverFd)
    decreases |out|
  {
    if out != [] {
      match out[0] {
        case Tell(fd, msg) => CastKeepsIo(io, serverFd, fd, msg);
        case Drop(fd) => MarkKeepsIo(io, serverFd, fd);
      }
      DeliverKeepsIo(Apply(io, out[0]), serverFd, out[1..]);
    }
  }

  /** Whatever a command sends, nobody connects, disconnects or gets unmarked, and received bytes stay. */
  lemma {:induction false} DeliverFrame(io: Io, out: seq<Effect>)
    ensures var io' := Deliver(io, out);
            && io'.buffers.Keys == io.buffers.Keys && io.toRemove <= io'.toRemove
            && (forall f | f in io.buffers :: io'.buffers[f].recv == io.buffers[f].recv)
            && |io'.fds| == |io.fds|
            && (forall i | 0 <= i < |io.fds| :: io'.fds[i].fd == io.fds[i].fd || io'.fds[i].fd == -1)
    decreases |out|
  {
    if out != [] { DeliverFrame(Apply(io, out[0]), out[1..]); }
  }

  lemma {:induction false} DeliverConcat(io: Io, a: seq<Effect>, b: seq<Effect>)
    ensures Deliver(io, a + b) == Deliver(Deliver(io, a), b)
    decreases |a|
  {
    if a == [] {
      assert a + b == b;
    } else {
      DeliverConcat(Apply(io, a[0]), a[1..], b);
      assert (a + b)[1..] == a[1..] + b;
    }
  }

  lemma NewBufferKeepsTable(io: Io, serverFd: int, fd: int, b: Buffers, net: seq<SendResult>)
    requires TableOk(io, serverFd) && fd in io.buffers
    ensures TableOk(io.(net := net, buffers := io.buffers[fd := b]), serverFd)
  {
    SameSize(io.buffers, io.buffers[fd := b]);
    assert io.buffers[fd := b].Keys == io.buffers.Keys;
  }

  lemma FlushKeepsIo(io: Io, serverFd: int, fd: int)
    requires IoInv(io, serverFd) && fd in io.buffers
    ensures IoInv(FlushOut(io, fd).0, serverFd)
  {
    var b := io.buffers[fd];
    if b.send == "" {
      PollOutKeepsTable(io, serverFd, fd, false);
    } else {
      var io1 := io.(net := AfterAnswer(io.net), buffers := io.buffers[fd := b.(send := Flush(b.send, Answer(io)))]);
      NewBufferKeepsTable(io, serverFd, fd, io1.buffers[fd], io1.net);
      assert Armed(io1);
      PollOutKeepsTable(io1, serverFd, fd, false);
    }
  }

  lemma WriteKeepsIo(io: Io, serverFd: int, fd: int)
    requires IoInv(io, serverFd) && fd in io.buffers
    ensures IoInv(WriteOut(io, fd), serverFd) && WriteOut(io, fd).buffers.Keys == io.buffers.Keys
  {
    hide TableOk, Armed, FlushOut, Mark;
    FlushKeepsIo(io, serverFd, fd);
    WriteFrame(io, fd);
    if !FlushOut(io, fd).1 { MarkKeepsIo(FlushOut(io, fd).0, serverFd, fd); }
  }

  lemma WriteFrame(io: Io, fd: int)
    requires fd in io.buffers
    ensures WriteOut(io, fd).buffers.Keys == io.buffers.Keys
    ensures forall f | f in io.buffers :: WriteOut(io, fd).buffers[f].recv == io.buffers[f].recv
    ensures forall f | f in io.buffers && f != fd :: WriteOut(io, fd).buffers[f] == io.buffers[f]
    ensures WriteOut(io, fd).buffers[fd].send ==
            if io.buffers[fd].send == "" then "" else Flush(io.buffers[fd].send, Answer(io))
  {
  }

  lemma ExpectedGrows(serverFd: int, keys: set<int>, marked: set<int>, fd: int)
    requires fd !in keys && marked <= keys
    ensures Expected(serverFd, keys + {fd}, marked) == Expected(serverFd, keys, marked) + multiset{fd}
  {
  }

  lemma NewSlotKeepsIo(io: Io, serverFd: int, fd: int)
    requires IoInv(io, serverFd) && fd >= 0 && fd != serverFd && fd !in io.buffers && |io.fds| - 1 < MAX_CLIENTS
    ensures IoInv(NewSlot(io, fd), serverFd)
  {
    var io' := NewSlot(io, fd);
    assert |io'.buffers| <= MAX_CLIENTS by { TableMeans(io, serverFd); }
    assert Fds(io'.fds) == Fds(io.fds) + [fd];
    assert io'.buffers.Keys == io.buffers.Keys + {fd};
    ExpectedGrows(serverFd, io.buffers.Keys, io.toRemove, fd);
  }

  lemma DropMinusOne(x: int, m: multiset<int>)
    ensures (multiset{x} + m)[-1 := 0] == if x == -1 then m[-1 := 0] else multiset{x} + m[-1 := 0]
  {
  }

  lemma FdsUnfold(s: Slot, rest: seq<Slot>)
    ensures Fds([s] + rest) == [s.fd] + Fds(rest)
    ensures multiset(Fds([s] + rest)) == multiset{s.fd} + multiset(Fds(rest))
  {
  }

  lemma {:induction false} CompactFds(fds: seq<Slot>)
    ensures multiset(Fds(Compact(fds))) == multiset(Fds(fds))[-1 := 0]
    decreases |fds|
  {
    if fds == [] {
      assert Fds(fds) == [];
    } else {
      var s, rest := fds[0], fds[1..];
      CompactFds(rest);
      assert fds == [s] + rest;
      FdsUnfold(s, rest);
      DropMinusOne(s.fd, multiset(Fds(rest)));
      if s.fd == -1 {
        assert Compact(fds) == Compact(rest);
      } else {
        FdsUnfold(s, Compact(rest));
      }
    }
  }

  /** The compaction goes slot by slot: it leaves the ones that are not -1, in their order. */
  lemma {:induction false} CompactKeepsOrder(a: seq<Slot>, s: Slot)
    ensures Compact(a + [s]) == if s.fd == -1 then Compact(a) else Compact(a) + [s]
    decreases |a|
  {
    if a == [] {
      assert [] + [s] == [s] && [s][1..] == [];
    } else {
      var rest := a[1..];
      assert (a + [s])[0] == a[0] && (a + [s])[1..] == rest + [s];
      CompactKeepsOrder(rest, s);
      var first := if a[0].fd == -1 then [] else [a[0]];
      assert first + (Compact(rest) + [s]) == first + Compact(rest) + [s];
    }
  }

  lemma {:induction false} CompactKeepsSlots(fds: seq<Slot>)
    ensures forall s | s in Compact(fds) :: s in fds && s.fd != -1
    decreases |fds|
  {
    if fds != [] { CompactKeepsSlots(fds[1..]); }
  }

  lemma SweptKeepsIo(io: Io, serverFd: int)
    requires IoInv(io, serverFd)
    ensures IoInv(Swept(io), serverFd)
  {
    CompactFds(io.fds);
    CompactKeepsSlots(io.fds);
    var io' := Swept(io);
    assert io'.buffers.Keys == io.buffers.Keys - io.toRemove;
    assert io'.buffers.Keys - {} == io'.buffers.Keys;
    assert |io'.buffers.Keys| <= |io.buffers.Keys|;
    assert |io'.buffers| <= MAX_CLIENTS;
    assert multiset(Fds(io'.fds)) == Expected(serverFd, io'.buffers.Keys, {});
    forall i | 0 <= i < |io'.fds| && io'.fds[i].fd in io'.buffers && io'.buffers[io'.fds[i].fd].send != ""
      ensures io'.fds[i].pollOut
    {
      assert io'.fds[i] in io'.fds && io'.fds[i] in io.fds;
    }
  }
}
