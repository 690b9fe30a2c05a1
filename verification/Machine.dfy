/**
 * The server as a state machine. Events are what the poll loop can meet, at the grain of one received chunk, one
 * message, one write, one mark, one cleanup; a run is any sequence of them, so it covers every order run() can produce.
 */
module Machine {
  import opened Ordering
  import opened ServerState
  import opened Commands
  import opened Acts
  import opened CommandActs
  import opened PollTable
  import Framing
  import Outbound

  datatype State = State(ctl: Control, io: Io)

  datatype Event =
    | Accept(fd: int, host: string)              // accept() gave a descriptor
    | Receive(fd: int, chunk: string)            // recv() gave bytes
    | Process(fd: int)                           // one turn of the drain loop
    | Writable(fd: int)                          // POLLOUT
    | Remove(fd: int)                            // hang-up, timeout, end of stream
    | Cleanup                                    // cleanupMarkedClients
    | Kernel(net: seq<Outbound.SendResult>)      // what send() will answer from now on

  /** accept() returns a descriptor that is not open. */
  predicate EnvOk(s: State, e: Event) {
    e.Accept? ==> e.fd >= 0 && e.fd != s.ctl.serverFd && e.fd !in s.ctl.clients
  }

  // ---- steps ----

  /** handleClientCmd; false asks for the client's removal. */
  function Handle(s: State, fd: int, msg: string): (State, bool)
    requires fd in s.ctl.clients
  {
    var (verb, p) := Parse(msg);
    var r := Execute(s.ctl, fd, verb, p);
    var io := Deliver(s.io, r.out);
    match r.error
    case None => (State(r.ctl, io), true)
    case Some(text) =>
      var told := CastMsg(io, fd, text);
      if fd in r.ctl.clients && Dropped(r, fd) then (State(r.ctl, Mark(told, fd)), false)
      else (State(r.ctl, told), true)
  }

  /** The guard of the drain loop in processClientRead. */
  predicate CanProcess(s: State, fd: int) {
    fd in s.ctl.clients && fd in s.io.buffers && fd !in s.io.toRemove && Framing.Extract(s.io.buffers[fd].recv).Some?
  }

  function ProcessOne(s: State, fd: int): (State, bool)
    requires CanProcess(s, fd)
  {
    var (msg, rest) := Framing.Extract(s.io.buffers[fd].recv).value;
    Handle(s.(io := Received(s.io, fd, rest)), fd, msg)
  }

  function Admit(s: State, fd: int, host: string): State {
    if |s.io.fds| - 1 >= MAX_CLIENTS then s else State(Connected(s.ctl, fd, host), NewSlot(s.io, fd))
  }

  /** removeClientFromServer for each of the descriptors. */
  function TearDown(k: Control, fds: seq<int>): Control
    decreases |fds|
  {
    if fds == [] then k
    else TearDown(if fds[0] in k.clients then Disconnected(k, fds[0]) else k, fds[1..])
  }

  function Clean(s: State): State {
    State(TearDown(s.ctl, SortedFds(s.io.toRemove)), Swept(s.io))
  }

  function Step(s: State, e: Event): State {
    match e
    case Accept(fd, host) => Admit(s, fd, host)
    case Receive(fd, chunk) =>
      if fd in s.io.buffers && fd !in s.io.toRemove then
        s.(io := Received(s.io, fd, s.io.buffers[fd].recv + Framing.CString(chunk)))
      else s
    case Process(fd) => if CanProcess(s, fd) then ProcessOne(s, fd).0 else s
    case Writable(fd) => if fd in s.io.buffers && fd !in s.io.toRemove then s.(io := WriteOut(s.io, fd)) else s
    case Remove(fd) => s.(io := Mark(s.io, fd))
    case Cleanup => Clean(s)
    case Kernel(net) => s.(io := s.io.(net := net))
  }

  ghost predicate Possible(s: State, es: seq<Event>)
    decreases |es|
  {
    es == [] || (EnvOk(s, es[0]) && Possible(Step(s, es[0]), es[1..]))
  }

  function Run(s: State, es: seq<Event>): State
    decreases |es|
  {
    if es == [] then s else Run(Step(s, es[0]), es[1..])
  }

  /** After init(): one slot, the server's. */
  function Start(serverFd: int, password: string): State {
    State(Control(serverFd, password, map[], map[], map[], 0), Io([Slot(serverFd, false)], map[], {}, []))
  }

  // ---- the invariant ----

  ghost predicate StateInv(s: State) {
    Inv(s.ctl) && IoInv(s.io, s.ctl.serverFd) && s.io.buffers.Keys == s.ctl.clients.Keys
  }

  lemma StartIsValid(serverFd: int, password: string)
    requires serverFd >= 0
    ensures StateInv(Start(serverFd, password))
  {
  }

  // ---- the registry side of a step is acts ----

  /** Connected clients stay connected, marks stay, received bytes stay. */
  predicate SameLinks(io: Io, io': Io) {
    && io'.buffers.Keys == io.buffers.Keys && io.toRemove <= io'.toRemove
    && forall f | f in io.buffers :: io'.buffers[f].recv == io.buffers[f].recv
  }

  lemma HandleKeepsControl(s: State, fd: int, msg: string)
    requires Inv(s.ctl) && fd in s.ctl.clients
    ensures var k' := Handle(s, fd, msg).0.ctl;
            Explains(s.ctl, fd, k', ActsOf(s.ctl, fd, Parse(msg).0, Parse(msg).1))
            && Inv(k') && SameConnections(s.ctl, k', fd)
  {
    var (verb, p) := Parse(msg);
    CommandIsActs(s.ctl, fd, verb, p);
    LegalRunKeepsInv(s.ctl, ActsOf(s.ctl, fd, verb, p));
    OwnActsKeepClients(s.ctl, fd, ActsOf(s.ctl, fd, verb, p));
  }

  /** All effects of handling one message, the error text and the mark included. */
  function AllEffects(k: Control, fd: int, msg: string): seq<Effect>
    requires fd in k.clients
  {
    var r := Execute(k, fd, Parse(msg).0, Parse(msg).1);
    match r.error
    case None => r.out
    case Some(text) =>
      r.out + [Tell(fd, text)] + (if fd in r.ctl.clients && Dropped(r, fd) then [Drop(fd)] else [])
  }

  lemma HandleDelivers(s: State, fd: int, msg: string)
    requires fd in s.ctl.clients
    ensures Handle(s, fd, msg).0.io == Deliver(s.io, AllEffects(s.ctl, fd, msg))
  {
    var r := Execute(s.ctl, fd, Parse(msg).0, Parse(msg).1);
    if r.error.Some? {
      var tell := [Tell(fd, r.error.value)];
      var drop := if fd in r.ctl.clients && Dropped(r, fd) then [Drop(fd)] else [];
      DeliverConcat(s.io, r.out + tell, drop);
      DeliverConcat(s.io, r.out, tell);
    }
  }

  lemma HandleKeepsIo(s: State, fd: int, msg: string)
    requires IoInv(s.io, s.ctl.serverFd) && fd in s.ctl.clients
    ensures IoInv(Handle(s, fd, msg).0.io, s.ctl.serverFd) && SameLinks(s.io, Handle(s, fd, msg).0.io)
  {
    HandleDelivers(s, fd, msg);
    DeliverIsSafe(s.io, s.ctl.serverFd, AllEffects(s.ctl, fd, msg));
  }

  lemma DeliverIsSafe(io: Io, serverFd: int, out: seq<Effect>)
    requires IoInv(io, serverFd)
    ensures IoInv(Deliver(io, out), serverFd) && SameLinks(io, Deliver(io, out))
  {
    DeliverKeepsIo(io, serverFd, out);
    DeliverFrame(io, out);
  }

  /** Who is connected, object identities, everyone but fd, and the server's own data stay. */
  predicate SameConnections(k: Control, k': Control, fd: int) {
    && k'.clients.Keys == k.clients.Keys && k'.serverFd == k.serverFd && k'.password == k.password
    && (forall f | f in k.clients :: k'.clients[f].id == k.clients[f].id)
    && (forall f | f in k.clients && f != fd :: k'.clients[f] == k.clients[f])
  }

  lemma {:induction false} OwnActsKeepClients(k: Control, fd: int, acts: seq<Act>)
    requires Legal(k, acts) && OwnActs(fd, acts)
    ensures SameConnections(k, PerformAll(k, acts), fd)
    decreases |acts|
  {
    if acts != [] {
      var front, a := acts[..|acts| - 1], acts[|acts| - 1];
      assert a in acts && forall b | b in front :: b in acts;
      OwnActsKeepClients(k, fd, front);
      OwnActKeepsClients(PerformAll(k, front), a);
    }
  }

  lemma OwnActKeepsClients(k: Control, a: Act)
    requires Allowed(k, a) && !a.Connect? && !a.Disconnect?
    ensures SameConnections(k, Perform(k, a), a.fd)
  {
  }

  function TearDownActs(k: Control, fds: seq<int>): seq<Act>
    decreases |fds|
  {
    if fds == [] then []
    else if fds[0] in k.clients then [Disconnect(fds[0])] + TearDownActs(Disconnected(k, fds[0]), fds[1..])
    else TearDownActs(k, fds[1..])
  }

  lemma {:induction false} TearDownIsActs(k: Control, fds: seq<int>)
    ensures Legal(k, TearDownActs(k, fds)) && PerformAll(k, TearDownActs(k, fds)) == TearDown(k, fds)
    decreases |fds|
  {
    if fds != [] {
      if fds[0] in k.clients {
        var one := [Disconnect(fds[0])];
        SingleAct(k, one[0]);
        TearDownIsActs(Disconnected(k, fds[0]), fds[1..]);
        RunsCompose(k, one, TearDownActs(Disconnected(k, fds[0]), fds[1..]));
      } else {
        TearDownIsActs(k, fds[1..]);
      }
    }
  }

  /** What an event does to the registry, as acts. */
  function EventActs(s: State, e: Event): seq<Act> {
    match e
    case Accept(fd, host) => if |s.io.fds| - 1 >= MAX_CLIENTS then [] else [Connect(fd, host)]
    case Process(fd) =>
      if CanProcess(s, fd) then
        var msg := Framing.Extract(s.io.buffers[fd].recv).value.0;
        ActsOf(s.ctl, fd, Parse(msg).0, Parse(msg).1)
      else []
    case Cleanup => TearDownActs(s.ctl, SortedFds(s.io.toRemove))
    case _ => []
  }

  lemma ReceivedKeepsIo(io: Io, serverFd: int, fd: int, recv: string)
    requires IoInv(io, serverFd) && fd in io.buffers
    ensures IoInv(Received(io, fd, recv), serverFd) && Received(io, fd, recv).buffers.Keys == io.buffers.Keys
  {
    SameSize(io.buffers, Received(io, fd, recv).buffers);
    assert Received(io, fd, recv).buffers.Keys == io.buffers.Keys;
  }

  lemma {:induction false} TearDownClients(k: Control, fds: seq<int>)
    ensures TearDown(k, fds).clients == k.clients - (set f | f in fds)
    ensures TearDown(k, fds).serverFd == k.serverFd
    decreases |fds|
  {
    if fds != [] {
      TearDownClients(if fds[0] in k.clients then Disconnected(k, fds[0]) else k, fds[1..]);
      assert fds == [fds[0]] + fds[1..];
    } else {
      assert k.clients - (set f | f in fds) == k.clients;
    }
  }

  lemma AcceptKeepsInv(s: State, fd: int, host: string)
    requires StateInv(s) && EnvOk(s, Accept(fd, host)) && |s.io.fds| - 1 < MAX_CLIENTS
    ensures StateInv(Admit(s, fd, host))
  {
    ConnectKeepsInv(s.ctl, fd, host);
    NewSlotKeepsIo(s.io, s.ctl.serverFd, fd);
  }

  lemma ProcessKeepsInv(s: State, fd: int)
    requires StateInv(s) && CanProcess(s, fd)
    ensures StateInv(ProcessOne(s, fd).0) && SameConnections(s.ctl, ProcessOne(s, fd).0.ctl, fd)
    ensures ProcessOne(s, fd).0.io.buffers.Keys == s.io.buffers.Keys
    ensures s.io.toRemove <= ProcessOne(s, fd).0.io.toRemove
    ensures ProcessOne(s, fd).0.io.buffers[fd].recv == Framing.Extract(s.io.buffers[fd].recv).value.1
    ensures Explains(s.ctl, fd, ProcessOne(s, fd).0.ctl, EventActs(s, Process(fd)))
  {
    var (msg, rest) := Framing.Extract(s.io.buffers[fd].recv).value;
    var s1 := s.(io := Received(s.io, fd, rest));
    ReceivedKeepsIo(s.io, s.ctl.serverFd, fd, rest);
    HandleKeepsControl(s1, fd, msg);
    HandleKeepsIo(s1, fd, msg);
  }

  lemma CleanControl(k: Control, marked: set<int>)
    requires Inv(k)
    ensures var k' := TearDown(k, SortedFds(marked));
            Inv(k') && k'.clients == k.clients - marked && k'.serverFd == k.serverFd
            && Legal(k, TearDownActs(k, SortedFds(marked))) && PerformAll(k, TearDownActs(k, SortedFds(marked))) == k'
  {
    var fds := SortedFds(marked);
    TearDownIsActs(k, fds);
    LegalRunKeepsInv(k, TearDownActs(k, fds));
    TearDownClients(k, fds);
    assert (set f | f in fds) == marked;
  }

  lemma CleanKeepsInv(s: State)
    requires StateInv(s)
    ensures StateInv(Clean(s))
    ensures Legal(s.ctl, EventActs(s, Cleanup)) && PerformAll(s.ctl, EventActs(s, Cleanup)) == Clean(s).ctl
  {
    hide Inv, IoInv, TearDown, SortedFds, Legal, PerformAll;
    CleanControl(s.ctl, s.io.toRemove);
    SweptKeepsIo(s.io, s.ctl.serverFd);
    assert Swept(s.io).buffers.Keys == s.io.buffers.Keys - s.io.toRemove;
    assert (s.ctl.clients - s.io.toRemove).Keys == s.ctl.clients.Keys - s.io.toRemove;
  }

  /** Main result, one step: the invariant is kept and the registry moved by legal acts only. */
  lemma StepKeepsInv(s: State, e: Event)
    requires StateInv(s) && EnvOk(s, e)
    ensures StateInv(Step(s, e))
    ensures Legal(s.ctl, EventActs(s, e)) && PerformAll(s.ctl, EventActs(s, e)) == Step(s, e).ctl
  {
    hide Inv, IoInv, Clean, ProcessOne, WriteOut, Connected, NewSlot, TearDownActs, CanProcess, Framing.CString;
    match e {
      case Accept(fd, host) =>
        if |s.io.fds| - 1 < MAX_CLIENTS {
          AcceptKeepsInv(s, fd, host);
          SingleAct(s.ctl, Connect(fd, host));
        }
      case Receive(fd, chunk) =>
        if fd in s.io.buffers {
          ReceivedKeepsIo(s.io, s.ctl.serverFd, fd, s.io.buffers[fd].recv + Framing.CString(chunk));
        }
      case Process(fd) => if CanProcess(s, fd) { ProcessKeepsInv(s, fd); }
      case Writable(fd) => if fd in s.io.buffers { WriteKeepsIo(s.io, s.ctl.serverFd, fd); }
      case Remove(fd) => MarkKeepsIo(s.io, s.ctl.serverFd, fd);
      case Cleanup => CleanKeepsInv(s);
      case Kernel(net) => NetKeepsIo(s.io, s.ctl.serverFd, net);
    }
  }

  lemma NetKeepsIo(io: Io, serverFd: int, net: seq<Outbound.SendResult>)
    requires IoInv(io, serverFd)
    ensures IoInv(io.(net := net), serverFd)
  {
  }

  function RunActs(s: State, es: seq<Event>): seq<Act>
    decreases |es|
  {
    if es == [] then [] else EventActs(s, es[0]) + RunActs(Step(s, es[0]), es[1..])
  }

  /**
   * Main result, all runs: every reachable state is valid, and its registry is what legal acts make of the first one.
   * What Provenance and Admission prove about act runs therefore holds of the server.
   */
  lemma {:induction false} RunKeepsInv(s: State, es: seq<Event>)
    requires StateInv(s) && Possible(s, es)
    ensures StateInv(Run(s, es))
    ensures Legal(s.ctl, RunActs(s, es)) && PerformAll(s.ctl, RunActs(s, es)) == Run(s, es).ctl
    decreases |es|
  {
    if es != [] {
      StepKeepsInv(s, es[0]);
      RunKeepsInv(Step(s, es[0]), es[1..]);
      RunsCompose(s.ctl, EventActs(s, es[0]), RunActs(Step(s, es[0]), es[1..]));
    }
  }

  lemma {:induction false} RunConcat(s: State, a: seq<Event>, b: seq<Event>)
    requires Possible(s, a) && Possible(Run(s, a), b)
    ensures Possible(s, a + b) && Run(s, a + b) == Run(Run(s, a), b)
    decreases |a|
  {
    if a == [] {
      assert a + b == b;
    } else {
      RunConcat(Step(s, a[0]), a[1..], b);
      assert (a + b)[1..] == a[1..] + b;
    }
  }
}
