/** The poll loop over the objects: each method does what its function in EventLoop says. */
module ServerRun {
  import opened Wrappers
  import opened Ordering
  import opened ServerState
  import opened PollTable
  import opened ClientObject
  import opened IrcServerObject
  import opened CmdObject
  import opened EventLoop
  import Acts
  import Framing
  import Machine

  twostate predicate ObjectsGrow(server: IrcServer)
    reads server
  {
    && (forall o | o in server.clients.Values :: fresh(o) || o in old(server.clients.Values))
    && (forall o | o in server.channels.Values :: fresh(o) || o in old(server.channels.Values))
  }

  /** Takes one message out of the receive buffer, if there is one. */
  method TakeMessage(server: IrcServer, client: Client) returns (found: bool, message: string)
    requires server.Valid() && client.fd in server.clients && server.clients[client.fd] == client
    modifies client`recvBuffer
    ensures server.Valid() && server.Ctl() == old(server.Ctl()) && client.fd in old(server.IoState()).buffers
    ensures match Framing.Extract(old(server.IoState()).buffers[client.fd].recv)
            case None => !found && server.IoState() == old(server.IoState())
            case Some((m, rest)) =>
              found && message == m && server.IoState() == Received(old(server.IoState()), client.fd, rest)
  {
    hide IrcServer.ClientMap, IrcServer.BufferMap, IrcServer.ChannelMap, Framing.Extract;
    server.IsConnected(client.fd);
    found, message := client.ExtractMessage();
    server.OnlyReceived(client);
  }

  method HandleMessage(server: IrcServer, clientFd: int, message: string) returns (ok: bool)
    requires server.Valid() && Inv(server.Ctl()) && clientFd in server.clients
    modifies server`clients, server`channels, server`nickNameClientMap, server`created, server`fds, server`toRemove,
             server`net, server.clients.Values, server.channels.Values
    ensures server.Valid() && ObjectsGrow(server) && server.clients == old(server.clients)
    ensures clientFd in old(server.Ctl()).clients
    ensures (server.Value(), ok) == Machine.Handle(old(server.Value()), clientFd, message)
  {
    hide Inv, IrcServer.Valid, IrcServer.Ctl, IrcServer.IoState, Machine.Handle;
    var cmdHandler := new Cmd(server, message, clientFd);
    server.InRegistry(clientFd);
    ok := cmdHandler.HandleClientCmd();
  }

  lemma ProcessInSteps(s: Machine.State, fd: int)
    requires Machine.CanProcess(s, fd)
    ensures var (msg, rest) := Framing.Extract(s.io.buffers[fd].recv).value;
            Machine.ProcessOne(s, fd) == Machine.Handle(Machine.State(s.ctl, Received(s.io, fd, rest)), fd, msg)
  {
    hide Machine.Handle, Framing.Extract;
  }

  /** One turn of the drain loop: false for found when there is nothing to do. */
  method HandleNext(server: IrcServer, clientFd: int) returns (found: bool, ok: bool)
    requires server.Valid() && Machine.StateInv(server.Value())
    modifies server`clients, server`channels, server`nickNameClientMap, server`created, server`fds, server`toRemove,
             server`net, server.clients.Values, server.channels.Values
    ensures server.Valid() && ObjectsGrow(server) && server.clients == old(server.clients)
    ensures found == Machine.CanProcess(old(server.Value()), clientFd)
    ensures if found then (server.Value(), ok) == Machine.ProcessOne(old(server.Value()), clientFd)
            else server.Value() == old(server.Value())
  {
    hide Inv, IoInv, IrcServer.Valid, IrcServer.Ctl, IrcServer.IoState, Machine.Handle, Machine.ProcessOne,
         Framing.Extract;
    hide Received;
    server.KeysAgree();
    ok := true;
    var client := server.GetClient(clientFd);
    if client == null || clientFd in server.toRemove {
      return false, ok;
    }
    server.InRegistry(clientFd);
    ghost var s := server.Value();
    var str;
    found, str := TakeMessage(server, client);
    if found {
      ProcessInSteps(s, clientFd);
      ok := HandleMessage(server, clientFd, str);
    }
  }

  /** One turn of the drain loop leads from s to s1, with fewer bytes left to read. */
  ghost predicate Drains(s: Machine.State, fd: int, s1: Machine.State, ok: bool) {
    && Machine.StateInv(s) && Machine.StateInv(s1)
    && fd in s.io.buffers && fd in s1.io.buffers && |s1.io.buffers[fd].recv| < |s.io.buffers[fd].recv|
    && DrainClient(s, fd) == if ok then DrainClient(s1, fd) else (s1, false)
  }

  lemma DrainStep(s: Machine.State, fd: int)
    requires Machine.StateInv(s)
    ensures !Machine.CanProcess(s, fd) ==> DrainClient(s, fd) == (s, true)
    ensures Machine.CanProcess(s, fd) ==> Drains(s, fd, Machine.ProcessOne(s, fd).0, Machine.ProcessOne(s, fd).1)
  {
    hide Machine.StateInv, Machine.ProcessOne;
    if Machine.CanProcess(s, fd) {
      Machine.ProcessKeepsInv(s, fd);
      Framing.ExtractIsLossless(s.io.buffers[fd].recv);
    }
  }

  method DrainMessages(server: IrcServer, clientFd: int) returns (ok: bool)
    requires server.Valid() && Machine.StateInv(server.Value()) && clientFd in server.clients
    modifies server`clients, server`channels, server`nickNameClientMap, server`created, server`fds, server`toRemove,
             server`net, server.clients.Values, server.channels.Values
    ensures server.Valid() && ObjectsGrow(server) && server.clients == old(server.clients)
    ensures (server.Value(), ok) == DrainClient(old(server.Value()), clientFd)
  {
    hide Machine.StateInv, IrcServer.Valid, IrcServer.Ctl, IrcServer.IoState, DrainClient, Machine.ProcessOne,
         Machine.CanProcess;
    server.KeysAgree();
    ghost var s0 := server.Value();
    while true
      invariant server.Valid() && Machine.StateInv(server.Value()) && ObjectsGrow(server)
                && server.clients == old(server.clients)
      invariant clientFd in server.IoState().buffers
      invariant DrainClient(server.Value(), clientFd) == DrainClient(s0, clientFd)
      decreases |server.IoState().buffers[clientFd].recv|
    {
      DrainStep(server.Value(), clientFd);
      var found;
      found, ok := HandleNext(server, clientFd);
      if !found {
        return true;
      }
      if !ok {
        return false;
      }
    }
  }

  method AppendReceived(server: IrcServer, client: Client, chunk: string)
    requires server.Valid() && client.fd in server.clients && server.clients[client.fd] == client
    modifies client`recvBuffer
    ensures server.Valid() && server.Ctl() == old(server.Ctl()) && client.fd in old(server.IoState()).buffers
    ensures server.IoState() == Received(old(server.IoState()), client.fd,
              old(server.IoState()).buffers[client.fd].recv + Framing.CString(chunk))
  {
    hide IrcServer.ClientMap, IrcServer.BufferMap, IrcServer.ChannelMap, Framing.CString;
    server.IsConnected(client.fd);
    client.AppendToRecvBuffer(Framing.CString(chunk));
    server.OnlyReceived(client);
  }

  lemma ReadStarts(s: Machine.State, fd: int, chunk: string)
    requires Machine.StateInv(s) && fd in s.ctl.clients
    ensures var s1 := s.(io := Received(s.io, fd, s.io.buffers[fd].recv + Framing.CString(chunk)));
            Machine.StateInv(s1) && ReadClient(s, fd, Some(chunk)) == DrainClient(s1, fd)
  {
    hide DrainClient, Inv, IoInv, Framing.CString;
    Machine.ReceivedKeepsIo(s.io, s.ctl.serverFd, fd, s.io.buffers[fd].recv + Framing.CString(chunk));
  }

  /** processClientRead with what recv() gave; false asks for the client's removal. */
  method ProcessClientRead(server: IrcServer, clientFd: int, recv: Option<string>) returns (ok: bool)
    requires server.Valid() && Machine.StateInv(server.Value())
    modifies server`clients, server`channels, server`nickNameClientMap, server`created, server`fds, server`toRemove,
             server`net, server.clients.Values, server.channels.Values
    ensures server.Valid() && ObjectsGrow(server)
    ensures (server.Value(), ok) == ReadClient(old(server.Value()), clientFd, recv)
  {
    hide Machine.StateInv, IrcServer.Valid, IrcServer.Ctl, IrcServer.IoState, DrainClient, Framing.CString;
    server.KeysAgree();
    var client := server.GetClient(clientFd);
    if client == null || recv.None? {
      return false;
    }
    server.InRegistry(clientFd);
    ReadStarts(server.Value(), clientFd, recv.value);
    AppendReceived(server, client, recv.value);
    ok := DrainMessages(server, clientFd);
  }

  /** A failed write marks the client. */
  method WriteSlot(server: IrcServer, fd: int) returns (kept: bool)
    requires server.Valid() && Machine.StateInv(server.Value())
    modifies server`fds, server`toRemove, server`net, server.clients.Values`sendBuffer
    ensures server.Valid() && (server.Value(), kept) == WriteClient(old(server.Value()), fd)
  {
    hide Machine.StateInv, IrcServer.Valid, IrcServer.Ctl, IrcServer.IoState, FlushOut, Void;
    kept := server.ProcessClientWrite(fd);
    if !kept {
      server.MarkClientForRemoval(fd);
    }
  }

  /** The write and error parts of a slot's turn. */
  method FinishSlot(server: IrcServer, i: nat, r: Ready)
    requires server.Valid() && Machine.StateInv(server.Value()) && i < |server.fds|
    modifies server`fds, server`toRemove, server`net, server.clients.Values`sendBuffer
    ensures server.Valid() && server.Value() == AfterRead(old(server.Value()), i, r)
  {
    hide Machine.StateInv, IrcServer.Valid, IrcServer.Ctl, IrcServer.IoState, Mark, WriteClient;
    server.KeysAgree();
    var fd := server.fds[i].fd;
    var kept := true;
    if fd != -1 && r.writable {
      kept := WriteSlot(server, fd);
      server.KeysAgree();
    }
    if kept && server.fds[i].fd != -1 && r.broken {
      server.MarkClientForRemoval(server.fds[i].fd);
    }
  }

  /** The body of the poll loop; false: the accept failed, which ends the scan. */
  method TakeSlot(server: IrcServer, i: nat, r: Ready) returns (ok: bool)
    requires server.Valid() && Machine.StateInv(server.Value()) && i < |server.fds|
    requires FreshFor(server.Value(), server.fds[i].fd, r)
    modifies server, server.clients.Values, server.channels.Values
    ensures server.Valid() && ObjectsGrow(server)
    ensures (server.Value(), ok) == SlotTurn(old(server.Value()), i, r)
  {
    hide Machine.StateInv, IrcServer.Valid, IrcServer.Ctl, IrcServer.IoState, ServeSlot, Machine.Admit;
    server.KeysAgree();
    var fd := server.fds[i].fd;
    if Quiet(r) {
      return true;
    }
    if fd == server.fd {
      if r.incoming.Refused? {
        return false;
      }
      ok := AcceptInto(server, r.incoming.fd, r.incoming.host);
      return ok;
    }
    ServeClient(server, i, r);
    return true;
  }

  /** A client's slot that has events. */
  method ServeClient(server: IrcServer, i: nat, r: Ready)
    requires server.Valid() && Machine.StateInv(server.Value()) && i < |server.fds|
    modifies server`clients, server`channels, server`nickNameClientMap, server`created, server`fds, server`toRemove,
             server`net, server.clients.Values, server.channels.Values
    ensures server.Valid() && ObjectsGrow(server)
    ensures server.Value() == ServeSlot(old(server.Value()), i, r)
  {
    hide Machine.StateInv, IrcServer.Valid, IrcServer.Ctl, IrcServer.IoState, Mark, ReadClient, AfterRead;
    server.KeysAgree();
    var fd := server.fds[i].fd;
    var ok := true;
    if r.readable {
      ok := ProcessClientRead(server, fd, r.recv);
      server.KeysAgree();
    }
    if !ok {
      server.MarkClientForRemoval(fd);
    } else {
      FinishSlot(server, i, r);
    }
  }

  method AcceptInto(server: IrcServer, clientFd: int, host: string) returns (ok: bool)
    requires server.Valid() && Machine.StateInv(server.Value())
    requires Machine.EnvOk(server.Value(), Machine.Accept(clientFd, host))
    modifies server`fds, server`clients, server`created
    ensures server.Valid() && ObjectsGrow(server)
    ensures ok <==> !FullHouse(old(server.Value()))
    ensures !ok ==> server.Value() == old(server.Value())
    ensures server.Value() == Machine.Admit(old(server.Value()), clientFd, host)
  {
    hide Inv, IrcServer.Valid, IrcServer.Ctl, IrcServer.IoState, Acts.Connected, NewSlot;
    server.KeysAgree();
    ok := server.AcceptClient(clientFd, host);
  }

  lemma ScanStep(s: Machine.State, ready: seq<Ready>, i: nat)
    requires Machine.StateInv(s) && ScanReady(s, ready, i) && i < |ready|
    ensures i < |s.io.fds| && FreshFor(s, s.io.fds[i].fd, ready[i])
    ensures var (s1, ok) := SlotTurn(s, i, ready[i]);
            && Machine.StateInv(s1) && ScanReady(s1, ready, i + 1)
            && Scan(s, ready, i) == if ok then Scan(s1, ready, i + 1) else (s1, false)
  {
    hide Machine.StateInv, SlotTurn;
    assert FreshFor(s, s.io.fds[i].fd, ready[i]);
    ScanGoesOn(s, ready, i);
  }

  /** The poll loop over the reported slots. */
  method ScanSlots(server: IrcServer, ready: seq<Ready>) returns (ok: bool)
    requires server.Valid() && Machine.StateInv(server.Value()) && ScanReady(server.Value(), ready, 0)
    modifies server, server.clients.Values, server.channels.Values
    ensures server.Valid() && ObjectsGrow(server)
    ensures (server.Value(), ok) == Scan(old(server.Value()), ready, 0)
  {
    hide Machine.StateInv, IrcServer.Valid, IrcServer.Ctl, IrcServer.IoState, SlotTurn, ScanReady, FreshFor;
    ghost var s0 := server.Value();
    var i := 0;
    while i < |ready|
      invariant i <= |ready| && server.Valid() && ObjectsGrow(server)
      invariant Machine.StateInv(server.Value()) && ScanReady(server.Value(), ready, i)
      invariant Scan(server.Value(), ready, i) == Scan(s0, ready, 0)
    {
      ScanStep(server.Value(), ready, i);
      server.KeysAgree();
      ok := TakeSlot(server, i, ready[i]);
      if !ok {
        return false;
      }
      i := i + 1;
    }
    return true;
  }

  /**
   * Main result for the objects: one turn of run() makes of the server's state what Turn says, so by TurnIsRun it only
   * takes steps of the state machine.
   */
  method RunTurn(server: IrcServer, timeouts: set<int>, polled: Option<seq<Ready>>)
    requires server.Valid() && Machine.StateInv(server.Value())
    requires polled.Some? ==> ScanReady(MarkAll(server.Value(), SortedFds(timeouts)), polled.value, 0)
    modifies server, server.clients.Values, server.channels.Values
    ensures server.Value() == Turn(old(server.Value()), timeouts, polled)
    ensures server.Valid() && Machine.StateInv(server.Value())
  {
    hide Machine.StateInv, IrcServer.Valid, IrcServer.Ctl, IrcServer.IoState, MarkAll, Scan, ScanReady, Machine.Clean,
         SortedFds;
    server.MarkClients(SortedFds(timeouts));
    if polled.Some? {
      var ok := ScanSlots(server, polled.value);
      if ok {
        server.CleanupMarkedClients();
      }
    }
  }
}
