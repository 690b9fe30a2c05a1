/** Who gets marked for removal, and for what: exact conditions on the answers of send() and on the messages handled. */
module Marks {
  import opened ServerState
  import opened Commands
  import opened Outbound
  import opened PollTable
  import opened Machine
  import CommandGuarantees

  // ---- one call of send() ----

  /** The next answer of send() reports a dead peer. */
  predicate PeerIsGone(net: seq<SendResult>) { net != [] && net[0] == PeerGone }

  /** The next answer reports an error that lasts. */
  predicate LastingError(net: seq<SendResult>) { net != [] && (net[0] == PeerGone || net[0] == OtherError) }

  /** castMsg marks the client iff it is connected and send() finds its peer gone, and marks nobody else. */
  lemma CastMarks(io: Io, fd: int, msg: string)
    ensures PollTable.CastMsg(io, fd, msg).toRemove
         == if fd in io.buffers && PeerIsGone(io.net) then io.toRemove + {fd} else io.toRemove
    ensures PollTable.CastMsg(io, fd, msg).net == if fd in io.buffers && io.net != [] then io.net[1..] else io.net
  {
  }

  /** A POLLOUT turn marks the client iff bytes are pending and send() reports an error that lasts. */
  lemma WriteMarks(io: Io, fd: int)
    requires fd in io.buffers
    ensures WriteOut(io, fd).toRemove
         == if io.buffers[fd].send != "" && LastingError(io.net) then io.toRemove + {fd} else io.toRemove
    ensures FlushOut(io, fd).1 <==> !(io.buffers[fd].send != "" && LastingError(io.net))
  {
  }

  /** What is left of the pending bytes: the kernel takes some of them if the next answer says so, else none. */
  function Remaining(pending: string, net: seq<SendResult>): string {
    if pending == "" || net == [] || !net[0].Sent? then pending
    else if net[0].n <= |pending| then pending[net[0].n..] else ""
  }

  /** A POLLOUT turn offers the pending bytes to one call of send(), and touches no other buffer. */
  lemma WriteSends(io: Io, fd: int)
    requires fd in io.buffers
    ensures WriteOut(io, fd).buffers
         == io.buffers[fd := io.buffers[fd].(send := Remaining(io.buffers[fd].send, io.net))]
    ensures WriteOut(io, fd).net == if io.buffers[fd].send != "" && io.net != [] then io.net[1..] else io.net
  {
    var buf := io.buffers[fd].send;
    assert io.buffers[fd := io.buffers[fd]] == io.buffers;
    assert buf[0..] == buf && buf[|buf|..] == "";
  }

  lemma OnlySlot(io: Io, serverFd: int, fd: int, i: nat)
    requires IoInv(io, serverFd) && fd in io.buffers && i < |io.fds| && io.fds[i].fd == fd
    ensures FirstSlot(io.fds, fd) == i
  {
    TableMeans(io, serverFd);
  }

  /** After a POLLOUT turn that goes well, the client's slot is armed iff something is still pending. */
  lemma WriteArmsIffPending(io: Io, serverFd: int, fd: int, i: nat)
    requires IoInv(io, serverFd) && fd in io.buffers && i < |io.fds| && io.fds[i].fd == fd
    requires FlushOut(io, fd).1
    ensures var io' := WriteOut(io, fd);
            i < |io'.fds| && io'.fds[i].fd == fd && (io'.fds[i].pollOut <==> io'.buffers[fd].send != "")
  {
    OnlySlot(io, serverFd, fd, i);
    hide TableOk, FirstSlot;
    assert io.fds[i].fd in io.buffers && (io.buffers[fd].send != "" ==> io.fds[i].pollOut);
  }

  /** castMsg arms the client's slot iff send() refused for now, or took fewer bytes than the message has. */
  lemma CastArmsIff(io: Io, serverFd: int, fd: int, msg: string, i: nat)
    requires IoInv(io, serverFd) && fd in io.buffers && i < |io.fds| && io.fds[i].fd == fd && !PeerIsGone(io.net)
    ensures var io' := PollTable.CastMsg(io, fd, msg);
            && i < |io'.fds| && io'.fds[i].fd == fd
            && (io'.fds[i].pollOut <==>
                io.fds[i].pollOut || io.net == [] || io.net[0] == WouldBlock
                || (io.net[0].Sent? && io.net[0].n < |msg|))
  {
    hide IoInv, Mark, FirstSlot;
    OnlySlot(io, serverFd, fd, i);
  }

  // ---- a series of effects ----

  /** How often the effects call send(): once for each text to someone connected. */
  function Calls(connected: set<int>, out: seq<Effect>): nat {
    if out == [] then 0
    else (if out[0].Tell? && out[0].fd in connected then 1 else 0) + Calls(connected, out[1..])
  }

  /** One of the texts to f gets the answer that the peer is gone. */
  predicate HearsGone(connected: set<int>, net: seq<SendResult>, out: seq<Effect>, f: int) {
    exists i | 0 <= i < |out| ::
      out[i].Tell? && out[i].fd == f && f in connected && AnswerIsGone(net, Calls(connected, out[..i]))
  }

  /** The answer to call number n. */
  predicate AnswerIsGone(net: seq<SendResult>, n: nat) { n < |net| && net[n] == PeerGone }

  lemma CallsUnfold(connected: set<int>, out: seq<Effect>, i: nat)
    requires 0 < i <= |out|
    ensures Calls(connected, out[..i])
         == (if out[0].Tell? && out[0].fd in connected then 1 else 0) + Calls(connected, out[1..][..i - 1])
  {
    assert out[..i][0] == out[0] && out[..i][1..] == out[1..][..i - 1];
  }

  lemma HearsGoneUnfolds(connected: set<int>, net: seq<SendResult>, out: seq<Effect>, f: int)
    requires out != []
    ensures var calls := out[0].Tell? && out[0].fd in connected;
            var net' := if calls && net != [] then net[1..] else net;
            HearsGone(connected, net, out, f) <==>
            (calls && out[0].fd == f && PeerIsGone(net)) || HearsGone(connected, net', out[1..], f)
  {
    var calls := out[0].Tell? && out[0].fd in connected;
    var net', rest := if calls && net != [] then net[1..] else net, out[1..];
    forall i | 0 < i < |out|
      ensures out[i] == rest[i - 1]
      ensures AnswerIsGone(net, Calls(connected, out[..i])) <==> AnswerIsGone(net', Calls(connected, rest[..i - 1]))
    {
      CallsUnfold(connected, out, i);
    }
    assert out[..0] == [];
    if HearsGone(connected, net', rest, f) {
      var i :| 0 <= i < |rest| && rest[i].Tell? && rest[i].fd == f && f in connected
               && AnswerIsGone(net', Calls(connected, rest[..i]));
      assert out[i + 1] == rest[i] && AnswerIsGone(net, Calls(connected, out[..i + 1]));
    }
  }

  /** Main result for effects: who is marked after them, exactly. */
  lemma {:induction false} DeliverMarks(io: Io, out: seq<Effect>, f: int)
    ensures f in Deliver(io, out).toRemove <==>
            f in io.toRemove || (f in io.buffers && (Drop(f) in out || HearsGone(io.buffers.Keys, io.net, out, f)))
    decreases |out|
  {
    hide HearsGone, Calls, PollTable.CastMsg, Mark;
    if out != [] {
      var e, io1 := out[0], Apply(io, out[0]);
      assert out == [e] + out[1..];
      HearsGoneUnfolds(io.buffers.Keys, io.net, out, f);
      DeliverMarks(io1, out[1..], f);
      DeliverFrame(io, [e]);
      OneDelivered(io, e);
      if e.Tell? { CastMarks(io, e.fd, e.msg); } else { MarkMarks(io, e.fd); }
    } else {
      NobodyHears(io.buffers.Keys, io.net, f);
    }
  }

  lemma NobodyHears(connected: set<int>, net: seq<SendResult>, f: int)
    ensures !HearsGone(connected, net, [], f)
  {
  }

  lemma OneDelivered(io: Io, e: Effect)
    ensures Deliver(io, [e]) == Apply(io, e)
  {
    assert [e][1..] == [];
  }

  lemma MarkMarks(io: Io, fd: int)
    ensures Mark(io, fd).toRemove == if fd in io.buffers then io.toRemove + {fd} else io.toRemove
    ensures Mark(io, fd).net == io.net
  {
  }

  // ---- one message ----

  /** The message itself asks for its sender's removal: QUIT, or an error while not registered. */
  predicate AsksRemoval(k: Control, fd: int, msg: string)
    requires fd in k.clients
  {
    var r := Execute(k, fd, Parse(msg).0, Parse(msg).1);
    Parse(msg).0 == QUIT || (r.error.Some? && fd in r.ctl.clients && !r.ctl.clients[fd].registered)
  }

  /** Handling the message marks f: it is the sender and asks for it, or one of the texts sent finds its peer gone. */
  predicate MessageMarks(s: State, fd: int, msg: string, f: int)
    requires fd in s.ctl.clients
  {
    (f == fd && AsksRemoval(s.ctl, fd, msg))
    || HearsGone(s.io.buffers.Keys, s.io.net, AllEffects(s.ctl, fd, msg), f)
  }

  lemma DropsOf(s: State, fd: int, msg: string, f: int)
    requires StateInv(s) && fd in s.ctl.clients
    ensures Drop(f) in AllEffects(s.ctl, fd, msg) <==> f == fd && AsksRemoval(s.ctl, fd, msg)
  {
    hide *;
    var (verb, p) := Parse(msg);
    SenderIsOk(s, fd, msg);
    DropsAfter(s.ctl, fd, msg, f);
    if verb == QUIT {
      QuitDrops(s.ctl, fd, p);
    } else {
      CommandGuarantees.OnlyQuitDrops(s.ctl, fd, verb, p);
      NoDrop(Execute(s.ctl, fd, verb, p).out, f);
    }
  }

  lemma SenderIsOk(s: State, fd: int, msg: string)
    requires StateInv(s) && fd in s.ctl.clients
    ensures var r := Execute(s.ctl, fd, Parse(msg).0, Parse(msg).1);
            fd in r.ctl.clients && (r.ctl.clients[fd].registered ==> r.ctl.clients[fd].pass)
  {
    HandleKeepsControl(s, fd, msg);
    hide Execute, Parse, IoInv;
    var r := Execute(s.ctl, fd, Parse(msg).0, Parse(msg).1);
    assert r.ctl == Handle(s, fd, msg).0.ctl;
    assert ClientOk(r.ctl.clients[fd]);
  }

  lemma NoDrop(out: seq<Effect>, f: int)
    requires CommandGuarantees.JustTalks(out)
    ensures Drop(f) !in out
  {
  }

  /** What the error policy adds to a command's own drops. */
  lemma DropsAfter(k: Control, fd: int, msg: string, f: int)
    requires fd in k.clients
    requires var r := Execute(k, fd, Parse(msg).0, Parse(msg).1);
             fd in r.ctl.clients && (r.ctl.clients[fd].registered ==> r.ctl.clients[fd].pass)
    ensures var (verb, r) := (Parse(msg).0, Execute(k, fd, Parse(msg).0, Parse(msg).1));
            && (Drop(f) in AllEffects(k, fd, msg) <==>
                Drop(f) in r.out || (f == fd && r.error.Some? && !r.ctl.clients[fd].registered))
            && (AsksRemoval(k, fd, msg) <==> verb == QUIT || (r.error.Some? && !r.ctl.clients[fd].registered))
  {
    hide Execute, Parse;
  }

  lemma QuitDrops(k: Control, fd: int, p: string)
    requires fd in k.clients
    ensures Execute(k, fd, QUIT, p).out == [Drop(fd)] && Execute(k, fd, QUIT, p).error.None?
  {
  }

  /** Main result for messages: who is marked after one, exactly, and when its sender's removal is asked for. */
  lemma HandleMarks(s: State, fd: int, msg: string, f: int)
    requires StateInv(s) && fd in s.ctl.clients
    ensures f in Handle(s, fd, msg).0.io.toRemove <==>
            f in s.io.toRemove || (f in s.io.buffers && MessageMarks(s, fd, msg, f))
    ensures !Handle(s, fd, msg).1 ==> AsksRemoval(s.ctl, fd, msg)
  {
    HandleDelivers(s, fd, msg);
    DropsOf(s, fd, msg, f);
    DeliverMarks(s.io, AllEffects(s.ctl, fd, msg), f);
    HandleKeepsControl(s, fd, msg);
    hide Inv, IoInv, Execute, Parse, AllEffects, HearsGone;
  }
}
