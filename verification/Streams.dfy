/** The byte streams of one client through a whole run of the server, whatever else the server does in between. */
module Streams {
  import opened ServerState
  import opened Commands
  import opened PollTable
  import opened Machine
  import Framing
  import Outbound

  /** The client on fd stays connected, as the same object, through the run. */
  ghost predicate Stays(s: State, es: seq<Event>, fd: int)
    decreases |es|
  {
    && fd in s.ctl.clients
    && (es != [] ==>
        && fd in Step(s, es[0]).ctl.clients && Step(s, es[0]).ctl.clients[fd].id == s.ctl.clients[fd].id
        && (es[0].Cleanup? ==> fd !in s.io.toRemove)
        && Stays(Step(s, es[0]), es[1..], fd))
  }

  // ---- inbound ----

  /** Bytes accepted from fd during the run. */
  function Stream(s: State, es: seq<Event>, fd: int): string
    decreases |es|
  {
    if es == [] then ""
    else
      (match es[0]
       case Receive(f, chunk) =>
         if f == fd && f in s.io.buffers && f !in s.io.toRemove then Framing.CString(chunk) else ""
       case _ => "")
      + Stream(Step(s, es[0]), es[1..], fd)
  }

  /** Messages of fd handled during the run, in order. */
  function Messages(s: State, es: seq<Event>, fd: int): seq<string>
    decreases |es|
  {
    if es == [] then []
    else
      (match es[0]
       case Process(f) =>
         if f == fd && CanProcess(s, f) then [Framing.Extract(s.io.buffers[f].recv).value.0] else []
       case _ => [])
      + Messages(Step(s, es[0]), es[1..], fd)
  }

  /** What one event does to the receive buffer of fd. */
  lemma StepReceives(s: State, e: Event, fd: int)
    requires fd in s.io.buffers && fd in s.ctl.clients && (e.Cleanup? ==> fd !in s.io.toRemove)
    requires e.Accept? ==> e.fd != fd
    ensures fd in Step(s, e).io.buffers
    ensures var recv, recv' := s.io.buffers[fd].recv, Step(s, e).io.buffers[fd].recv;
            match e
            case Receive(f, chunk) =>
              recv' == if f == fd && fd !in s.io.toRemove then recv + Framing.CString(chunk) else recv
            case Process(f) => recv' == if f == fd && CanProcess(s, f) then Framing.Extract(recv).value.1 else recv
            case _ => recv' == recv
  {
    match e {
      case Process(f) =>
        if CanProcess(s, f) {
          var (msg, rest) := Framing.Extract(s.io.buffers[f].recv).value;
          HandleDelivers(s.(io := Received(s.io, f, rest)), f, msg);
          DeliverFrame(Received(s.io, f, rest), AllEffects(s.ctl, f, msg));
        }
      case Writable(f) => if f in s.io.buffers { WriteFrame(s.io, f); }
      case Accept(_, _) =>
      case Receive(_, _) =>
      case Remove(_) =>
      case Cleanup =>
      case Kernel(_) =>
    }
  }

  /** The statement below, for the parts one event leaves: same shape for an event that fd does not notice. */
  ghost predicate Frames(recv: string, stream: string, messages: seq<string>, end: string) {
    Framing.Drain(recv + stream) == (messages + Framing.Drain(end).0, Framing.Drain(end).1)
  }

  lemma FramesOneMore(recv: string, stream: string, messages: seq<string>, end: string)
    requires Framing.Extract(recv).Some? && Frames(Framing.Extract(recv).value.1, stream, messages, end)
    ensures Frames(recv, stream, [Framing.Extract(recv).value.0] + messages, end)
  {
    Framing.DrainFirst(recv, stream);
    var msg := Framing.Extract(recv).value.0;
    assert [msg] + (messages + Framing.Drain(end).0) == ([msg] + messages) + Framing.Drain(end).0;
  }

  lemma FramesReceived(recv: string, chunk: string, stream: string, messages: seq<string>, end: string)
    requires Frames(recv + chunk, stream, messages, end)
    ensures Frames(recv, chunk + stream, messages, end)
  {
    assert recv + (chunk + stream) == recv + chunk + stream;
  }

  /**
   * Main result: the messages a client gets handled are, in order, a prefix of the framing of its byte stream, and what
   * is still to come is the framing of its buffer, however the bytes were chunked and whatever happened in between.
   */
  lemma {:induction false} HandledMessagesFrameTheStream(s: State, es: seq<Event>, fd: int)
    requires StateInv(s) && Possible(s, es) && Stays(s, es, fd)
    ensures fd in Run(s, es).io.buffers
    ensures Frames(s.io.buffers[fd].recv, Stream(s, es, fd), Messages(s, es, fd), Run(s, es).io.buffers[fd].recv)
    decreases |es|
  {
    var recv := s.io.buffers[fd].recv;
    if es == [] {
      assert recv + "" == recv;
      assert [] + Framing.Drain(recv).0 == Framing.Drain(recv).0;
    } else {
      var e, s', rest := es[0], Step(s, es[0]), es[1..];
      StepKeepsInv(s, e);
      StepReceives(s, e, fd);
      HandledMessagesFrameTheStream(s', rest, fd);
      var later, msgs, end := Stream(s', rest, fd), Messages(s', rest, fd), Run(s, es).io.buffers[fd].recv;
      StreamUnfolds(s, es, fd);
      if e.Process? && e.fd == fd && CanProcess(s, fd) {
        FramesOneMore(recv, later, msgs, end);
      } else if e.Receive? && e.fd == fd && fd !in s.io.toRemove {
        FramesReceived(recv, Framing.CString(e.chunk), later, msgs, end);
      }
    }
  }

  lemma StreamUnfolds(s: State, es: seq<Event>, fd: int)
    requires es != [] && fd in s.io.buffers
    ensures var e, later, msgs := es[0], Stream(Step(s, es[0]), es[1..], fd), Messages(Step(s, es[0]), es[1..], fd);
            && Stream(s, es, fd) == (if e.Receive? && e.fd == fd && fd !in s.io.toRemove
                                     then Framing.CString(e.chunk) + later else later)
            && Messages(s, es, fd) == (if e.Process? && e.fd == fd && CanProcess(s, fd)
                                       then [Framing.Extract(s.io.buffers[fd].recv).value.0] + msgs else msgs)
  {
    assert "" + Stream(Step(s, es[0]), es[1..], fd) == Stream(Step(s, es[0]), es[1..], fd);
    assert [] + Messages(Step(s, es[0]), es[1..], fd) == Messages(Step(s, es[0]), es[1..], fd);
  }

  // ---- outbound ----

  /** The casts to fd among a command's effects, with the answers send() gave to them. */
  function Casts(io: Io, out: seq<Effect>, fd: int): seq<Outbound.LinkEvent>
    decreases |out|
  {
    if out == [] then []
    else
      (if out[0].Tell? && out[0].fd == fd && fd in io.buffers then [Outbound.CastMsg(out[0].msg, Answer(io))] else [])
      + Casts(Apply(io, out[0]), out[1..], fd)
  }

  lemma {:induction false} LinkRunConcat(l: Outbound.Link, a: seq<Outbound.LinkEvent>, b: seq<Outbound.LinkEvent>)
    ensures Outbound.LinkRun(l, a + b) == Outbound.LinkRun(Outbound.LinkRun(l, a), b)
    decreases |b|
  {
    if b == [] {
      assert a + b == a;
    } else {
      LinkRunConcat(l, a, b[..|b| - 1]);
      assert (a + b)[..|a + b| - 1] == a + b[..|b| - 1];
    }
  }

  lemma LinkRunOne(l: Outbound.Link, e: Outbound.LinkEvent)
    ensures Outbound.LinkRun(l, [e]) == Outbound.LinkStep(l, e)
  {
  }

  lemma {:induction false} DeliverIsLinkRun(io: Io, out: seq<Effect>, fd: int, l: Outbound.Link)
    requires fd in io.buffers && l.buf == io.buffers[fd].send
    ensures fd in Deliver(io, out).buffers
    ensures Deliver(io, out).buffers[fd].send == Outbound.LinkRun(l, Casts(io, out, fd)).buf
    decreases |out|
  {
    if out != [] {
      var io1, rest := Apply(io, out[0]), out[1..];
      var one := if out[0].Tell? && out[0].fd == fd then [Outbound.CastMsg(out[0].msg, Answer(io))] else [];
      if one != [] { LinkRunOne(l, one[0]); }
      var l1 := Outbound.LinkRun(l, one);
      assert io1.buffers[fd].send == l1.buf;
      DeliverIsLinkRun(io1, rest, fd, l1);
      LinkRunConcat(l, one, Casts(io1, rest, fd));
    }
  }

  /** What one event does to the outbound link of fd: casts to it, or its own write. */
  function LinkEvents(s: State, e: Event, fd: int): seq<Outbound.LinkEvent> {
    match e
    case Process(f) =>
      if CanProcess(s, f) then
        var (msg, rest) := Framing.Extract(s.io.buffers[f].recv).value;
        Casts(Received(s.io, f, rest), AllEffects(s.ctl, f, msg), fd)
      else []
    case Writable(f) =>
      if f == fd && fd in s.io.buffers && fd !in s.io.toRemove && s.io.buffers[fd].send != ""
      then [Outbound.Writable(Answer(s.io))] else []
    case _ => []
  }

  lemma StepIsLinkRun(s: State, e: Event, fd: int, l: Outbound.Link)
    requires fd in s.io.buffers && fd in s.ctl.clients && (e.Cleanup? ==> fd !in s.io.toRemove)
    requires e.Accept? ==> e.fd != fd
    requires l.buf == s.io.buffers[fd].send
    ensures fd in Step(s, e).io.buffers
    ensures Step(s, e).io.buffers[fd].send == Outbound.LinkRun(l, LinkEvents(s, e, fd)).buf
  {
    match e {
      case Process(f) =>
        if CanProcess(s, f) {
          var (msg, rest) := Framing.Extract(s.io.buffers[f].recv).value;
          HandleDelivers(s.(io := Received(s.io, f, rest)), f, msg);
          DeliverIsLinkRun(Received(s.io, f, rest), AllEffects(s.ctl, f, msg), fd, l);
        }
      case Writable(f) =>
        if f in s.io.buffers { WriteFrame(s.io, f); }
        if LinkEvents(s, e, fd) != [] { LinkRunOne(l, LinkEvents(s, e, fd)[0]); }
      case _ =>
    }
  }

  function RunLinkEvents(s: State, es: seq<Event>, fd: int): seq<Outbound.LinkEvent>
    decreases |es|
  {
    if es == [] then [] else LinkEvents(s, es[0], fd) + RunLinkEvents(Step(s, es[0]), es[1..], fd)
  }

  lemma {:induction false} RunIsLinkRun(s: State, es: seq<Event>, fd: int, l: Outbound.Link)
    requires StateInv(s) && Possible(s, es) && Stays(s, es, fd) && l.buf == s.io.buffers[fd].send
    ensures fd in Run(s, es).io.buffers
    ensures Run(s, es).io.buffers[fd].send == Outbound.LinkRun(l, RunLinkEvents(s, es, fd)).buf
    decreases |es|
  {
    hide Step, LinkEvents, Inv, IoInv;
    if es != [] {
      StepKeepsInv(s, es[0]);
      StepIsLinkRun(s, es[0], fd, l);
      var l1 := Outbound.LinkRun(l, LinkEvents(s, es[0], fd));
      RunIsLinkRun(Step(s, es[0]), es[1..], fd, l1);
      LinkRunConcat(l, LinkEvents(s, es[0], fd), RunLinkEvents(Step(s, es[0]), es[1..], fd));
    }
  }

  /**
   * Main result: through any run of the server, a client's send buffer is the buffer of an outbound link that saw
   * exactly the casts to that client and its writes. So, as far as its casts met the guard, the peer got exactly what
   * was cast to it.
   */
  lemma SendBufferIsLink(s: State, es: seq<Event>, fd: int, l: Outbound.Link)
    requires StateInv(s) && Possible(s, es) && Stays(s, es, fd) && l.buf == s.io.buffers[fd].send
    ensures fd in Run(s, es).io.buffers
    ensures var end := Outbound.LinkRun(l, RunLinkEvents(s, es, fd));
            && Run(s, es).io.buffers[fd].send == end.buf
            && (Outbound.Conserved(l) && Outbound.SafeThroughout(l, RunLinkEvents(s, es, fd)) ==>
                end.wire + Run(s, es).io.buffers[fd].send == end.cast)
  {
    hide StateInv, Possible, Run, Stays, RunLinkEvents;
    RunIsLinkRun(s, es, fd, l);
    var all := RunLinkEvents(s, es, fd);
    if Outbound.Conserved(l) && Outbound.SafeThroughout(l, all) {
      Outbound.ConservedIffSafe(l, all);
      assert all[..|all|] == all;
    }
  }
}
