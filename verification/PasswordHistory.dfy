/** The password over whole runs: who counts as having given it is exactly who sent PASS with it. */
module PasswordHistory {
  import opened Text
  import opened ServerState
  import opened Commands
  import opened Acts
  import opened CommandActs
  import opened Admission
  import opened PollTable
  import opened Machine
  import opened ServerGuarantees
  import Framing
  import JoinErrors
  import Modes

  // ---- one command ----

  lemma {:induction false} PartKeepsClients(k: Control, fd: int, names: seq<string>)
    requires fd in k.clients
    ensures PartAll(k, fd, names).ctl.clients == k.clients
    decreases |names|
  {
    if names != [] { PartKeepsClients(PartOne(k, fd, names[0]).ctl, fd, names[1..]); }
  }

  lemma UserKeepsPass(k: Control, fd: int, p: string)
    requires fd in k.clients
    ensures var k' := User(k, fd, p).ctl; fd in k'.clients && k'.clients[fd].pass == k.clients[fd].pass
  {
    hide Tokens, Spaced, UsernameOk, RealnameOk, Welcome, UserPrefix, Reply;
  }

  lemma ChannelCommandsKeepClients(k: Control, fd: int, p: string)
    requires fd in k.clients
    ensures k.clients == Kick(k, fd, p).ctl.clients == Invite(k, fd, p).ctl.clients
    ensures k.clients == Topic(k, fd, p).ctl.clients == Mode(k, fd, p).ctl.clients
  {
    hide SplitFrom, TopicFields, Tokens, Broadcast, Reply, Notice, InviteError, FindNick, Modes.PlusBatch,
         Modes.MinusBatch;
  }

  /** The command sets the flag iff it is PASS with the password, which an empty one never is. */
  lemma OnlyPassSetsPass(k: Control, fd: int, verb: Verb, p: string)
    requires fd in k.clients
    ensures var k' := Execute(k, fd, verb, p).ctl;
            fd in k'.clients
            && (k'.clients[fd].pass <==> k.clients[fd].pass || (verb == PASS && p == k.password != ""))
  {
    hide User, Kick, Invite, Topic, Mode, JoinAll, PartAll, NickError, Fields, Select, SplitFrom, Privmsg, Reply;
    match verb {
      case JOIN => JoinErrors.JoinKeepsClients(k, fd, Select(Fields(p, ""), true), Select(Fields(p, ""), false));
      case PART => PartKeepsClients(k, fd, SplitFrom(p, ',', 0));
      case USER => UserKeepsPass(k, fd, p);
      case KICK => ChannelCommandsKeepClients(k, fd, p);
      case INVITE => ChannelCommandsKeepClients(k, fd, p);
      case TOPIC => ChannelCommandsKeepClients(k, fd, p);
      case MODE => ChannelCommandsKeepClients(k, fd, p);
      case PRIVMSG => PrivmsgOnlyTalks(k, fd, p);
      case NICK =>
      case PASS =>
      case PING =>
      case CAP =>
      case QUIT =>
      case UNKNOWN =>
    }
  }

  // ---- one event ----

  /** In this event the client on fd is heard to say PASS with the password. */
  predicate Gives(s: State, e: Event, fd: int, password: string) {
    && e == Process(fd) && CanProcess(s, fd) && password != ""
    && Parse(Framing.Extract(s.io.buffers[fd].recv).value.0) == (PASS, password)
  }

  lemma ProcessSetsPass(s: State, fd: int)
    requires StateInv(s) && CanProcess(s, fd)
    ensures var k' := ProcessOne(s, fd).0.ctl;
            fd in k'.clients && (k'.clients[fd].pass
                <==> s.ctl.clients[fd].pass || Gives(s, Process(fd), fd, s.ctl.password))
  {
    hide StateInv, Execute, Parse, Framing.Extract, Mark, CastMsg, Deliver, Dropped;
    var msg := Framing.Extract(s.io.buffers[fd].recv).value.0;
    OnlyPassSetsPass(s.ctl, fd, Parse(msg).0, Parse(msg).1);
  }

  lemma StepPass(s: State, e: Event, fd: int, id: nat)
    requires StateInv(s) && EnvOk(s, e) && SameClient(Step(s, e).ctl, fd, id) && Step(s, e).ctl.clients[fd].pass
    ensures SameClient(s.ctl, fd, id) && (s.ctl.clients[fd].pass || Gives(s, e, fd, s.ctl.password))
  {
    hide Inv, IoInv, Gives, Mark, WriteOut, Framing.CString;
    match e {
      case Process(f) =>
        if CanProcess(s, f) { ProcessKeepsInv(s, f); ProcessSetsPass(s, f); }
      case Cleanup => CleanControl(s.ctl, s.io.toRemove);
      case _ =>
    }
  }

  // ---- all runs ----

  /** In event number i, the client object id, then on fd, says PASS with the password the server has from the start. */
  ghost predicate GavePassword(s: State, es: seq<Event>, i: int, fd: int, id: nat)
    requires Possible(s, es)
  {
    0 <= i < |es| && Gives(Run(s, es[..i]), es[i], fd, s.ctl.password) && SameClient(Run(s, es[..i]).ctl, fd, id)
  }

  lemma {:induction false} PasswordStays(k: Control, acts: seq<Act>)
    requires Legal(k, acts)
    ensures PerformAll(k, acts).password == k.password
    decreases |acts|
  {
    if acts != [] { PasswordStays(k, acts[..|acts| - 1]); }
  }

  lemma {:induction false} FlagWasSet(s: State, es: seq<Event>, fd: int, id: nat)
    requires StateInv(s) && Possible(s, es)
    requires SameClient(Run(s, es).ctl, fd, id) && Run(s, es).ctl.clients[fd].pass
    ensures (SameClient(s.ctl, fd, id) && s.ctl.clients[fd].pass) || exists i :: GavePassword(s, es, i, fd, id)
    decreases |es|
  {
    hide StateInv, Gives, EnvOk, Step;
    if es != [] {
      var s1, rest := Step(s, es[0]), es[1..];
      StepKeepsInv(s, es[0]);
      PasswordStays(s.ctl, EventActs(s, es[0]));
      FlagWasSet(s1, rest, fd, id);
      if i :| GavePassword(s1, rest, i, fd, id) {
        assert es[..i + 1][0] == es[0] && es[..i + 1][1..] == rest[..i];
        assert GavePassword(s, es, i + 1, fd, id);
      } else {
        StepPass(s, es[0], fd, id);
        assert es[..0] == [];
        assert s.ctl.clients[fd].pass || GavePassword(s, es, 0, fd, id);
      }
    }
  }

  lemma {:induction false} RunSplits(s: State, es: seq<Event>, i: nat)
    requires Possible(s, es) && i <= |es|
    ensures Possible(s, es[..i]) && Possible(Run(s, es[..i]), es[i..])
    ensures Run(Run(s, es[..i]), es[i..]) == Run(s, es)
    decreases i
  {
    if i == 0 {
      assert es[..0] == [] && es[0..] == es;
    } else {
      RunSplits(Step(s, es[0]), es[1..], i - 1);
      assert es[..i][0] == es[0] && es[..i][1..] == es[1..][..i - 1] && es[i..] == es[1..][i - 1..];
    }
  }

  lemma FlagStays(s: State, es: seq<Event>, i: int, fd: int, id: nat)
    requires StateInv(s) && Possible(s, es) && GavePassword(s, es, i, fd, id) && SameClient(Run(s, es).ctl, fd, id)
    ensures Run(s, es).ctl.clients[fd].pass
  {
    hide StateInv;
    RunSplits(s, es, i);
    var now, rest := Run(s, es[..i]), es[i..];
    RunKeepsInv(s, es[..i]);
    PasswordStays(s.ctl, RunActs(s, es[..i]));
    ProcessSetsPass(now, fd);
    ProcessKeepsInv(now, fd);
    StepKeepsInv(now, Process(fd));
    assert rest[0] == Process(fd);
    var next := Step(now, rest[0]);
    RunKeepsInv(next, rest[1..]);
    RegistrationIsMonotone(next.ctl, RunActs(next, rest[1..]), fd, id);
  }

  /**
   * Main result: in a reachable state a client counts as having given the password iff, while it was connected, it sent
   * PASS with the server's password, which is not empty (with an empty password nobody gets in).
   */
  lemma PassedIffGavePassword(serverFd: int, password: string, es: seq<Event>, s: State, fd: int)
    requires Reached(serverFd, password, es, s) && fd in s.ctl.clients
    ensures s.ctl.clients[fd].pass <==>
            exists i :: GavePassword(Start(serverFd, password), es, i, fd, s.ctl.clients[fd].id)
  {
    hide Possible, Run, StateInv, GavePassword;
    var s0, id := Start(serverFd, password), s.ctl.clients[fd].id;
    StartIsValid(serverFd, password);
    if s.ctl.clients[fd].pass { FlagWasSet(s0, es, fd, id); }
    if i :| GavePassword(s0, es, i, fd, id) { FlagStays(s0, es, i, fd, id); }
  }

  /** Whoever is registered, and so whoever is in a channel, has given the password. */
  lemma MembersGavePassword(serverFd: int, password: string, es: seq<Event>, s: State, name: string, n: string)
    requires Reached(serverFd, password, es, s) && name in s.ctl.channels && n in s.ctl.channels[name].participants
    ensures var p := s.ctl.channels[name].participants[n];
            exists i :: GavePassword(Start(serverFd, password), es, i, p.fd, p.id)
  {
    hide Reached, IoInv, GavePassword;
    ReachedIsValid(serverFd, password, es, s);
    assert ChannelOk(s.ctl.clients, s.ctl.channels[name]);
    var p := s.ctl.channels[name].participants[n];
    assert Holds(s.ctl.clients, n, p) && ClientOk(s.ctl.clients[p.fd]);
    PassedIffGavePassword(serverFd, password, es, s, p.fd);
  }
}
