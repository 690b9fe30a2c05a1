/** What all this means for the server that starts with no client: statements about every reachable state. */
module ServerGuarantees {
  import opened ServerState
  import opened Acts
  import opened Authority
  import opened Provenance
  import opened PollTable
  import opened Machine

  /** Reachable: what some possible sequence of events makes of the state after init(). */
  ghost predicate Reached(serverFd: int, password: string, es: seq<Event>, s: State) {
    serverFd >= 0 && Possible(Start(serverFd, password), es) && s == Run(Start(serverFd, password), es)
  }

  lemma ReachedIsValid(serverFd: int, password: string, es: seq<Event>, s: State)
    requires Reached(serverFd, password, es, s)
    ensures StateInv(s)
  {
    hide Run, Possible, StateInv;
    StartIsValid(serverFd, password);
    RunKeepsInv(Start(serverFd, password), es);
  }

  /** No channel entry dangles or misnames its client, and operators are participants, as the same client. */
  lemma NothingDangles(serverFd: int, password: string, es: seq<Event>, s: State)
    requires Reached(serverFd, password, es, s)
    ensures forall name, n | name in s.ctl.channels && n in s.ctl.channels[name].participants ::
              Holds(s.ctl.clients, n, s.ctl.channels[name].participants[n])
    ensures forall name, n | name in s.ctl.channels && n in s.ctl.channels[name].operators ::
              n in s.ctl.channels[name].participants
              && s.ctl.channels[name].operators[n] == s.ctl.channels[name].participants[n]
    ensures forall f, g | f in s.ctl.clients && g in s.ctl.clients ::
              s.ctl.clients[f].nick == s.ctl.clients[g].nick != "" ==> f == g
  {
    hide Reached, IoInv, FdsOk, IdsOk, IndexOk;
    ReachedIsValid(serverFd, password, es, s);
    forall name | name in s.ctl.channels ensures MembersOk(s.ctl.clients, s.ctl.channels[name]) {
      assert ChannelOk(s.ctl.clients, s.ctl.channels[name]);
    }
  }

  /** At most MAX_CLIENTS clients, one slot each plus one for the server, every descriptor once, and no wakeup lost. */
  lemma TableMatchesClients(serverFd: int, password: string, es: seq<Event>, s: State)
    requires Reached(serverFd, password, es, s)
    ensures s.io.buffers.Keys == s.ctl.clients.Keys
    ensures |s.io.fds| == 1 + |s.ctl.clients| <= 1 + MAX_CLIENTS && s.io.toRemove <= s.ctl.clients.Keys
    ensures forall f | f in s.ctl.clients && f !in s.io.toRemove ::
              exists i ::
                0 <= i < |s.io.fds| && s.io.fds[i].fd == f && (s.io.buffers[f].send != "" ==> s.io.fds[i].pollOut)
    ensures forall i, j | 0 <= i < j < |s.io.fds| && s.io.fds[i].fd != -1 :: s.io.fds[i].fd != s.io.fds[j].fd
    ensures s.ctl.serverFd >= 0 && exists i :: 0 <= i < |s.io.fds| && s.io.fds[i].fd == s.ctl.serverFd
  {
    hide Reached, Inv;
    ReachedIsValid(serverFd, password, es, s);
    TableMeans(s.io, s.ctl.serverFd);
    SameSize(s.ctl.clients, s.io.buffers);
    forall f | f in s.ctl.clients && f !in s.io.toRemove
      ensures exists i ::
                0 <= i < |s.io.fds| && s.io.fds[i].fd == f && (s.io.buffers[f].send != "" ==> s.io.fds[i].pollOut)
    {
      assert f in s.io.buffers;
      var i :| 0 <= i < |s.io.fds| && s.io.fds[i].fd == f;
      assert s.io.buffers[s.io.fds[i].fd].send != "" ==> s.io.fds[i].pollOut;
    }
  }

  /** Every operator's right goes back, grant by grant, to the JOIN that made the channel. */
  lemma OperatorsHaveLineage(serverFd: int, password: string, es: seq<Event>, s: State, name: string, inst: nat, p: Ptr)
    requires Reached(serverFd, password, es, s) && IsOp(s.ctl, name, inst, p)
    ensures var acts := RunActs(Start(serverFd, password), es);
            Legal(Start(serverFd, password).ctl, acts)
            && exists l :: Traces(Start(serverFd, password).ctl, acts, name, inst, p, l)
  {
    hide Run, Possible, Traces, IsOp, IoInv;
    StartIsValid(serverFd, password);
    RunKeepsInv(Start(serverFd, password), es);
    EveryOperatorHasLineage(Start(serverFd, password).ctl, RunActs(Start(serverFd, password), es), name, inst, p);
  }

  /**
   * What a cleanup leaves of a channel whose participants were all removed: the instance stays without operators, with
   * the settings it has, for as long as it exists, whoever joins it.
   */
  lemma EmptiedChannelIsFrozen(s: State, es: seq<Event>, name: string)
    requires StateInv(s) && name in Clean(s).ctl.channels && Clean(s).ctl.channels[name].participants == map[]
    requires Possible(Clean(s), es)
    ensures var ch, k' := Clean(s).ctl.channels[name], Run(Clean(s), es).ctl;
            SameChannel(k', name, ch.id) ==>
              k'.channels[name].operators == map[] && SameSettings(k'.channels[name], ch)
  {
    CleanKeepsInv(s);
    hide Run, Possible, Clean, IoInv, SameSettings;
    var k, acts := Clean(s).ctl, RunActs(Clean(s), es);
    RunKeepsInv(Clean(s), es);
    assert ChannelOk(k.clients, k.channels[name]);
    assert k.channels[name].operators.Keys == {};
    assert k.channels[name].operators == map[];
    hide Inv;
    OperatorsNeverReturn(k, acts, name, k.channels[name].id);
    OperatorlessIsFrozen(k, acts, name, k.channels[name].id);
  }
}
