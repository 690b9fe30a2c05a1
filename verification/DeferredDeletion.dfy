/**
 * Deferred deletion is safe: clients leave only at cleanup, marked ones do nothing until then, and cleanup purges
 * exactly them.
 */
module DeferredDeletion {
  import opened Ordering
  import opened ServerState
  import opened Commands
  import opened Acts
  import opened PollTable
  import opened Machine

  // ---- between cleanups ----

  /** Everyone stays connected, as the same object, and every mark stays. */
  predicate NobodyLeaves(s: State, s': State) {
    && (forall f | f in s.ctl.clients :: f in s'.ctl.clients && s'.ctl.clients[f].id == s.ctl.clients[f].id)
    && s.io.toRemove <= s'.io.toRemove
  }

  lemma OnlyCleanupDisconnects(s: State, e: Event)
    requires StateInv(s) && EnvOk(s, e) && !e.Cleanup?
    ensures NobodyLeaves(s, Step(s, e))
  {
    match e {
      case Process(fd) => if CanProcess(s, fd) { ProcessKeepsInv(s, fd); }
      case _ =>
    }
  }

  /** Main result: over any stretch without a cleanup no pointer held anywhere can start to dangle. */
  lemma {:induction false} NobodyLeavesBetweenCleanups(s: State, es: seq<Event>)
    requires StateInv(s) && Possible(s, es) && forall e | e in es :: !e.Cleanup?
    ensures NobodyLeaves(s, Run(s, es))
    decreases |es|
  {
    if es != [] {
      OnlyCleanupDisconnects(s, es[0]);
      StepKeepsInv(s, es[0]);
      NobodyLeavesBetweenCleanups(Step(s, es[0]), es[1..]);
    }
  }

  /**
   * A marked client has no slot, so none of its events does anything: it starts no command, receives nothing, gets no
   * POLLOUT turn and cannot be marked again. What others send it, castMsg still passes to send(); that touches nothing
   * but its send buffer and the answers of the kernel.
   */
  lemma MarkedClientsAreSilent(s: State, fd: int, chunk: string, msg: string)
    requires StateInv(s) && fd in s.io.toRemove
    ensures forall e | e in {Process(fd), Receive(fd, chunk), Writable(fd), Remove(fd)} :: Step(s, e) == s
    ensures forall i | 0 <= i < |s.io.fds| :: s.io.fds[i].fd != fd
    ensures var io' := CastMsg(s.io, fd, msg);
            && io'.net == AfterAnswer(s.io.net)
            && io'.(net := s.io.net, buffers := s.io.buffers) == s.io
            && io'.buffers == s.io.buffers[fd := s.io.buffers[fd].(send := io'.buffers[fd].send)]
  {
    hide *;
    MarkedHasNoSlot(s, fd);
    CastToMarked(s.io, fd, msg);
    NoEventOfMarked(s, fd, chunk);
  }

  lemma MarkedHasNoSlot(s: State, fd: int)
    requires StateInv(s) && fd in s.io.toRemove
    ensures fd in s.io.buffers && forall i | 0 <= i < |s.io.fds| :: s.io.fds[i].fd != fd
  {
    TableMeans(s.io, s.ctl.serverFd);
  }

  lemma NoEventOfMarked(s: State, fd: int, chunk: string)
    requires fd in s.io.toRemove
    ensures Step(s, Process(fd)) == s && Step(s, Receive(fd, chunk)) == s
    ensures Step(s, Writable(fd)) == s && Step(s, Remove(fd)) == s
  {
    hide ProcessOne, Clean, WriteOut, Void;
  }

  lemma CastToMarked(io: Io, fd: int, msg: string)
    requires fd in io.toRemove && fd in io.buffers && forall i | 0 <= i < |io.fds| :: io.fds[i].fd != fd
    ensures var io' := CastMsg(io, fd, msg);
            && io'.net == AfterAnswer(io.net)
            && io'.(net := io.net, buffers := io.buffers) == io
            && io'.buffers == io.buffers[fd := io.buffers[fd].(send := io'.buffers[fd].send)]
  {
  }

  // ---- cleanup ----

  /** The entries that do not name any of these descriptors. */
  function Keep(m: map<string, Ptr>, gone: set<int>): map<string, Ptr> {
    map n | n in m && m[n].fd !in gone :: m[n]
  }

  /** A channel without the entries of these descriptors. */
  function Without(ch: ChannelData, gone: set<int>): ChannelData {
    ch.(participants := Keep(ch.participants, gone), operators := Keep(ch.operators, gone))
  }

  lemma KeepIsRemove(m: map<string, Ptr>, key: string, fd: int)
    requires forall n | n in m :: m[n].fd == fd <==> n == key
    ensures Keep(m, {fd}) == m - {key}
  {
  }

  lemma KeepAll(m: map<string, Ptr>, gone: set<int>)
    requires forall n | n in m :: m[n].fd !in gone
    ensures Keep(m, gone) == m
  {
  }

  lemma KeepTwice(m: map<string, Ptr>, a: set<int>, b: set<int>)
    ensures Keep(Keep(m, a), b) == Keep(m, a + b)
  {
  }

  /** A participant entry names fd exactly when it stands under the nickname of fd. */
  lemma EntriesOf(k: Control, fd: int, name: string)
    requires Inv(k) && name in k.channels
    ensures forall n | n in k.channels[name].participants ::
              var f := k.channels[name].participants[n].fd;
              f in k.clients && (fd in k.clients ==> (f == fd <==> n == k.clients[fd].nick))
  {
  }

  lemma PurgedIsWithout(k: Control, fd: int, name: string)
    requires Inv(k) && fd in k.clients && name in k.channels
    ensures Purged(k.channels[name], k.clients[fd].nick) == Without(k.channels[name], {fd})
  {
    var ch := k.channels[name];
    EntriesOf(k, fd, name);
    assert ChannelOk(k.clients, ch);
    KeepIsRemove(ch.participants, k.clients[fd].nick, fd);
    KeepIsRemove(ch.operators, k.clients[fd].nick, fd);
  }

  lemma OneTornDown(k: Control, fd: int, name: string)
    requires Inv(k) && name in k.channels
    ensures var k1 := if fd in k.clients then Disconnected(k, fd) else k;
            Inv(k1) && name in k1.channels && k1.channels[name] == Without(k.channels[name], {fd})
  {
    if fd in k.clients {
      DisconnectKeepsInv(k, fd);
      PurgedIsWithout(k, fd, name);
    } else {
      EntriesOf(k, fd, name);
      assert ChannelOk(k.clients, k.channels[name]);
      KeepAll(k.channels[name].participants, {fd});
      KeepAll(k.channels[name].operators, {fd});
    }
  }

  lemma {:induction false} TearDownChannels(k: Control, fds: seq<int>, name: string)
    requires Inv(k) && name in k.channels
    ensures name in TearDown(k, fds).channels
    ensures TearDown(k, fds).channels[name] == Without(k.channels[name], set f | f in fds)
    decreases |fds|
  {
    hide Inv, Keep, Disconnected;
    var ch := k.channels[name];
    if fds == [] {
      assert (set f | f in fds) == {};
      KeepAll(ch.participants, {});
      KeepAll(ch.operators, {});
    } else {
      OneTornDown(k, fds[0], name);
      TearDownChannels(if fds[0] in k.clients then Disconnected(k, fds[0]) else k, fds[1..], name);
      var rest := set f | f in fds[1..];
      assert (set f | f in fds) == {fds[0]} + rest by { assert fds == [fds[0]] + fds[1..]; }
      KeepTwice(ch.participants, {fds[0]}, rest);
      KeepTwice(ch.operators, {fds[0]}, rest);
    }
  }

  /**
   * Main result: after cleanup no channel mentions a removed client; every other membership, every setting and every
   * other client is untouched; nobody is left marked; and what the channels name is connected.
   */
  lemma CleanupPurgesExactlyTheMarked(s: State)
    requires StateInv(s)
    ensures var s' := Clean(s);
            && s'.ctl.clients == s.ctl.clients - s.io.toRemove && s'.io.toRemove == {}
            && s'.ctl.channels.Keys == s.ctl.channels.Keys
            && (forall name | name in s.ctl.channels ::
                  s'.ctl.channels[name] == Without(s.ctl.channels[name], s.io.toRemove))
            && (forall name, n | name in s'.ctl.channels && n in s'.ctl.channels[name].participants ::
                  Holds(s'.ctl.clients, n, s'.ctl.channels[name].participants[n]))
  {
    var fds := SortedFds(s.io.toRemove);
    CleanControl(s.ctl, s.io.toRemove);
    assert (set f | f in fds) == s.io.toRemove;
    forall name | name in s.ctl.channels
      ensures name in Clean(s).ctl.channels
      ensures Clean(s).ctl.channels[name] == Without(s.ctl.channels[name], s.io.toRemove)
    {
      TearDownChannels(s.ctl, fds, name);
    }
    TearDownKeepsNames(s.ctl, fds);
    forall name, n | name in Clean(s).ctl.channels && n in Clean(s).ctl.channels[name].participants
      ensures Holds(Clean(s).ctl.clients, n, Clean(s).ctl.channels[name].participants[n])
    {
      assert ChannelOk(Clean(s).ctl.clients, Clean(s).ctl.channels[name]);
    }
  }

  /** The nicknames that the connected among these descriptors have. */
  function NicksOf(k: Control, fds: set<int>): set<string> {
    set f | f in fds && f in k.clients :: k.clients[f].nick
  }

  lemma {:induction false} TearDownIndex(k: Control, fds: seq<int>)
    ensures TearDown(k, fds).index == k.index - NicksOf(k, set f | f in fds)
    decreases |fds|
  {
    if fds == [] {
      assert NicksOf(k, set f | f in fds) == {} && k.index - {} == k.index;
    } else {
      var k1 := if fds[0] in k.clients then Disconnected(k, fds[0]) else k;
      TearDownIndex(k1, fds[1..]);
      assert fds == [fds[0]] + fds[1..];
      var all, rest := set f | f in fds, set f | f in fds[1..];
      assert all == {fds[0]} + rest;
      var first := if fds[0] in k.clients then {k.clients[fds[0]].nick} else {};
      assert NicksOf(k, all) == first + NicksOf(k1, rest);
      assert k.index - first - NicksOf(k1, rest) == k.index - (first + NicksOf(k1, rest));
    }
  }

  /** Cleanup takes the current nicknames of the removed clients, and nothing else, from the index. */
  lemma CleanupIndex(s: State)
    ensures Clean(s).ctl.index == s.ctl.index - NicksOf(s.ctl, s.io.toRemove)
  {
    TearDownIndex(s.ctl, SortedFds(s.io.toRemove));
    assert (set f | f in SortedFds(s.io.toRemove)) == s.io.toRemove;
  }

  lemma {:induction false} TearDownKeepsNames(k: Control, fds: seq<int>)
    ensures TearDown(k, fds).channels.Keys == k.channels.Keys
    decreases |fds|
  {
    if fds != [] { TearDownKeepsNames(if fds[0] in k.clients then Disconnected(k, fds[0]) else k, fds[1..]); }
  }

  /**
   * Unlike PART and KICK, cleanup never deletes a channel: it leaves one empty exactly when all its participants were
   * marked.
   */
  lemma CleanupLeavesEmptyChannels(s: State, name: string)
    requires StateInv(s) && name in s.ctl.channels
    ensures name in Clean(s).ctl.channels
    ensures Clean(s).ctl.channels[name].participants == map[] <==>
            forall n | n in s.ctl.channels[name].participants ::
                s.ctl.channels[name].participants[n].fd in s.io.toRemove
  {
    CleanupPurgesExactlyTheMarked(s);
    var p, p' := s.ctl.channels[name].participants, Clean(s).ctl.channels[name].participants;
    forall n | n in p && p' == map[] ensures p[n].fd in s.io.toRemove { assert n !in p'; }
    if forall n | n in p :: p[n].fd in s.io.toRemove { assert p'.Keys == {}; }
  }

  /** While PART and KICK leave no empty channel behind. */
  lemma LeavingDeletesEmptiedChannels(k: Control, name: string, nick: string)
    requires name in k.channels && nick in k.channels[name].participants
    ensures name in Leave(k, name, nick).channels <==> |k.channels[name].participants| > 1
    ensures name in Leave(k, name, nick).channels ==> Leave(k, name, nick).channels[name].participants != map[]
  {
    var p := k.channels[name].participants;
    assert (p - {nick}).Keys == p.Keys - {nick};
    assert |(p - {nick}).Keys| == |p.Keys| - 1;
    assert p - {nick} == map[] <==> |(p - {nick}).Keys| == 0;
  }
}
