/** Who hears what: broadcasts and private messages reach each of their receivers exactly once, and nobody else. */
module Recipients {
  import opened Wrappers
  import opened Text
  import opened Ordering
  import opened ServerState
  import opened Commands

  /** Some entry of the channel is the client on fd. */
  predicate Attends(ch: ChannelData, names: seq<string>, fd: int) {
    exists n | n in names :: n in ch.participants && ch.participants[n].fd == fd
  }

  predicate Participates(ch: ChannelData, fd: int) {
    exists n | n in ch.participants :: ch.participants[n].fd == fd
  }

  /** The names are distinct, and so are the descriptors they stand for. */
  predicate DistinctMembers(ch: ChannelData, names: seq<string>) {
    && (forall i | 0 <= i < |names| :: names[i] in ch.participants && ch.participants[names[i]].fd >= 0)
    && (forall i, j | 0 <= i < j < |names| :: ch.participants[names[i]].fd != ch.participants[names[j]].fd)
  }

  lemma {:induction false} MembersHearOnce(ch: ChannelData, names: seq<string>, msg: string, except: int, e: Effect)
    requires DistinctMembers(ch, names)
    ensures multiset(TellMembers(ch, names, msg, except))[e]
         == if e.Tell? && e.msg == msg && e.fd != except && Attends(ch, names, e.fd) then 1 else 0
    decreases |names|
  {
    if names != [] {
      var rest := names[1..];
      assert names == [names[0]] + rest;
      assert forall i | 0 <= i < |rest| :: rest[i] == names[i + 1];
      MembersHearOnce(ch, rest, msg, except, e);
      if e.Tell? && ch.participants[names[0]].fd == e.fd {
        assert !Attends(ch, rest, e.fd);
        assert names[0] in names;
      }
    }
  }

  lemma MembersAreDistinct(k: Control, name: string)
    requires Inv(k) && name in k.channels
    ensures DistinctMembers(k.channels[name], SortedNames(k.channels[name].participants.Keys))
  {
    var ch := k.channels[name];
    var names := SortedNames(ch.participants.Keys);
    SortedNamesAscend(ch.participants.Keys);
    assert ChannelOk(k.clients, ch);
    forall i | 0 <= i < |names|
      ensures names[i] in ch.participants && Holds(k.clients, names[i], ch.participants[names[i]])
    {
      assert names[i] in names;
    }
  }

  /**
   * Main result: a broadcast to a channel tells each participant but the excepted one exactly once, and nobody else.
   */
  lemma BroadcastReachesOnce(k: Control, name: string, msg: string, except: int)
    requires Inv(k) && name in k.channels
    ensures var ch := k.channels[name];
            forall e :: multiset(Broadcast(ch, msg, except))[e]
                     == if e.Tell? && e.msg == msg && e.fd != except && Participates(ch, e.fd) then 1 else 0
  {
    MembersAreDistinct(k, name);
    hide Inv, SortedNames, TellMembers, DistinctMembers;
    var ch := k.channels[name];
    var names := SortedNames(ch.participants.Keys);
    forall e ensures multiset(Broadcast(ch, msg, except))[e]
                  == if e.Tell? && e.msg == msg && e.fd != except && Participates(ch, e.fd) then 1 else 0
    {
      MembersHearOnce(ch, names, msg, except, e);
      if e.Tell? {
        assert Attends(ch, names, e.fd) <==> Participates(ch, e.fd);
      }
    }
  }

  // ---- PRIVMSG ----

  /** Who the receiver r stands for: a channel's participants without the sender, or the client with that nickname. */
  predicate Addressee(k: Control, fd: int, r: string, to: int) {
    if StartsWith(r, '#') then r in k.channels && to != fd && Participates(k.channels[r], to)
    else FindNick(k.clients, r) == Some(to)
  }

  function Line(prefix: string, r: string, msg: string): string { Notice(prefix, "PRIVMSG " + r + " " + msg) }

  /** e brings the message to someone the receiver r stands for. */
  predicate Carries(k: Control, fd: int, prefix: string, r: string, msg: string, e: Effect) {
    e.Tell? && e.msg == Line(prefix, r, msg) && Addressee(k, fd, r, e.fd)
  }

  /** Lines to different receivers differ. */
  lemma LinesDiffer(prefix: string, r: string, r': string, msg: string)
    requires Line(prefix, r, msg) == Line(prefix, r', msg)
    ensures r == r'
  {
    var before, after := prefix + " " + "PRIVMSG ", " " + msg + "\r\n";
    assert Line(prefix, r, msg) == before + r + after;
    assert Line(prefix, r', msg) == before + r' + after;
    assert |r| == |r'|;
    assert (before + r + after)[|before|..|before| + |r|] == r;
    assert (before + r' + after)[|before|..|before| + |r'|] == r';
  }

  predicate Reachable(k: Control, receivers: seq<string>) {
    forall r | r in receivers :: if StartsWith(r, '#') then r in k.channels else FindNick(k.clients, r).Some?
  }

  lemma {:induction false} NoErrorMeansReachable(k: Control, nick: string, receivers: seq<string>)
    requires ReceiverError(k, nick, receivers).None?
    ensures Reachable(k, receivers)
    decreases |receivers|
  {
    hide FindNick, Reply;
    if receivers != [] {
      NoErrorMeansReachable(k, nick, receivers[1..]);
      assert receivers == [receivers[0]] + receivers[1..];
    }
  }

  lemma ForwardAlone(k: Control, fd: int, prefix: string, r: string, msg: string)
    ensures Forward(k, fd, prefix, [r], msg)
         == if r in k.channels && StartsWith(r, '#') then Broadcast(k.channels[r], Line(prefix, r, msg), fd)
            else match FindNick(k.clients, r)
                 case None => []
                 case Some(to) => [Tell(to, Line(prefix, r, msg))]
  {
    hide Broadcast, FindNick, Notice;
    assert [r][1..] == [];
    assert Forward(k, fd, prefix, [r][1..], msg) == [];
  }

  lemma OneReceiver(k: Control, fd: int, prefix: string, r: string, msg: string, e: Effect)
    requires Inv(k) && Reachable(k, [r])
    ensures multiset(Forward(k, fd, prefix, [r], msg))[e] == if Carries(k, fd, prefix, r, msg, e) then 1 else 0
  {
    hide Inv, Broadcast, FindNick, Line, Forward, Participates;
    assert r in [r];
    ForwardAlone(k, fd, prefix, r, msg);
    if StartsWith(r, '#') { BroadcastReachesOnce(k, r, Line(prefix, r, msg), fd); }
  }

  lemma ForwardSplits(k: Control, fd: int, prefix: string, receivers: seq<string>, msg: string)
    requires receivers != []
    ensures Forward(k, fd, prefix, receivers, msg)
         == Forward(k, fd, prefix, [receivers[0]], msg) + Forward(k, fd, prefix, receivers[1..], msg)
  {
    hide Broadcast, FindNick, Notice;
    var one := [receivers[0]];
    assert one[0] == receivers[0] && one[1..] == [];
    assert Forward(k, fd, prefix, one[1..], msg) == [];
  }

  lemma NoOtherReceiver(k: Control, fd: int, prefix: string, receivers: seq<string>, msg: string, e: Effect)
    requires receivers != [] && !Duplicated(receivers) && Carries(k, fd, prefix, receivers[0], msg, e)
    ensures forall r | r in receivers[1..] :: !Carries(k, fd, prefix, r, msg, e)
  {
    hide Addressee, Line;
    var r, rest := receivers[0], receivers[1..];
    forall r' | r' in rest ensures !Carries(k, fd, prefix, r', msg, e) {
      var i :| 0 <= i < |rest| && rest[i] == r';
      assert receivers[i + 1] == r';
      if e.msg == Line(prefix, r', msg) { LinesDiffer(prefix, r, r', msg); }
    }
  }

  lemma RestIsSuch(k: Control, receivers: seq<string>)
    requires receivers != [] && Reachable(k, receivers) && !Duplicated(receivers)
    ensures Reachable(k, [receivers[0]]) && Reachable(k, receivers[1..]) && !Duplicated(receivers[1..])
    ensures forall r :: r in receivers <==> r == receivers[0] || r in receivers[1..]
  {
    hide FindNick;
    var rest := receivers[1..];
    assert receivers == [receivers[0]] + rest && forall i | 0 <= i < |rest| :: rest[i] == receivers[i + 1];
  }

  lemma {:induction false} ForwardCounts(k: Control, fd: int, prefix: string, receivers: seq<string>, msg: string,
        e: Effect)
    requires Inv(k) && Reachable(k, receivers) && !Duplicated(receivers)
    ensures multiset(Forward(k, fd, prefix, receivers, msg))[e]
         == if exists r | r in receivers :: Carries(k, fd, prefix, r, msg, e) then 1 else 0
    decreases |receivers|
  {
    if receivers != [] {
      hide Inv, Carries, Reachable, Duplicated, Forward;
      RestIsSuch(k, receivers);
      ForwardSplits(k, fd, prefix, receivers, msg);
      OneReceiver(k, fd, prefix, receivers[0], msg, e);
      ForwardCounts(k, fd, prefix, receivers[1..], msg, e);
      if Carries(k, fd, prefix, receivers[0], msg, e) { NoOtherReceiver(k, fd, prefix, receivers, msg, e); }
    }
  }

  /**
   * Main result: a PRIVMSG that is accepted sends, for each of its receivers, one copy to everyone the receiver stands
   * for, naming that receiver, and sends nothing else.
   */
  lemma PrivmsgReachesOnce(k: Control, fd: int, p: string)
    requires Inv(k) && fd in k.clients && Privmsg(k, fd, p).error.None?
    ensures var (receivers, msg) := Addressed(p);
            forall e :: multiset(Privmsg(k, fd, p).out)[e]
                     == if exists r | r in receivers :: Carries(k, fd, k.clients[fd].prefix, r, msg, e) then 1 else 0
  {
    hide Inv, Carries, Forward, Reachable, Addressed, ReceiverError, Mixed;
    var (receivers, msg) := Addressed(p);
    NoErrorMeansReachable(k, k.clients[fd].nick, receivers);
    forall e ensures multiset(Privmsg(k, fd, p).out)[e]
                  == if exists r | r in receivers :: Carries(k, fd, k.clients[fd].prefix, r, msg, e) then 1 else 0
    {
      ForwardCounts(k, fd, k.clients[fd].prefix, receivers, msg, e);
    }
  }

  // ---- the order ----

  /** Its client's nickname comes before the other's. */
  predicate Before(k: Control, e: Effect, e': Effect) {
    && e.fd in k.clients && e'.fd in k.clients
    && LexLeq(k.clients[e.fd].nick, k.clients[e'.fd].nick) && k.clients[e.fd].nick != k.clients[e'.fd].nick
  }

  predicate InOrder(k: Control, out: seq<Effect>) {
    forall i, j | 0 <= i < j < |out| :: Before(k, out[i], out[j])
  }

  predicate Ascending(names: seq<string>) {
    forall i, j | 0 <= i < j < |names| :: LexLeq(names[i], names[j]) && names[i] != names[j]
  }

  /** Entries under these names are live, under their current nickname. */
  predicate AllHold(k: Control, ch: ChannelData, names: seq<string>) {
    forall n | n in names :: n in ch.participants && Holds(k.clients, n, ch.participants[n])
  }

  lemma MembersHold(k: Control, name: string)
    requires Inv(k) && name in k.channels
    ensures var ch := k.channels[name];
            var names := SortedNames(ch.participants.Keys);
            AllHold(k, ch, names) && Ascending(names) && forall i | 0 <= i < |names| :: names[i] in ch.participants
  {
    SortedNamesAscend(k.channels[name].participants.Keys);
    assert ChannelOk(k.clients, k.channels[name]);
  }

  /** A broadcast goes through the channel in ascending order of nicknames. */
  lemma BroadcastInOrder(k: Control, name: string, msg: string, except: int)
    requires Inv(k) && name in k.channels
    ensures InOrder(k, Broadcast(k.channels[name], msg, except))
  {
    MembersHold(k, name);
    hide Inv, SortedNames, TellMembers, AllHold, Ascending, InOrder;
    TellsInOrder(k, k.channels[name], SortedNames(k.channels[name].participants.Keys), msg, except);
  }

  /** e is the text for one of these names. */
  predicate TellsOne(ch: ChannelData, names: seq<string>, msg: string, e: Effect) {
    exists n | n in names :: n in ch.participants && e == Tell(ch.participants[n].fd, msg)
  }

  lemma {:induction false} TellsInOrder(k: Control, ch: ChannelData, names: seq<string>, msg: string, except: int)
    requires AllHold(k, ch, names) && Ascending(names) && forall i | 0 <= i < |names| :: names[i] in ch.participants
    ensures var out := TellMembers(ch, names, msg, except);
            (forall e | e in out :: TellsOne(ch, names, msg, e)) && InOrder(k, out)
    decreases |names|
  {
    if names != [] {
      var rest, first := names[1..], Tell(ch.participants[names[0]].fd, msg);
      assert names == [names[0]] + rest && forall i | 0 <= i < |rest| :: rest[i] == names[i + 1];
      TellsInOrder(k, ch, rest, msg, except);
      var out, more := TellMembers(ch, names, msg, except), TellMembers(ch, rest, msg, except);
      forall e | e in more ensures TellsOne(ch, names, msg, e) && Before(k, first, e) {
        FirstIsBefore(k, ch, names, msg, e);
      }
      assert out == more || out == [first] + more;
      assert TellsOne(ch, names, msg, first) by { assert names[0] in names; }
      hide TellsOne, TellMembers, AllHold, Ascending;
      if out != more { PrependedInOrder(k, first, more); }
    }
  }

  lemma PrependedInOrder(k: Control, first: Effect, more: seq<Effect>)
    requires InOrder(k, more) && forall e | e in more :: Before(k, first, e)
    ensures InOrder(k, [first] + more)
  {
    hide Before;
    var out := [first] + more;
    forall i, j | 0 <= i < j < |out| ensures Before(k, out[i], out[j]) {
      assert out[j] == more[j - 1] && more[j - 1] in more;
      if i > 0 { assert out[i] == more[i - 1]; }
    }
  }

  lemma FirstIsBefore(k: Control, ch: ChannelData, names: seq<string>, msg: string, e: Effect)
    requires names != [] && AllHold(k, ch, names) && Ascending(names) && TellsOne(ch, names[1..], msg, e)
    ensures names[0] in ch.participants && Before(k, Tell(ch.participants[names[0]].fd, msg), e)
    ensures TellsOne(ch, names, msg, e)
  {
    var n :| n in names[1..] && n in ch.participants && e == Tell(ch.participants[n].fd, msg);
    var i :| 0 <= i < |names[1..]| && names[1..][i] == n;
    assert names[i + 1] == n && names[0] in names;
    hide LexLeq;
  }
}
