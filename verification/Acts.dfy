/**
 * The registry's atomic steps. Every command, arrival and teardown is a sequence of these (CommandActs), so what every
 * act keeps, every run of the server keeps.
 */
module Acts {
  import opened Wrappers
  import opened ServerState
  import opened Commands
  import Modes

  /** Who does it (the client on fd) and what. */
  datatype Act =
    | Connect(fd: int, host: string)
    | Disconnect(fd: int)
    | Edit(fd: int, data: ClientData)
    | Rename(fd: int, nick: string)
    | Create(fd: int, name: string, key: string)
    | Enter(fd: int, name: string, key: string)
    | Exit(fd: int, name: string)
    | Expel(fd: int, name: string, nick: string)
    | Grant(fd: int, name: string, nick: string)
    | SetTopic(fd: int, name: string, topic: string)
    | SetModes(fd: int, name: string, plus: bool, letters: string, args: seq<string>)

  function Batch(k: Control, a: Act): Result<ChannelData, string>
    requires a.SetModes? && a.name in k.channels
  {
    var ch := k.channels[a.name];
    if a.plus then Modes.PlusBatch(ch, k.index, a.letters, a.args) else Modes.MinusBatch(ch, a.letters, a.args)
  }

  predicate IsMember(k: Control, fd: int, name: string) {
    fd in k.clients && name in k.channels && k.clients[fd].nick in k.channels[name].participants
  }

  /** The client's nickname is in the channel's operator map. */
  predicate Operates(k: Control, fd: int, name: string) {
    IsMember(k, fd, name) && k.clients[fd].nick in k.channels[name].operators
  }

  /** Registration only goes forward, and nothing but the flags and the data USER carries changes. */
  predicate Advances(c: ClientData, d: ClientData) {
    && d.id == c.id && d.nick == c.nick && d.host == c.host && d.nickDone == c.nickDone
    && (c.pass ==> d.pass) && (c.userDone ==> d.userDone) && (c.registered ==> d.registered)
  }

  /** The checks the code makes before the step. */
  predicate Allowed(k: Control, a: Act) {
    match a
    case Connect(fd, _) => fd >= 0 && fd != k.serverFd && fd !in k.clients
    case Disconnect(fd) => fd in k.clients
    case Edit(fd, data) =>
      fd in k.clients && !k.clients[fd].registered && Advances(k.clients[fd], data) && ClientOk(data)
    case Rename(fd, nick) => fd in k.clients && k.clients[fd].pass && NickIsFree(k, nick)
    case Create(fd, name, _) => fd in k.clients && k.clients[fd].registered && name !in k.channels
    case Enter(fd, name, key) =>
      fd in k.clients && k.clients[fd].registered && name in k.channels
      && JoinError(k.channels[name], k.clients[fd].nick, key).None?
    case Exit(fd, name) => IsMember(k, fd, name)
    case Expel(fd, name, nick) => Operates(k, fd, name) && nick in k.channels[name].participants
    case Grant(fd, name, _) => IsMember(k, fd, name) && ('i' in k.channels[name].modes ==> Operates(k, fd, name))
    case SetTopic(fd, name, _) => IsMember(k, fd, name) && ('t' in k.channels[name].modes ==> Operates(k, fd, name))
    case SetModes(fd, name, _, _, _) => Operates(k, fd, name) && Batch(k, a).Ok?
  }

  /** removeClientFromServer on one channel. */
  function Purged(ch: ChannelData, nick: string): ChannelData {
    ch.(participants := ch.participants - {nick}, operators := ch.operators - {nick})
  }

  function Disconnected(k: Control, fd: int): Control
    requires fd in k.clients
  {
    var nick := k.clients[fd].nick;
    k.(clients := k.clients - {fd}, index := k.index - {nick},
       channels := map n | n in k.channels :: Purged(k.channels[n], nick))
  }

  function NewClient(id: nat, host: string): ClientData {
    ClientData(id, "", "", host, "", false, false, false, false, "")
  }

  function Connected(k: Control, fd: int, host: string): Control {
    k.(clients := k.clients[fd := NewClient(k.nextId, host)], nextId := k.nextId + 1)
  }

  function Entered(k: Control, fd: int, name: string): Control
    requires fd in k.clients && name in k.channels
  {
    k.(channels := k.channels[name := Joined(k.channels[name], k.clients[fd].nick, PtrOf(k, fd))])
  }

  function Perform(k: Control, a: Act): Control
    requires Allowed(k, a)
  {
    match a
    case Connect(fd, host) => Connected(k, fd, host)
    case Disconnect(fd) => Disconnected(k, fd)
    case Edit(fd, data) => k.(clients := k.clients[fd := data])
    case Rename(fd, nick) => TakeNick(k, fd, nick)
    case Create(fd, name, key) => Entered(Found(k, fd, name, key), fd, name)
    case Enter(fd, name, _) => Entered(k, fd, name)
    case Exit(fd, name) => Leave(k, name, k.clients[fd].nick)
    case Expel(_, name, nick) => Leave(k, name, nick)
    case Grant(_, name, nick) => InviteTo(k, name, nick)
    case SetTopic(_, name, topic) => k.(channels := k.channels[name := k.channels[name].(topic := topic)])
    case SetModes(_, name, _, _, _) => k.(channels := k.channels[name := Batch(k, a).value])
  }

  /** A client changes in ways channel entries do not see: every channel stays valid. */
  lemma ChannelsSurvive(k: Control, fd: int, c: ClientData)
    requires Inv(k) && fd in k.clients && Advances(k.clients[fd], c) && ClientOk(c)
    ensures Inv(k.(clients := k.clients[fd := c]))
  {
    var k' := k.(clients := k.clients[fd := c]);
    forall n | n in k'.channels ensures ChannelOk(k'.clients, k'.channels[n]) {
      var ch := k.channels[n];
      assert ChannelOk(k.clients, ch);
      forall m | m in ch.participants ensures Holds(k'.clients, m, ch.participants[m]) {
        assert Holds(k.clients, m, ch.participants[m]);
      }
    }
  }

  /** One channel changes, the rest of the registry does not. */
  lemma ChannelReplaced(k: Control, name: string, ch: ChannelData)
    requires Inv(k) && name in k.channels && ch.id == k.channels[name].id && ChannelOk(k.clients, ch)
    ensures Inv(k.(channels := k.channels[name := ch]))
  {
  }

  lemma ChannelRemoved(k: Control, name: string)
    requires Inv(k)
    ensures Inv(k.(channels := k.channels - {name}))
  {
  }

  /** What NICK by a registered client does to one channel. */
  lemma RenamedIsOk(clients: map<int, ClientData>, fd: int, c': ClientData, ch: ChannelData)
    requires fd in clients && NicksUnique(clients) && clients[fd].nick != ""
    requires c'.id == clients[fd].id && c'.registered
    requires forall f | f in clients :: clients[f].nick != c'.nick
    requires MembersOk(clients, ch)
    ensures MembersOk(clients[fd := c'], Renamed(ch, clients[fd].nick, c'.nick, Ptr(fd, c'.id)))
  {
    var was, nick, p := clients[fd].nick, c'.nick, Ptr(fd, c'.id);
    var clients' := clients[fd := c'];
    forall n | n in ch.participants
      ensures n != nick && (ch.participants[n].fd == fd <==> n == was)
      ensures n != was ==> Holds(clients', n, ch.participants[n])
    {
      assert Holds(clients, n, ch.participants[n]);
    }
    if was in ch.participants {
      var ch' := Renamed(ch, was, nick, p);
      assert ch'.participants == (ch.participants - {was})[nick := p];
      assert Holds(clients', nick, p);
    }
  }

  predicate NickIsFree(k: Control, p: string) {
    ValidNick(p) && forall f | f in k.clients :: k.clients[f].nick != p
  }

  lemma TakeNickKeepsIndex(k: Control, fd: int, p: string)
    requires Inv(k) && fd in k.clients && NickIsFree(k, p)
    ensures IndexOk(TakeNick(k, fd, p))
  {
  }

  lemma TakeNickKeepsChannels(k: Control, fd: int, p: string)
    requires Inv(k) && fd in k.clients && NickIsFree(k, p)
    ensures var k' := TakeNick(k, fd, p);
            k'.channels.Keys == k.channels.Keys
            && forall n | n in k'.channels ::
                ChannelOk(k'.clients, k'.channels[n]) && k'.channels[n].id == k.channels[n].id
  {
    var k' := TakeNick(k, fd, p);
    var c := k.clients[fd];
    assert ClientOk(c);
    forall n | n in k'.channels
      ensures ChannelOk(k'.clients, k'.channels[n]) && k'.channels[n].id == k.channels[n].id
    {
      assert ChannelOk(k.clients, k.channels[n]);
      if c.registered {
        RenamedIsOk(k.clients, fd, k'.clients[fd], k.channels[n]);
      } else {
        UnregisteredIsNowhere(k, fd, k.channels[n], k'.clients);
      }
    }
  }

  lemma TakeNickKeepsInv(k: Control, fd: int, p: string)
    requires Inv(k) && fd in k.clients && k.clients[fd].pass && NickIsFree(k, p)
    ensures Inv(TakeNick(k, fd, p))
  {
    var k' := TakeNick(k, fd, p);
    TakeNickKeepsIndex(k, fd, p);
    TakeNickKeepsChannels(k, fd, p);
    assert ClientOk(k.clients[fd]) && ClientOk(k'.clients[fd]);
  }

  lemma UnregisteredIsNowhere(k: Control, fd: int, ch: ChannelData, clients: map<int, ClientData>)
    requires fd in k.clients && !k.clients[fd].registered && ChannelOk(k.clients, ch)
    requires fd in clients && clients == k.clients[fd := clients[fd]]
    ensures ChannelOk(clients, ch)
  {
  }

  /** A channel that was just created lets its founder in: all three checks pass, so it never stays empty. */
  lemma FounderIsAdmitted(k: Control, fd: int, name: string, key: string)
    requires Inv(k) && fd in k.clients && k.clients[fd].registered && name !in k.channels
    ensures JoinOne(k, fd, name, key).error.None?
    ensures var ch := JoinOne(k, fd, name, key).ctl.channels[name];
            ch.participants == ch.operators == map[k.clients[fd].nick := PtrOf(k, fd)]
  {
    assert ClientOk(k.clients[fd]);
  }

  /** Creating a channel for a registered client and joining it. */
  lemma FoundedIsOk(k: Control, fd: int, name: string, key: string, ch: ChannelData)
    requires Inv(k) && fd in k.clients && name !in k.channels
    requires ch.id == k.nextId && ChannelOk(k.clients, ch)
    ensures Inv(k.(channels := k.channels[name := ch], nextId := k.nextId + 1))
  {
  }

  lemma JoinedIsOk(clients: map<int, ClientData>, ch: ChannelData, nick: string, p: Ptr)
    requires ChannelOk(clients, ch) && Holds(clients, nick, p)
    ensures ChannelOk(clients, Joined(ch, nick, p))
  {
  }

  lemma LeaveKeepsInv(k: Control, name: string, nick: string)
    requires Inv(k) && name in k.channels
    ensures Inv(Leave(k, name, nick))
  {
    var ch := k.channels[name];
    assert ChannelOk(k.clients, ch);
    var ch' := ch.(participants := ch.participants - {nick}, operators := ch.operators - {nick});
    assert ChannelOk(k.clients, ch');
    ChannelReplaced(k, name, ch');
    ChannelRemoved(k, name);
  }

  /** What MODE leaves alone: identity, topic, participants, invitations. */
  predicate OnlySettings(ch: ChannelData, ch': ChannelData) {
    ch' == ch.(modes := ch'.modes, key := ch'.key, limit := ch'.limit, operators := ch'.operators)
  }

  lemma {:induction false} PlusExecKeepsOk(k: Control, name: string, ch: ChannelData, need: string, args: seq<string>)
    requires Inv(k) && name in k.channels && ch.participants == k.channels[name].participants
    requires ChannelOk(k.clients, ch) && |need| == |args|
    requires forall i | 0 <= i < |need| :: Modes.PlusTakesParam(need[i])
    requires forall i | 0 <= i < |need| && need[i] == 'o' :: args[i] in ch.participants
    requires forall i | 0 <= i < |need| && need[i] == 'k' :: args[i] != ""
    ensures var ch' := Modes.PlusExec(ch, k.index, need, args);
            ChannelOk(k.clients, ch') && OnlySettings(ch, ch')
    decreases |need|
  {
    if need != "" {
      var ch1 := Modes.PlusApply(ch, k.index, need[0], args[0]);
      if need[0] == 'o' { IndexFindsParticipants(k, name, args[0]); }
      assert ChannelOk(k.clients, ch1);
      assert forall i | 0 <= i < |need[1..]| :: need[1..][i] == need[i + 1] && args[1..][i] == args[i + 1];
      PlusExecKeepsOk(k, name, ch1, need[1..], args[1..]);
    }
  }

  lemma {:induction false} PlusErrorsChecked(ch: ChannelData, need: string, args: seq<string>)
    requires |need| == |args| && Modes.FirstError(ch, true, need, args).None?
    ensures forall i | 0 <= i < |need| :: Modes.PlusCheck(ch, need[i], args[i]).None?
    decreases |need|
  {
    if need != "" {
      PlusErrorsChecked(ch, need[1..], args[1..]);
      forall i | 0 <= i < |need| ensures Modes.PlusCheck(ch, need[i], args[i]).None? {
        if i > 0 { assert need[i] == need[1..][i - 1] && args[i] == args[1..][i - 1]; }
      }
    }
  }

  lemma {:induction false} MinusExecKeepsOk(clients: map<int, ClientData>, ch: ChannelData, need: string,
        args: seq<string>)
    requires ChannelOk(clients, ch) && |need| == |args|
    ensures var ch' := Modes.MinusExec(ch, need, args);
            ChannelOk(clients, ch') && OnlySettings(ch, ch')
    decreases |need|
  {
    if need != "" {
      var ch1 := Modes.MinusApply(ch, need[0], args[0]);
      assert ChannelOk(clients, ch1);
      MinusExecKeepsOk(clients, ch1, need[1..], args[1..]);
    }
  }

  lemma ModeBatchKeepsOk(k: Control, name: string, plus: bool, letters: string, args: seq<string>)
    requires Inv(k) && name in k.channels
    ensures var ch := k.channels[name];
            var r := if plus then Modes.PlusBatch(ch, k.index, letters, args) else Modes.MinusBatch(ch, letters, args);
            r.Ok? ==> ChannelOk(k.clients, r.value) && OnlySettings(ch, r.value)
  {
    var ch := k.channels[name];
    assert ChannelOk(k.clients, ch);
    if plus {
      var need := Modes.Needing(letters, Modes.PlusTakesParam);
      if Modes.PlusBatch(ch, k.index, letters, args).Ok? {
        PlusErrorsChecked(ch, need, args);
        assert forall i | 0 <= i < |need| :: need[i] in need;
        assert ChannelOk(k.clients, Modes.PlusFlags(ch, letters));
        PlusExecKeepsOk(k, name, Modes.PlusFlags(ch, letters), need, args);
      }
    } else if Modes.MinusBatch(ch, letters, args).Ok? {
      assert ChannelOk(k.clients, Modes.MinusFlags(ch, letters));
      MinusExecKeepsOk(k.clients, Modes.MinusFlags(ch, letters), Modes.Needing(letters, Modes.MinusTakesParam), args);
    }
  }

  // ---- arrival and teardown ----

  lemma ConnectKeepsInv(k: Control, fd: int, host: string)
    requires Inv(k) && Allowed(k, Connect(fd, host))
    ensures Inv(Connected(k, fd, host))
  {
    var k' := Connected(k, fd, host);
    forall n | n in k'.channels ensures ChannelOk(k'.clients, k'.channels[n]) {
      assert ChannelOk(k.clients, k.channels[n]);
      forall m | m in k.channels[n].participants ensures Holds(k'.clients, m, k.channels[n].participants[m]) {
        assert Holds(k.clients, m, k.channels[n].participants[m]);
      }
    }
    assert forall f | f in k.clients :: k'.clients[f] == k.clients[f];
    assert ClientOk(k'.clients[fd]);
  }

  /** Teardown purges the client from every channel: what stays names clients that stay. */
  lemma PurgedIsOk(clients: map<int, ClientData>, fd: int, ch: ChannelData)
    requires fd in clients && NicksUnique(clients) && ChannelOk(clients, ch)
    ensures ChannelOk(clients - {fd}, Purged(ch, clients[fd].nick))
  {
  }

  lemma DisconnectKeepsInv(k: Control, fd: int)
    requires Inv(k) && fd in k.clients
    ensures Inv(Disconnected(k, fd))
  {
    var k' := Disconnected(k, fd);
    forall n | n in k'.channels
      ensures ChannelOk(k'.clients, k'.channels[n]) && k'.channels[n].id == k.channels[n].id
    {
      assert ChannelOk(k.clients, k.channels[n]);
      PurgedIsOk(k.clients, fd, k.channels[n]);
    }
    assert forall f | f in k'.clients :: k'.clients[f] == k.clients[f] && ClientOk(k.clients[f]);
  }

  lemma CreateKeepsInv(k: Control, fd: int, name: string, key: string)
    requires Inv(k) && Allowed(k, Create(fd, name, key))
    ensures Inv(Perform(k, Create(fd, name, key)))
  {
    var c, p := k.clients[fd], PtrOf(k, fd);
    assert ClientOk(c) && Holds(k.clients, c.nick, p);
    var ch := Joined(Found(k, fd, name, key).channels[name], c.nick, p);
    assert ChannelOk(k.clients, ch);
    FoundedIsOk(k, fd, name, key, ch);
    assert Found(k, fd, name, key).channels[name := ch] == k.channels[name := ch];
  }

  lemma EnterKeepsInv(k: Control, fd: int, name: string, key: string)
    requires Inv(k) && Allowed(k, Enter(fd, name, key))
    ensures Inv(Entered(k, fd, name))
  {
    var c, p := k.clients[fd], PtrOf(k, fd);
    assert Holds(k.clients, c.nick, p) && ChannelOk(k.clients, k.channels[name]);
    JoinedIsOk(k.clients, k.channels[name], c.nick, p);
    ChannelReplaced(k, name, Joined(k.channels[name], c.nick, p));
  }

  lemma SetModesKeepsInv(k: Control, a: Act)
    requires Inv(k) && a.SetModes? && Allowed(k, a)
    ensures Inv(Perform(k, a))
  {
    ModeBatchKeepsOk(k, a.name, a.plus, a.letters, a.args);
    ChannelReplaced(k, a.name, Batch(k, a).value);
  }

  /** Main result: no step of the server breaks the registry. */
  lemma PerformKeepsInv(k: Control, a: Act)
    requires Inv(k) && Allowed(k, a)
    ensures Inv(Perform(k, a))
  {
    match a {
      case Connect(fd, host) => ConnectKeepsInv(k, fd, host);
      case Disconnect(fd) => DisconnectKeepsInv(k, fd);
      case Edit(fd, data) => ChannelsSurvive(k, fd, data);
      case Rename(fd, nick) => TakeNickKeepsInv(k, fd, nick);
      case Create(fd, name, key) => CreateKeepsInv(k, fd, name, key);
      case Enter(fd, name, key) => EnterKeepsInv(k, fd, name, key);
      case Exit(fd, name) => LeaveKeepsInv(k, name, k.clients[fd].nick);
      case Expel(_, name, nick) => LeaveKeepsInv(k, name, nick);
      case Grant(_, name, nick) =>
        assert ChannelOk(k.clients, k.channels[name]);
        ChannelReplaced(k, name, k.channels[name].(invited := k.channels[name].invited + {nick}));
      case SetTopic(_, name, topic) =>
        assert ChannelOk(k.clients, k.channels[name]);
        ChannelReplaced(k, name, k.channels[name].(topic := topic));
      case SetModes(_, _, _, _, _) => SetModesKeepsInv(k, a);
    }
  }

  // ---- runs of acts ----

  /** Each act is allowed where it happens. */
  ghost predicate Legal(k: Control, acts: seq<Act>)
    decreases |acts|, 0
  {
    acts == [] || (Legal(k, acts[..|acts| - 1]) && Allowed(PerformAll(k, acts[..|acts| - 1]), acts[|acts| - 1]))
  }

  /** The registry after the acts. */
  ghost function PerformAll(k: Control, acts: seq<Act>): Control
    requires Legal(k, acts)
    decreases |acts|, 1
  {
    if acts == [] then k else Perform(PerformAll(k, acts[..|acts| - 1]), acts[|acts| - 1])
  }

  lemma SingleAct(k: Control, a: Act)
    requires Allowed(k, a)
    ensures Legal(k, [a]) && PerformAll(k, [a]) == Perform(k, a)
  {
  }

  lemma {:induction false} LegalRunKeepsInv(k: Control, acts: seq<Act>)
    requires Inv(k) && Legal(k, acts)
    ensures Inv(PerformAll(k, acts))
    decreases |acts|
  {
    if acts != [] {
      LegalRunKeepsInv(k, acts[..|acts| - 1]);
      PerformKeepsInv(PerformAll(k, acts[..|acts| - 1]), acts[|acts| - 1]);
    }
  }

  lemma {:induction false} RunsCompose(k: Control, a: seq<Act>, b: seq<Act>)
    requires Legal(k, a) && Legal(PerformAll(k, a), b)
    ensures Legal(k, a + b) && PerformAll(k, a + b) == PerformAll(PerformAll(k, a), b)
    decreases |b|
  {
    if b == [] {
      assert a + b == a;
    } else {
      RunsCompose(k, a, b[..|b| - 1]);
      assert (a + b)[..|a + b| - 1] == a + b[..|b| - 1];
    }
  }

  lemma {:induction false} PrefixIsLegal(k: Control, acts: seq<Act>, i: nat)
    requires Legal(k, acts) && i <= |acts|
    ensures Legal(k, acts[..i])
    ensures i < |acts| ==> Allowed(PerformAll(k, acts[..i]), acts[i])
                           && Legal(k, acts[..i + 1])
                           && PerformAll(k, acts[..i + 1]) == Perform(PerformAll(k, acts[..i]), acts[i])
    decreases |acts|
  {
    if i == |acts| {
      assert acts[..i] == acts;
    } else {
      var front := acts[..|acts| - 1];
      PrefixIsLegal(k, front, if i <= |front| then i else |front|);
      assert front[..i] == acts[..i];
      if i < |front| {
        assert front[..i + 1] == acts[..i + 1];
      } else {
        assert acts[..i + 1] == acts && acts[..i] == front;
      }
    }
  }
}
