/** Every command, with all its checks and parsing, is a legal sequence of acts by the client that sent it. */
module CommandActs {
  import opened Text
  import opened ServerState
  import opened Commands
  import opened Acts
  import Modes

  function JoinActs(k: Control, fd: int, names: seq<string>, keys: seq<string>): seq<Act>
    requires fd in k.clients
    decreases |names|
  {
    if names == [] then []
    else
      var key := if keys == [] then "" else keys[0];
      var r := JoinOne(k, fd, names[0], key);
      if r.error.Some? then []
      else
        [if names[0] in k.channels then Enter(fd, names[0], key) else Create(fd, names[0], key)]
        + JoinActs(r.ctl, fd, names[1..], if keys == [] then [] else keys[1..])
  }

  function PartActs(k: Control, fd: int, names: seq<string>): seq<Act>
    requires fd in k.clients
    decreases |names|
  {
    if names == [] then []
    else
      (if ValidChannelName(names[0]) && IsMember(k, fd, names[0]) then [Exit(fd, names[0])] else [])
      + PartActs(PartOne(k, fd, names[0]).ctl, fd, names[1..])
  }

  /** The act a MODE line asks for. */
  function ModeAct(fd: int, t: seq<string>): (a: Act)
    requires |t| > 1 && t[1] != ""
    ensures a.SetModes? && a.fd == fd && a.name == t[0]
  {
    SetModes(fd, t[0], t[1][0] == '+', t[1][1..], t[2..])
  }

  /** The acts a command performs; most perform at most one. */
  function ActsOf(k: Control, fd: int, verb: Verb, p: string): seq<Act>
    requires fd in k.clients
  {
    var k' := Execute(k, fd, verb, p).ctl;
    match verb
    case PASS => if k' == k then [] else [Edit(fd, k'.clients[fd])]
    case USER => if k' == k || fd !in k'.clients then [] else [Edit(fd, k'.clients[fd])]
    case NICK => if NickError(k.clients, k.clients[fd], p).None? then [Rename(fd, p)] else []
    case JOIN =>
      var names, keys := Select(Fields(p, ""), true), Select(Fields(p, ""), false);
      if k.clients[fd].registered && |keys| <= |names| && AllValidNames(names) then JoinActs(k, fd, names, keys) else []
    case PART => if k.clients[fd].registered then PartActs(k, fd, SplitFrom(p, ',', 0)) else []
    case KICK =>
      var t := SplitFrom(p, ' ', 0);
      if k' == k || |t| < 2 then [] else [Expel(fd, t[0], t[1])]
    case INVITE =>
      var t := SplitFrom(p, ' ', 0);
      if k' == k || |t| < 2 then [] else [Grant(fd, t[1], t[0])]
    case TOPIC =>
      var t := TopicFields(p);
      if k' == k || |t| < 2 then [] else [SetTopic(fd, t[0], t[1])]
    case MODE =>
      var t := Tokens(p);
      if k' == k || |t| < 2 || t[1] == "" then [] else [ModeAct(fd, t)]
    case _ => []
  }

  /** The acts are fd's own, and none connects or disconnects anyone. */
  predicate OwnActs(fd: int, acts: seq<Act>) {
    forall a | a in acts :: a.fd == fd && !a.Connect? && !a.Disconnect?
  }

  ghost predicate Explains(k: Control, fd: int, k': Control, acts: seq<Act>) {
    Legal(k, acts) && PerformAll(k, acts) == k' && OwnActs(fd, acts)
  }

  lemma NoAct(k: Control, fd: int)
    ensures Explains(k, fd, k, [])
  {
  }

  lemma OneAct(k: Control, a: Act)
    requires Allowed(k, a) && !a.Connect? && !a.Disconnect?
    ensures Explains(k, a.fd, Perform(k, a), [a])
  {
  }

  lemma ActsChain(k: Control, fd: int, k1: Control, a: seq<Act>, k2: Control, b: seq<Act>)
    requires Explains(k, fd, k1, a) && Explains(k1, fd, k2, b)
    ensures Explains(k, fd, k2, a + b)
  {
    RunsCompose(k, a, b);
  }

  lemma JoinOneActs(k: Control, fd: int, name: string, key: string)
    requires Inv(k) && fd in k.clients && k.clients[fd].registered
    ensures var r := JoinOne(k, fd, name, key);
            var a := if name in k.channels then Enter(fd, name, key) else Create(fd, name, key);
            if r.error.Some? then r.ctl == k else Allowed(k, a) && r.ctl == Perform(k, a)
  {
    if name !in k.channels { FounderIsAdmitted(k, fd, name, key); }
  }

  lemma JoinOneKeepsInv(k: Control, fd: int, name: string, key: string)
    requires Inv(k) && fd in k.clients && k.clients[fd].registered
    ensures Inv(JoinOne(k, fd, name, key).ctl) && JoinOne(k, fd, name, key).ctl.clients == k.clients
  {
    hide Inv;
    JoinOneActs(k, fd, name, key);
    if JoinOne(k, fd, name, key).error.None? {
      PerformKeepsInv(k, if name in k.channels then Enter(fd, name, key) else Create(fd, name, key));
    }
  }

  lemma {:induction false} JoinIsActs(k: Control, fd: int, names: seq<string>, keys: seq<string>)
    requires Inv(k) && fd in k.clients && k.clients[fd].registered
    ensures Explains(k, fd, JoinAll(k, fd, names, keys).ctl, JoinActs(k, fd, names, keys))
    decreases |names|
  {
    if names == [] {
      NoAct(k, fd);
    } else {
      var key := if keys == [] then "" else keys[0];
      JoinOneActs(k, fd, names[0], key);
      var k1 := JoinOne(k, fd, names[0], key).ctl;
      if JoinOne(k, fd, names[0], key).error.Some? {
        NoAct(k, fd);
      } else {
        var a := if names[0] in k.channels then Enter(fd, names[0], key) else Create(fd, names[0], key);
        OneAct(k, a);
        PerformKeepsInv(k, a);
        var keys' := if keys == [] then [] else keys[1..];
        JoinIsActs(k1, fd, names[1..], keys');
        ActsChain(k, fd, k1, [a], JoinAll(k1, fd, names[1..], keys').ctl, JoinActs(k1, fd, names[1..], keys'));
      }
    }
  }

  lemma {:induction false} PartIsActs(k: Control, fd: int, names: seq<string>)
    requires Inv(k) && fd in k.clients
    ensures Explains(k, fd, PartAll(k, fd, names).ctl, PartActs(k, fd, names))
    decreases |names|
  {
    NoAct(k, fd);
    if names != [] {
      var k1 := PartOne(k, fd, names[0]).ctl;
      var a := Exit(fd, names[0]);
      var one := if ValidChannelName(names[0]) && IsMember(k, fd, names[0]) then [a] else [];
      if one != [] { OneAct(k, a); PerformKeepsInv(k, a); }
      PartIsActs(k1, fd, names[1..]);
      ActsChain(k, fd, k1, one, PartAll(k1, fd, names[1..]).ctl, PartActs(k1, fd, names[1..]));
    }
  }

  lemma UserIsActs(k: Control, fd: int, p: string)
    requires Inv(k) && fd in k.clients
    ensures Explains(k, fd, User(k, fd, p).ctl, ActsOf(k, fd, USER, p))
  {
    NoAct(k, fd);
    UserIsEdit(k, fd, p);
    hide Inv, User, Allowed;
    var k' := User(k, fd, p).ctl;
    if k' != k { OneAct(k, Edit(fd, k'.clients[fd])); }
  }

  lemma UserIsEdit(k: Control, fd: int, p: string)
    requires Inv(k) && fd in k.clients
    ensures var k' := User(k, fd, p).ctl;
            fd in k'.clients && k' == k.(clients := k.clients[fd := k'.clients[fd]])
            && (k' != k ==> Allowed(k, Edit(fd, k'.clients[fd])))
  {
    hide UsernameOk, RealnameOk, Tokens, Spaced, UserPrefix, ValidNick, Welcome, Reply;
    var k' := User(k, fd, p).ctl;
    assert ClientOk(k.clients[fd]);
    assert k.clients[fd := k.clients[fd]] == k.clients;
  }

  lemma PassIsActs(k: Control, fd: int, p: string)
    requires Inv(k) && fd in k.clients
    ensures Explains(k, fd, Pass(k, fd, p).ctl, ActsOf(k, fd, PASS, p))
  {
    NoAct(k, fd);
    var k' := Pass(k, fd, p).ctl;
    if k' != k {
      assert ClientOk(k.clients[fd]);
      OneAct(k, Edit(fd, k'.clients[fd]));
    }
  }

  lemma NickIsActs(k: Control, fd: int, p: string)
    requires Inv(k) && fd in k.clients
    ensures Explains(k, fd, Nick(k, fd, p).ctl, ActsOf(k, fd, NICK, p))
  {
    hide Inv, NickError, TakeNick, TellFds, Notice;
    NoAct(k, fd);
    if NickError(k.clients, k.clients[fd], p).None? { OneAct(k, Rename(fd, p)); }
  }

  lemma KickIsActs(k: Control, fd: int, p: string)
    requires Inv(k) && fd in k.clients
    ensures Explains(k, fd, Kick(k, fd, p).ctl, ActsOf(k, fd, KICK, p))
  {
    hide Inv, SplitFrom, Broadcast, Reply, Notice, Leave;
    NoAct(k, fd);
    var t := SplitFrom(p, ' ', 0);
    if Kick(k, fd, p).ctl != k { OneAct(k, Expel(fd, t[0], t[1])); }
  }

  lemma InviteIsActs(k: Control, fd: int, p: string)
    requires Inv(k) && fd in k.clients
    ensures Explains(k, fd, Invite(k, fd, p).ctl, ActsOf(k, fd, INVITE, p))
  {
    hide Inv, SplitFrom, FindNick, InviterError, InviteTo, Reply, Notice;
    NoAct(k, fd);
    var t := SplitFrom(p, ' ', 0);
    if Invite(k, fd, p).ctl != k { OneAct(k, Grant(fd, t[1], t[0])); }
  }

  lemma TopicIsActs(k: Control, fd: int, p: string)
    requires Inv(k) && fd in k.clients
    ensures Explains(k, fd, Topic(k, fd, p).ctl, ActsOf(k, fd, TOPIC, p))
  {
    hide Inv, TopicFields, Broadcast, Reply, ValidChannelName;
    NoAct(k, fd);
    var t := TopicFields(p);
    if Topic(k, fd, p).ctl != k { OneAct(k, SetTopic(fd, t[0], t[1])); }
  }

  lemma ModeIsActs(k: Control, fd: int, p: string)
    requires Inv(k) && fd in k.clients
    ensures Explains(k, fd, Mode(k, fd, p).ctl, ActsOf(k, fd, MODE, p))
  {
    hide Inv, Tokens, Broadcast, Reply, Notice, Spaced, Modes.PlusBatch, Modes.MinusBatch;
    NoAct(k, fd);
    var t := Tokens(p);
    if Mode(k, fd, p).ctl != k {
      assert t[1] in t;
      OneAct(k, ModeAct(fd, t));
    }
  }

  lemma PrivmsgOnlyTalks(k: Control, fd: int, p: string)
    requires fd in k.clients
    ensures Privmsg(k, fd, p).ctl == k
  {
  }

  /** Main result: a command changes the registry only through allowed acts of its sender. */
  lemma CommandIsActs(k: Control, fd: int, verb: Verb, p: string)
    requires Inv(k) && fd in k.clients
    ensures Explains(k, fd, Execute(k, fd, verb, p).ctl, ActsOf(k, fd, verb, p))
  {
    NoAct(k, fd);
    match verb {
      case PASS => PassIsActs(k, fd, p);
      case USER => UserIsActs(k, fd, p);
      case NICK => NickIsActs(k, fd, p);
      case JOIN =>
        if k.clients[fd].registered {
          JoinIsActs(k, fd, Select(Fields(p, ""), true), Select(Fields(p, ""), false));
        }
      case PART => PartIsActs(k, fd, SplitFrom(p, ',', 0));
      case KICK => KickIsActs(k, fd, p);
      case INVITE => InviteIsActs(k, fd, p);
      case TOPIC => TopicIsActs(k, fd, p);
      case MODE => ModeIsActs(k, fd, p);
      case PRIVMSG => PrivmsgOnlyTalks(k, fd, p);
      case CAP =>
      case PING =>
      case QUIT =>
      case UNKNOWN =>
    }
  }
}
