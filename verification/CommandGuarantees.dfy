/** What single commands promise, beyond keeping the registry valid. */
module CommandGuarantees {
  import opened Wrappers
  import opened Text
  import opened ServerState
  import opened Commands
  import opened Acts
  import opened CommandActs
  import opened Authority
  import opened Outbound
  import opened PollTable
  import opened Machine
  import JoinErrors
  import Modes
  import Ordering

  // ---- NICK ----

  /** The map m with the entry under was now under nick, and nothing else moved. */
  ghost predicate MovedEntry(m: map<string, Ptr>, m': map<string, Ptr>, was: string, nick: string) {
    && |m'| == |m|
    && (forall n :: n in m' <==> if n == nick then was in m else n in m && n != was)
    && (forall n | n in m' :: m'[n] == m[if n == nick then was else n])
  }

  lemma MovedKeyIsMovedEntry(m: map<string, Ptr>, was: string, nick: string)
    requires nick !in m
    ensures MovedEntry(m, if was in m then (m - {was})[nick := m[was]] else m, was, nick)
  {
  }

  predicate OnlyEntries(ch: ChannelData, ch': ChannelData) {
    ch'.(participants := ch.participants, operators := ch.operators) == ch
  }

  lemma OneChannelMoves(k: Control, fd: int, nick: string, name: string)
    requires Inv(k) && Allowed(k, Rename(fd, nick)) && k.clients[fd].registered && name in k.channels
    ensures var ch' := Renamed(k.channels[name], k.clients[fd].nick, nick, PtrOf(k, fd));
            && MovedEntry(k.channels[name].participants, ch'.participants, k.clients[fd].nick, nick)
            && MovedEntry(k.channels[name].operators, ch'.operators, k.clients[fd].nick, nick)
            && OnlyEntries(k.channels[name], ch')
  {
    hide MovedEntry;
    var was := k.clients[fd].nick;
    var ch := k.channels[name];
    assert ChannelOk(k.clients, ch);
    NewNickIsNew(k, fd, nick, name);
    MovedKeyIsMovedEntry(ch.participants, was, nick);
    MovedKeyIsMovedEntry(ch.operators, was, nick);
    if was in ch.participants { OwnEntries(k, fd, name); }
  }

  /**
   * Every channel's participants and operators moved from one nickname to the other, and nothing else of it changed.
   */
  ghost predicate ChannelsMoved(k: Control, k': Control, was: string, nick: string) {
    && k'.channels.Keys == k.channels.Keys
    && forall name | name in k.channels ::
         var ch, ch' := k.channels[name], k'.channels[name];
         && MovedEntry(ch.participants, ch'.participants, was, nick)
         && MovedEntry(ch.operators, ch'.operators, was, nick)
         && OnlyEntries(ch, ch')
  }

  lemma TakeNickMoves(k: Control, fd: int, nick: string)
    requires Inv(k) && Allowed(k, Rename(fd, nick)) && k.clients[fd].registered
    ensures ChannelsMoved(k, TakeNick(k, fd, nick), k.clients[fd].nick, nick)
  {
    hide Inv, MovedEntry, Renamed, OnlyEntries;
    var k' := TakeNick(k, fd, nick);
    hide Allowed;
    forall name | name in k.channels
      ensures MovedEntry(k.channels[name].participants, k'.channels[name].participants, k.clients[fd].nick, nick)
      ensures MovedEntry(k.channels[name].operators, k'.channels[name].operators, k.clients[fd].nick, nick)
      ensures OnlyEntries(k.channels[name], k'.channels[name])
    {
      OneChannelMoves(k, fd, nick, name);
    }
  }

  /**
   * NICK by a registered client is a pure renaming, in every channel and in the index; everyone else, and everything
   * else of the registry, is untouched.
   */
  lemma NickIsPureRenaming(k: Control, fd: int, nick: string)
    requires Inv(k) && fd in k.clients && k.clients[fd].registered && Nick(k, fd, nick).error.None?
    ensures var k' := Nick(k, fd, nick).ctl;
            var c := k.clients[fd];
            && k'.clients == k.clients[fd := c.(nick := nick, prefix := UserPrefix(nick, c.user, c.host))]
            && ChannelsMoved(k, k', c.nick, nick)
            && k'.index == (k.index - {c.nick})[nick := PtrOf(k, fd)] && c.nick !in k'.index
            && k'.(clients := k.clients, channels := k.channels, index := k.index) == k
  {
    hide Inv, Renamed, ChannelsMoved, Nick, Allowed, NickError, UserPrefix;
    AcceptedNick(k, fd, nick);
    TakeNickMoves(k, fd, nick);
  }

  /** A NICK without error is an allowed rename to a new name. */
  lemma AcceptedNick(k: Control, fd: int, nick: string)
    requires Inv(k) && fd in k.clients && k.clients[fd].registered && Nick(k, fd, nick).error.None?
    ensures Nick(k, fd, nick).ctl == TakeNick(k, fd, nick) && Allowed(k, Rename(fd, nick))
    ensures k.clients[fd].nickDone && k.clients[fd].nick != nick
  {
    assert ClientOk(k.clients[fd]);
    hide Inv, TakeNick, NickError, TellFds, UserPrefix, ValidNick, Notice;
  }

  /** The nickname given up stays in the index exactly when the client was not registered, and then nobody has it. */
  lemma OldNickStaysIndexed(k: Control, fd: int, nick: string)
    requires Inv(k) && Allowed(k, Rename(fd, nick)) && k.clients[fd].nick != ""
    ensures var k', was := TakeNick(k, fd, nick), k.clients[fd].nick;
            (was in k'.index <==> !k.clients[fd].registered) && FindNick(k'.clients, was).None?
  {
    var k', was := TakeNick(k, fd, nick), k.clients[fd].nick;
    assert was in k.index;
    assert k'.clients == k.clients[fd := k'.clients[fd]] && k'.clients[fd].nick == nick != was;
    NobodyElse(k.clients, k'.clients, fd);
  }

  lemma NobodyElse(clients: map<int, ClientData>, clients': map<int, ClientData>, fd: int)
    requires NicksUnique(clients) && fd in clients && clients[fd].nick != ""
    requires fd in clients' && clients' == clients[fd := clients'[fd]] && clients'[fd].nick != clients[fd].nick
    ensures FindNick(clients', clients[fd].nick).None?
  {
  }

  // ---- MODE ----

  /** MODE has no registration check, yet it never serves an unregistered client: the participant test stops it. */
  lemma UnregisteredModeIsRefused(k: Control, fd: int, p: string)
    requires Inv(k) && fd in k.clients && !k.clients[fd].registered
    ensures Mode(k, fd, p).ctl == k && Mode(k, fd, p).out == []
    ensures Tokens(p) != [] ==> Mode(k, fd, p).error.Some?
  {
    var t := Tokens(p);
    if t != [] && t[0] in k.channels {
      var ch := k.channels[t[0]];
      assert ChannelOk(k.clients, ch);
      forall n | n in ch.participants ensures n != k.clients[fd].nick {
        assert Holds(k.clients, n, ch.participants[n]);
        assert ClientOk(k.clients[ch.participants[n].fd]);
      }
    }
  }

  /** The reference reading of a MODE line: its letters one at a time. */
  function ModeLetterwise(k: Control, name: string, t: seq<string>): Option<ChannelData>
    requires name in k.channels && |t| > 1 && t[1] != ""
  {
    if t[1][0] == '+' then Modes.PlusEach(k.channels[name], k.index, t[1][1..], t[2..], false)
    else Modes.MinusEach(k.channels[name], t[1][1..], t[2..], false)
  }

  /**
   * A MODE line either changes nothing, or comes from an operator of the channel and changes that channel exactly as
   * its letters would one at a time.
   */
  lemma ModeIsLetterwise(k: Control, fd: int, p: string)
    requires Inv(k) && fd in k.clients
    ensures var t := Tokens(p);
            var k' := Mode(k, fd, p).ctl;
            k' == k ||
            (&& |t| > 1 && t[1] != "" && Operates(k, fd, t[0]) && Mode(k, fd, p).error.None?
             && ModeLetterwise(k, t[0], t) == Some(k'.channels[t[0]])
             && k' == k.(channels := k.channels[t[0] := k'.channels[t[0]]]))
  {
    var t := Tokens(p);
    if |t| > 1 && t[0] in k.channels {
      assert t[1] in t && forall a | a in t[2..] :: a in t;
      if t[1][0] == '+' {
        Modes.PlusBatchIsLetterwise(k.channels[t[0]], k.index, t[1][1..], t[2..]);
      } else {
        Modes.MinusBatchIsLetterwise(k.channels[t[0]], t[1][1..], t[2..]);
      }
    }
  }

  /**
   * What an error leaves changed: never the index, and no channel, except that a JOIN keeps what it did before the
   * refusal. Its channels are the old ones iff up to there every channel was one the sender was in, without +i.
   */
  lemma ErrorsChangeNoChannel(k: Control, fd: int, verb: Verb, p: string)
    requires fd in k.clients && Execute(k, fd, verb, p).error.Some?
    ensures Execute(k, fd, verb, p).ctl.index == k.index
    ensures Execute(k, fd, verb, p).ctl.channels == k.channels <==> verb != JOIN || JoinErrors.NothingNew(k, fd, p)
  {
    hide JoinErrors.NothingNew, Join;
    match verb {
      case JOIN => JoinErrors.JoinErrorKeepsChannelsIff(k, fd, p);
      case PART => PartNeverThrows(k, fd, SplitFrom(p, ',', 0));
      case USER => UserKeepsChannels(k, fd, p);
      case MODE => ModeErrors(k, fd, p);
      case KICK => KickErrors(k, fd, p);
      case INVITE => InviteErrors(k, fd, p);
      case TOPIC => TopicErrors(k, fd, p);
      case PRIVMSG => PrivmsgOnlyTalks(k, fd, p);
      case NICK =>
      case PASS =>
      case PING =>
      case CAP =>
      case QUIT =>
      case UNKNOWN =>
    }
  }

  lemma KickErrors(k: Control, fd: int, p: string)
    requires fd in k.clients && Kick(k, fd, p).error.Some?
    ensures Kick(k, fd, p).ctl == k
  {
  }

  lemma InviteErrors(k: Control, fd: int, p: string)
    requires fd in k.clients && Invite(k, fd, p).error.Some?
    ensures Invite(k, fd, p).ctl == k
  {
  }

  lemma TopicErrors(k: Control, fd: int, p: string)
    requires fd in k.clients && Topic(k, fd, p).error.Some?
    ensures Topic(k, fd, p).ctl == k
  {
  }

  lemma UserKeepsChannels(k: Control, fd: int, p: string)
    requires fd in k.clients
    ensures User(k, fd, p).ctl.channels == k.channels && User(k, fd, p).ctl.index == k.index
  {
  }

  lemma ModeErrors(k: Control, fd: int, p: string)
    requires fd in k.clients && Mode(k, fd, p).error.Some?
    ensures Mode(k, fd, p).ctl == k
  {
  }

  lemma {:induction false} PartNeverThrows(k: Control, fd: int, names: seq<string>)
    requires fd in k.clients
    ensures PartAll(k, fd, names).error.None?
    decreases |names|
  {
    if names != [] { PartNeverThrows(PartOne(k, fd, names[0]).ctl, fd, names[1..]); }
  }

  // ---- the error policy ----

  /** The kernel will not report a dead peer. */
  predicate NoPeerGone(net: seq<SendResult>) {
    forall i | 0 <= i < |net| :: !net[i].PeerGone?
  }

  lemma {:induction false} CastsMarkNobody(io: Io, out: seq<Effect>)
    requires NoPeerGone(io.net) && forall e | e in out :: e.Tell?
    ensures Deliver(io, out).toRemove == io.toRemove && NoPeerGone(Deliver(io, out).net)
    decreases |out|
  {
    if out != [] {
      assert out[0] in out;
      CastsMarkNobody(Apply(io, out[0]), out[1..]);
    }
  }

  ghost predicate JustTalks(out: seq<Effect>) {
    forall e | e in out :: e.Tell?
  }

  /** Only QUIT drops; every other command just talks. */
  lemma OnlyQuitDrops(k: Control, fd: int, verb: Verb, p: string)
    requires fd in k.clients && verb != QUIT
    ensures JustTalks(Execute(k, fd, verb, p).out)
  {
    hide JoinAll, PartAll, Kick, Invite, Mode, Topic, User, Privmsg, TellFds, NickError, TakeNick, Fields, Select,
         SplitFrom;
    match verb {
      case NICK => TellFdsTells(Ordering.SortedFds(k.clients.Keys), Notice(":" + k.clients[fd].nick, "NICK " + p));
      case JOIN => JoinTells(k, fd, Select(Fields(p, ""), true), Select(Fields(p, ""), false));
      case PART => PartTells(k, fd, SplitFrom(p, ',', 0));
      case KICK => KickTells(k, fd, p);
      case TOPIC => TopicTells(k, fd, p);
      case MODE => ModeTells(k, fd, p);
      case PRIVMSG => PrivmsgTells(k, fd, p);
      case INVITE => InviteTells(k, fd, p);
      case USER => UserTells(k, fd, p);
      case PASS =>
      case PING =>
      case CAP =>
      case UNKNOWN =>
    }
  }

  lemma KickTells(k: Control, fd: int, p: string)
    requires fd in k.clients
    ensures JustTalks(Kick(k, fd, p).out)
  {
    AllBroadcastsTell(k, -1);
  }

  lemma TopicTells(k: Control, fd: int, p: string)
    requires fd in k.clients
    ensures JustTalks(Topic(k, fd, p).out)
  {
    AllBroadcastsTell(k, -1);
  }

  lemma InviteTells(k: Control, fd: int, p: string)
    requires fd in k.clients
    ensures JustTalks(Invite(k, fd, p).out)
  {
    hide InviteTo, InviteError, FindNick, SplitFrom, Notice, Reply;
  }

  lemma UserTells(k: Control, fd: int, p: string)
    requires fd in k.clients
    ensures JustTalks(User(k, fd, p).out)
  {
  }

  lemma {:induction false} TellFdsTells(fds: seq<int>, msg: string)
    ensures forall e | e in TellFds(fds, msg) :: e.Tell?
    decreases |fds|
  {
    if fds != [] { TellFdsTells(fds[1..], msg); }
  }

  lemma {:induction false} MembersTell(ch: ChannelData, names: seq<string>, msg: string, except: int)
    requires forall i | 0 <= i < |names| :: names[i] in ch.participants
    ensures forall e | e in TellMembers(ch, names, msg, except) :: e.Tell?
    decreases |names|
  {
    if names != [] { MembersTell(ch, names[1..], msg, except); }
  }

  lemma BroadcastTells(ch: ChannelData, msg: string, except: int)
    ensures forall e | e in Broadcast(ch, msg, except) :: e.Tell?
  {
    MembersTell(ch, Ordering.SortedNames(ch.participants.Keys), msg, except);
  }

  lemma AllBroadcastsTell(k: Control, except: int)
    ensures forall name, msg, e | name in k.channels && e in Broadcast(k.channels[name], msg, except) :: e.Tell?
  {
    forall name, msg, e | name in k.channels && e in Broadcast(k.channels[name], msg, except) ensures e.Tell? {
      BroadcastTells(k.channels[name], msg, except);
    }
  }

  lemma ModeTells(k: Control, fd: int, p: string)
    requires fd in k.clients
    ensures forall e | e in Mode(k, fd, p).out :: e.Tell?
  {
    if Mode(k, fd, p).out != [] {
      var t := Tokens(p);
      BroadcastTells(Mode(k, fd, p).ctl.channels[t[0]], Notice(k.clients[fd].prefix, "MODE" + Spaced(t)), -1);
    }
  }

  lemma {:induction false} ForwardTells(k: Control, fd: int, prefix: string, receivers: seq<string>, msg: string)
    ensures forall e | e in Forward(k, fd, prefix, receivers, msg) :: e.Tell?
    decreases |receivers|
  {
    if receivers != [] {
      AllBroadcastsTell(k, fd);
      ForwardTells(k, fd, prefix, receivers[1..], msg);
    }
  }

  lemma PrivmsgTells(k: Control, fd: int, p: string)
    requires fd in k.clients
    ensures forall e | e in Privmsg(k, fd, p).out :: e.Tell?
  {
    ForwardTells(k, fd, k.clients[fd].prefix, Addressed(p).0, Addressed(p).1);
  }

  lemma {:induction false} JoinTells(k: Control, fd: int, names: seq<string>, keys: seq<string>)
    requires fd in k.clients
    ensures forall e | e in JoinAll(k, fd, names, keys).out :: e.Tell?
    decreases |names|
  {
    if names != [] {
      var key := if keys == [] then "" else keys[0];
      JoinOneTells(k, fd, names[0], key);
      hide JoinOne;
      var r := JoinOne(k, fd, names[0], key);
      if r.error.None? { JoinTells(r.ctl, fd, names[1..], if keys == [] then [] else keys[1..]); }
    }
  }

  lemma JoinOneTells(k: Control, fd: int, name: string, key: string)
    requires fd in k.clients
    ensures var r := JoinOne(k, fd, name, key); fd in r.ctl.clients && forall e | e in r.out :: e.Tell?
  {
    hide Broadcast, Notice, Reply, NamesLine, JoinError, Joined;
    var r := JoinOne(k, fd, name, key);
    if r.error.None? { BroadcastTells(r.ctl.channels[name], Notice(k.clients[fd].prefix, "JOIN " + name), -1); }
  }

  lemma {:induction false} PartTells(k: Control, fd: int, names: seq<string>)
    requires fd in k.clients
    ensures forall e | e in PartAll(k, fd, names).out :: e.Tell?
    decreases |names|
  {
    if names != [] {
      AllBroadcastsTell(k, -1);
      PartTells(PartOne(k, fd, names[0]).ctl, fd, names[1..]);
    }
  }

  /**
   * A registered client keeps its connection whatever it sends except QUIT: errors included, handling its message marks
   * nobody, as long as no send finds its peer gone.
   */
  lemma RegisteredClientsSurviveErrors(s: State, fd: int, msg: string)
    requires StateInv(s) && fd in s.ctl.clients && s.ctl.clients[fd].registered
    requires Parse(msg).0 != QUIT && NoPeerGone(s.io.net)
    ensures Handle(s, fd, msg).1 && Handle(s, fd, msg).0.io.toRemove == s.io.toRemove
  {
    var (verb, p) := Parse(msg);
    var r := Execute(s.ctl, fd, verb, p);
    OnlyQuitDrops(s.ctl, fd, verb, p);
    CastsMarkNobody(s.io, r.out);
    CommandIsActs(s.ctl, fd, verb, p);
    LegalRunKeepsInv(s.ctl, ActsOf(s.ctl, fd, verb, p));
    OwnActsKeepRegistration(s.ctl, fd, ActsOf(s.ctl, fd, verb, p));
    assert ClientOk(r.ctl.clients[fd]);
    if r.error.Some? {
      CastsMarkNobody(Deliver(s.io, r.out), [Tell(fd, r.error.value)]);
    }
  }

  lemma {:induction false} OwnActsKeepRegistration(k: Control, fd: int, acts: seq<Act>)
    requires Legal(k, acts) && OwnActs(fd, acts) && fd in k.clients && k.clients[fd].registered
    ensures fd in PerformAll(k, acts).clients && PerformAll(k, acts).clients[fd].registered
    decreases |acts|
  {
    if acts != [] {
      var front, a := acts[..|acts| - 1], acts[|acts| - 1];
      assert a in acts && forall b | b in front :: b in acts;
      OwnActsKeepRegistration(k, fd, front);
    }
  }
}
