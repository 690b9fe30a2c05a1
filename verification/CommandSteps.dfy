/** One turn of each loop of the command methods: how the functions of Commands and Modes unroll. */
module CommandSteps {
  import opened Wrappers
  import opened Text
  import opened Ordering
  import opened ServerState
  import opened Commands
  import opened PollTable
  import CommandActs
  import Machine
  import Modes

  ghost function PartlyRenamed(m: map<string, ChannelData>, done: seq<string>, was: string, nick: string, p: Ptr)
    : map<string, ChannelData>
  {
    map n | n in m :: if n in done then Renamed(m[n], was, nick, p) else m[n]
  }

  lemma RenamedMore(m: map<string, ChannelData>, names: seq<string>, i: nat, was: string, nick: string, p: Ptr)
    requires names == SortedNames(m.Keys) && i < |names|
    ensures names[i] in m && PartlyRenamed(m, names[..i], was, nick, p)[names[i]] == m[names[i]]
    ensures PartlyRenamed(m, names[..i], was, nick, p)[names[i] := Renamed(m[names[i]], was, nick, p)]
         == PartlyRenamed(m, names[..i + 1], was, nick, p)
  {
    hide SortedNames, Renamed;
    SortedNamesAscend(m.Keys);
    assert names[i] in m.Keys;
    assert names[..i + 1] == names[..i] + [names[i]];
    assert names[i] !in names[..i];
  }

  lemma RenamedAll(m: map<string, ChannelData>, was: string, nick: string, p: Ptr)
    ensures var names := SortedNames(m.Keys);
            PartlyRenamed(m, names[..0], was, nick, p) == m
            && PartlyRenamed(m, names[..|names|], was, nick, p) == map n | n in m :: Renamed(m[n], was, nick, p)
  {
    hide SortedNames, Renamed;
    var names := SortedNames(m.Keys);
    assert names[..|names|] == names;
    assert forall n | n in m :: n in m.Keys && n in names;
  }

  ghost function WithNick(k: Control, fd: int, nick: string): Control
    requires fd in k.clients
  {
    var c := k.clients[fd];
    k.(clients := k.clients[fd := c.(nick := nick, nickDone := true, prefix := UserPrefix(nick, c.user, c.host))])
  }

  ghost function WithRenamed(k: Control, was: string, nick: string, p: Ptr): Control {
    k.(channels := map n | n in k.channels :: Renamed(k.channels[n], was, nick, p))
  }

  /** The registry while the loop over the channels is at the i-th name. */
  ghost function RenamedUpTo(k: Control, i: nat, was: string, nick: string, p: Ptr): Control {
    var names := SortedNames(k.channels.Keys);
    k.(channels := PartlyRenamed(k.channels, if i <= |names| then names[..i] else names, was, nick, p))
  }

  lemma RenamedFromTo(k: Control, was: string, nick: string, p: Ptr)
    ensures RenamedUpTo(k, 0, was, nick, p) == k
    ensures RenamedUpTo(k, |SortedNames(k.channels.Keys)|, was, nick, p) == WithRenamed(k, was, nick, p)
  {
    hide SortedNames, PartlyRenamed;
    RenamedAll(k.channels, was, nick, p);
  }

  lemma RenamedNext(k: Control, i: nat, was: string, nick: string, p: Ptr)
    requires i < |SortedNames(k.channels.Keys)|
    ensures var k1, name := RenamedUpTo(k, i, was, nick, p), SortedNames(k.channels.Keys)[i];
            && name in k1.channels
            && RenamedUpTo(k, i + 1, was, nick, p)
            == k1.(channels := k1.channels[name := Renamed(k1.channels[name], was, nick, p)])
  {
    hide SortedNames, Renamed;
    RenamedMore(k.channels, SortedNames(k.channels.Keys), i, was, nick, p);
  }

  /** NICK: refused without a change, or the change, told to everyone if the client is registered. */
  lemma NickInSteps(k: Control, fd: int, p: string)
    requires fd in k.clients
    ensures var c, r := k.clients[fd], Nick(k, fd, p);
            match NickError(k.clients, c, p)
            case Some(e) => r == Fail(k, [], e)
            case None =>
              && ' ' !in p && r.error.None? && r.ctl == TakeNick(k, fd, p)
              && r.out == if c.registered
                          then TellFds(SortedFds(k.clients.Keys), Notice(":" + c.nick, "NICK " + p)) else []
  {
    hide NickError, TakeNick, TellFds, Notice;
  }

  /** The order in which cmdNick goes through the maps. */
  lemma TakeNickInSteps(k: Control, fd: int, nick: string)
    requires fd in k.clients && k.clients[fd].registered
    ensures var k1, p, was := WithNick(k, fd, nick), PtrOf(k, fd), k.clients[fd].nick;
            TakeNick(k, fd, nick) == WithRenamed(k1.(index := (k1.index - {was})[nick := p]), was, nick, p)
  {
  }

  lemma NothingSent(io: Io)
    ensures Deliver(io, []) == io
  {
  }

  lemma DeliverThen(io: Io, out: seq<Effect>, e: Effect)
    ensures Deliver(io, out + [e]) == Apply(Deliver(io, out), e)
  {
    DeliverConcat(io, out, [e]);
    assert [e][1..] == [];
  }

  lemma WelcomeDelivered(io: Io, fd: int, nick: string)
    ensures Deliver(io, Welcome(fd, nick)) ==
            PollTable.CastMsg(PollTable.CastMsg(PollTable.CastMsg(
              PollTable.CastMsg(PollTable.CastMsg(PollTable.CastMsg(io,
              fd, Reply("001", nick)), fd, Reply("002", nick)), fd, Reply("003", nick)), fd, Reply("004", nick)),
              fd, Reply("375", nick)), fd, Reply("376", nick))
  {
    hide PollTable.CastMsg, Reply;
    var a, b, c, d, e, f := Tell(fd, Reply("001", nick)), Tell(fd, Reply("002", nick)), Tell(fd, Reply("003", nick)),
                            Tell(fd, Reply("004", nick)), Tell(fd, Reply("375", nick)), Tell(fd, Reply("376", nick));
    DeliverThen(io, [], a);
    DeliverThen(io, [a], b);
    DeliverThen(io, [a, b], c);
    DeliverThen(io, [a, b, c], d);
    DeliverThen(io, [a, b, c, d], e);
    DeliverThen(io, [a, b, c, d, e], f);
    assert Welcome(fd, nick) == [a, b, c, d, e, f];
    assert [] + [a] == [a] && [a] + [b] == [a, b] && [a, b] + [c] == [a, b, c];
    assert [a, b, c] + [d] == [a, b, c, d] && [a, b, c, d] + [e] == [a, b, c, d, e];
    assert [a, b, c, d, e] + [f] == [a, b, c, d, e, f];
  }

  lemma TellThree(io: Io, out: seq<Effect>, a: Effect, b: Effect, c: Effect)
    ensures Deliver(io, out + [a, b, c]) == Apply(Apply(Apply(Deliver(io, out), a), b), c)
  {
    DeliverThen(io, out, a);
    DeliverThen(io, out + [a], b);
    DeliverThen(io, out + [a] + [b], c);
    assert out + [a] + [b] + [c] == out + [a, b, c];
  }

  /** Who gets a message depends on the participants only. */
  lemma {:induction false} SameMembers(ch: ChannelData, ch': ChannelData, names: seq<string>, msg: string, except: int)
    requires ch.participants == ch'.participants && forall i | 0 <= i < |names| :: names[i] in ch.participants
    ensures TellMembers(ch, names, msg, except) == TellMembers(ch', names, msg, except)
    decreases |names|
  {
    if names != [] { SameMembers(ch, ch', names[1..], msg, except); }
  }

  lemma {:induction false} SameNames(k: Control, k': Control, ch: ChannelData, ch': ChannelData, order: seq<string>)
    requires k.clients == k'.clients && ch.participants == ch'.participants && ch.operators == ch'.operators
    requires forall i | 0 <= i < |order| :: order[i] in ch.participants
    ensures NamesOf(k, ch, order) == NamesOf(k', ch', order)
    decreases |order|
  {
    if order != [] { SameNames(k, k', ch, ch', order[1..]); }
  }

  lemma SameNotices(k: Control, k': Control, fd: int, name: string, ch: ChannelData, ch': ChannelData)
    requires fd in k.clients && k.clients == k'.clients
    requires ch.participants == ch'.participants && ch.operators == ch'.operators && ch.topic == ch'.topic
    ensures JoinNotices(k, fd, name, ch) == JoinNotices(k', fd, name, ch')
  {
    hide SortedNames, TellMembers, NamesOf;
    var order := SortedNames(ch.participants.Keys);
    SameMembers(ch, ch', order, Notice(k.clients[fd].prefix, "JOIN " + name), -1);
    SameNames(k, k', ch, ch', order);
  }

  lemma JoinOneInSteps(k: Control, fd: int, name: string, key: string)
    requires fd in k.clients
    ensures var k1 := if name in k.channels then k else Found(k, fd, name, key);
            && name in k1.channels && k1.clients == k.clients
            && match JoinError(k1.channels[name], k.clients[fd].nick, key)
               case Some(e) => JoinOne(k, fd, name, key) == Fail(k1, [], e)
               case None =>
                 var d := Joined(k1.channels[name], k.clients[fd].nick, PtrOf(k, fd));
                 JoinOne(k, fd, name, key)
                 == Done(k1.(channels := k1.channels[name := d]), JoinNotices(k1, fd, name, d))
  {
  }

  /** One channel of a JOIN with several. */
  lemma JoinStep(k: Control, fd: int, names: seq<string>, keys: seq<string>, i: nat, io: Io)
    requires fd in k.clients && i < |names| && Inv(k) && k.clients[fd].registered
    ensures var key := if i < |keys| then keys[i] else "";
            var r, all := JoinOne(k, fd, names[i], key), JoinAll(k, fd, names[i..], KeysFrom(keys, i));
            && Inv(r.ctl) && r.ctl.clients == k.clients
            && if r.error.Some? then all == r
               else
                 var rest := JoinAll(r.ctl, fd, names[i + 1..], KeysFrom(keys, i + 1));
                 all.ctl == rest.ctl && all.error == rest.error
                 && Deliver(io, all.out) == Deliver(Deliver(io, r.out), rest.out)
  {
    hide JoinOne, Deliver, Inv;
    var key := if i < |keys| then keys[i] else "";
    CommandActs.JoinOneKeepsInv(k, fd, names[i], key);
    var r := JoinOne(k, fd, names[i], key);
    assert names[i..][0] == names[i] && names[i..][1..] == names[i + 1..];
    var some := KeysFrom(keys, i);
    assert key == if some == [] then "" else some[0];
    assert KeysFrom(keys, i + 1) == if some == [] then [] else some[1..];
    if r.error.None? {
      DeliverConcat(io, r.out, JoinAll(r.ctl, fd, names[i + 1..], KeysFrom(keys, i + 1)).out);
    }
  }

  function KeysFrom(keys: seq<string>, i: nat): seq<string> {
    if i < |keys| then keys[i..] else []
  }

  lemma JoinNone(k: Control, fd: int, names: seq<string>, keys: seq<string>)
    requires fd in k.clients
    ensures JoinAll(k, fd, names[|names|..], KeysFrom(keys, |names|)) == Done(k, [])
    ensures names[0..] == names && KeysFrom(keys, 0) == keys
  {
  }

  lemma TellOne(io: Io, e: Effect)
    ensures Deliver(io, [e]) == Apply(io, e)
  {
  }

  lemma TellTwo(io: Io, a: Effect, b: Effect)
    ensures Deliver(io, [a, b]) == Apply(Apply(io, a), b)
  {
    DeliverThen(io, [a], b);
    TellOne(io, a);
    assert [a] + [b] == [a, b];
  }

  /** One channel of a PART with several. */
  lemma PartStep(k: Control, fd: int, names: seq<string>, i: nat, io: Io)
    requires fd in k.clients && i < |names|
    ensures var r, all := PartOne(k, fd, names[i]), PartAll(k, fd, names[i..]);
            && r.ctl.clients == k.clients
            && var rest := PartAll(r.ctl, fd, names[i + 1..]);
               all.ctl == rest.ctl && all.error == rest.error
               && Deliver(io, all.out) == Deliver(Deliver(io, r.out), rest.out)
  {
    hide Deliver, Broadcast;
    assert names[i..][0] == names[i] && names[i..][1..] == names[i + 1..];
    var r := PartOne(k, fd, names[i]);
    DeliverConcat(io, r.out, PartAll(r.ctl, fd, names[i + 1..]).out);
  }

  lemma PartNone(k: Control, fd: int, names: seq<string>)
    requires fd in k.clients
    ensures PartAll(k, fd, names[|names|..]) == Done(k, []) && names[0..] == names
  {
  }

  lemma NeedingStep(s: string, i: nat, takes: char -> bool)
    requires i < |s|
    ensures Modes.Needing(s[i..], takes) == (if takes(s[i]) then [s[i]] else "") + Modes.Needing(s[i + 1..], takes)
  {
  }

  lemma NeedingEnds(s: string, takes: char -> bool)
    ensures Modes.Needing(s[|s|..], takes) == "" && s[0..] == s && s[..|s|] == s
  {
  }

  lemma FirstErrorStep(ch: ChannelData, plus: bool, need: string, args: seq<string>, i: nat)
    requires |need| == |args| && i < |need|
    ensures Modes.FirstError(ch, plus, need[i..], args[i..]) ==
            var e := if plus then Modes.PlusCheck(ch, need[i], args[i]) else Modes.MinusCheck(ch, need[i], args[i]);
            if e.Some? then e else Modes.FirstError(ch, plus, need[i + 1..], args[i + 1..])
  {
  }

  lemma FirstErrorEnds(ch: ChannelData, plus: bool, need: string, args: seq<string>)
    requires |need| == |args|
    ensures Modes.FirstError(ch, plus, need[|need|..], args[|args|..]) == None && need[0..] == need && args[0..] == args
  {
  }

  lemma PlusExecStep(ch: ChannelData, index: map<string, Ptr>, need: string, args: seq<string>, i: nat)
    requires |need| == |args| && i < |need|
    ensures Modes.PlusExec(ch, index, need[i..], args[i..]) ==
            Modes.PlusExec(Modes.PlusApply(ch, index, need[i], args[i]), index, need[i + 1..], args[i + 1..])
  {
  }

  lemma PlusExecEnds(ch: ChannelData, index: map<string, Ptr>, need: string, args: seq<string>)
    requires |need| == |args|
    ensures Modes.PlusExec(ch, index, need[|need|..], args[|args|..]) == ch && need[0..] == need && args[0..] == args
  {
  }

  lemma MinusExecStep(ch: ChannelData, need: string, args: seq<string>, i: nat)
    requires |need| == |args| && i < |need|
    ensures Modes.MinusExec(ch, need[i..], args[i..]) ==
            Modes.MinusExec(Modes.MinusApply(ch, need[i], args[i]), need[i + 1..], args[i + 1..])
  {
  }

  lemma MinusExecEnds(ch: ChannelData, need: string, args: seq<string>)
    requires |need| == |args|
    ensures Modes.MinusExec(ch, need[|need|..], args[|args|..]) == ch && need[0..] == need && args[0..] == args
  {
  }

  lemma FieldsStep(s: string, i: nat, tmp: string)
    requires i < |s|
    ensures Fields(s[i..], tmp) ==
            if s[i] == ',' || s[i] == ' ' then (if tmp == "" then [] else [tmp]) + Fields(s[i + 1..], "")
            else Fields(s[i + 1..], tmp + [s[i]])
  {
  }

  lemma FieldsEnd(s: string, tmp: string)
    ensures Fields(s[|s|..], tmp) == (if tmp == "" then [] else [tmp]) && s[0..] == s
  {
  }

  /** The error policy. */
  lemma HandleInSteps(s: Machine.State, fd: int, msg: string)
    requires fd in s.ctl.clients
    ensures var (verb, p) := Parse(msg);
            var r := Execute(s.ctl, fd, verb, p);
            var io := Deliver(s.io, r.out);
            Machine.Handle(s, fd, msg) ==
            match r.error
            case None => (Machine.State(r.ctl, io), true)
            case Some(text) =>
              if fd in r.ctl.clients && !(r.ctl.clients[fd].pass && r.ctl.clients[fd].registered)
              then (Machine.State(r.ctl, Mark(PollTable.CastMsg(io, fd, text), fd)), false)
              else (Machine.State(r.ctl, PollTable.CastMsg(io, fd, text)), true)
  {
    hide Execute, Deliver, Mark, PollTable.CastMsg, Parse;
  }

  lemma InviteInSteps(k: Control, fd: int, p: string)
    requires fd in k.clients
    ensures var c, t := k.clients[fd], SplitFrom(p, ' ', 0);
            match InviteError(k, c, t)
            case Some(e) => Invite(k, fd, p) == Fail(k, [], e)
            case None =>
              Invite(k, fd, p) ==
              Done(InviteTo(k, t[1], t[0]),
                   [Tell(FindNick(k.clients, t[0]).value, Notice(c.prefix, "INVITE " + t[0] + " " + t[1])),
                    Tell(fd, Reply("341", c.nick))])
  {
  }

  lemma SelectStep(t: seq<string>, i: nat, channels: bool)
    requires i < |t|
    ensures Select(t[i..], channels)
            == (if StartsWith(t[i], '#') == channels then [t[i]] else []) + Select(t[i + 1..], channels)
  {
  }

  lemma SpacedMore(t: seq<string>, i: nat, before: string)
    requires i < |t|
    ensures before + Spaced(t[i..]) == (before + " " + t[i]) + Spaced(t[i + 1..])
  {
  }

  lemma SpacedEnd(t: seq<string>, before: string)
    ensures before + Spaced(t[|t|..]) == before
  {
  }

  ghost function BatchOf(ch: ChannelData, index: map<string, Ptr>, option: string, args: seq<string>)
    : Result<ChannelData, string>
    requires option != ""
  {
    if option[0] == '+' then Modes.PlusBatch(ch, index, option[1..], args) else Modes.MinusBatch(ch, option[1..], args)
  }

  lemma ForwardStep(k: Control, fd: int, prefix: string, receivers: seq<string>, i: nat, msg: string, io: Io)
    requires i < |receivers|
    ensures var r, rest := receivers[i], Forward(k, fd, prefix, receivers[i + 1..], msg);
            Deliver(io, Forward(k, fd, prefix, receivers[i..], msg)) ==
            if r in k.channels && StartsWith(r, '#') then
              Deliver(Deliver(io, Broadcast(k.channels[r], Notice(prefix, "PRIVMSG " + r + " " + msg), fd)), rest)
            else match FindNick(k.clients, r)
              case None => Deliver(io, rest)
              case Some(to) => Deliver(PollTable.CastMsg(io, to, Notice(prefix, "PRIVMSG " + r + " " + msg)), rest)
  {
    hide Deliver, Broadcast, FindNick, Notice, PollTable.CastMsg;
    var r, rest := receivers[i], Forward(k, fd, prefix, receivers[i + 1..], msg);
    assert receivers[i..][0] == r && receivers[i..][1..] == receivers[i + 1..];
    if r in k.channels && StartsWith(r, '#') {
      DeliverConcat(io, Broadcast(k.channels[r], Notice(prefix, "PRIVMSG " + r + " " + msg), fd), rest);
    } else if FindNick(k.clients, r).Some? {
      var e := Tell(FindNick(k.clients, r).value, Notice(prefix, "PRIVMSG " + r + " " + msg));
      DeliverConcat(io, [e], rest);
      TellOne(io, e);
    } else {
      assert [] + rest == rest;
    }
  }

  lemma ForwardEnds(k: Control, fd: int, prefix: string, receivers: seq<string>, msg: string)
    ensures Forward(k, fd, prefix, receivers[|receivers|..], msg) == [] && receivers[0..] == receivers
  {
  }

  lemma ReceiverStep(k: Control, nick: string, receivers: seq<string>, i: nat)
    requires i < |receivers|
    ensures var r, rest := receivers[i], ReceiverError(k, nick, receivers[i + 1..]);
            ReceiverError(k, nick, receivers[i..]) ==
            if StartsWith(r, '#') then
              if r !in k.channels then Some(Reply("401", nick))
              else if nick !in k.channels[r].participants then Some(Reply("404", nick))
              else rest
            else if FindNick(k.clients, r).None? then Some(Reply("401", nick))
            else rest
  {
  }

  lemma ReceiversEnd(k: Control, nick: string, receivers: seq<string>)
    ensures ReceiverError(k, nick, receivers[|receivers|..]) == None && receivers[0..] == receivers
  {
  }

  lemma MessageStep(s: string, i: nat, tmp: string)
    requires i < |s|
    ensures MessageFields(s[i..], tmp) ==
            var flushed := if tmp == "" then [] else [tmp];
            if s[i] == ' ' || s[i] == ',' then flushed + MessageFields(s[i + 1..], "")
            else if s[i] == ':' then flushed + [s[i..]]
            else MessageFields(s[i + 1..], tmp + [s[i]])
  {
  }

  lemma MessageEnd(s: string, tmp: string)
    ensures MessageFields(s[|s|..], tmp) == (if tmp == "" then [] else [tmp]) && s[0..] == s
  {
  }
}
