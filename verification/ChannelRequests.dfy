/**
 * The commands about channels, and PRIVMSG: what the text asks for, exactly when it is granted, and what it then does.
 */
module ChannelRequests {
  import opened Wrappers
  import opened Text
  import opened Tokenizing
  import opened ServerState
  import opened Commands
  import opened Requests
  import opened Recipients
  import Acts
  import CommandActs
  import JoinErrors

  /** '#', then at most 199 characters, none a space or a control character. */
  predicate ChannelName(s: string) {
    1 <= |s| <= 200 && s[0] == '#' && forall i | 1 <= i < |s| :: s[i] != ' ' && !IsControl(s[i])
  }

  lemma NamesAre(s: string)
    ensures ValidChannelName(s) <==> ChannelName(s)
  {
  }

  /** Everyone in the channel but one descriptor gets this text once, and nothing else is sent. */
  ghost predicate ToldOnce(out: seq<Effect>, ch: ChannelData, msg: string, except: int) {
    forall e :: multiset(out)[e]
             == if e.Tell? && e.msg == msg && e.fd != except && Participates(ch, e.fd) then 1 else 0
  }

  lemma Announced(k: Control, name: string, msg: string)
    requires Inv(k) && name in k.channels
    ensures ToldOnce(Broadcast(k.channels[name], msg, -1), k.channels[name], msg, -1)
  {
    BroadcastReachesOnce(k, name, msg, -1);
  }

  // ---- JOIN of one channel ----

  /** The invitation, the key and the room that an existing channel asks for. */
  predicate Invited(ch: ChannelData, nick: string) { 'i' in ch.modes ==> nick in ch.invited }

  predicate HasKey(ch: ChannelData, key: string) { 'k' in ch.modes ==> key == ch.key }

  predicate HasRoom(ch: ChannelData) { 'l' in ch.modes ==> ch.limit.Some? && |ch.participants| < ch.limit.value }

  /** An existing channel lets a client in iff it is invited, has the key, and there is room; the first lack decides. */
  lemma JoinGranted(k: Control, fd: int, name: string, key: string)
    requires Inv(k) && fd in k.clients && name in k.channels
    ensures var c, ch, r := k.clients[fd], k.channels[name], JoinOne(k, fd, name, key);
            && (r.error.None? <==> Invited(ch, c.nick) && HasKey(ch, key) && HasRoom(ch))
            && (!Invited(ch, c.nick) ==> r.error == Some(Numeric("473", c.nick)))
            && (Invited(ch, c.nick) && !HasKey(ch, key) ==> r.error == Some(Numeric("475", c.nick)))
            && (Invited(ch, c.nick) && HasKey(ch, key) && !HasRoom(ch) ==> r.error == Some(Numeric("471", c.nick)))
            && (r.error.Some? ==> r.ctl == k && r.out == [])
  {
    assert ChannelOk(k.clients, k.channels[name]);
    hide Inv, MembersOk, JoinNotices;
  }

  /** The channel after the client got in: its participant entry, and its invitation used up under +i. */
  function Inside(ch: ChannelData, nick: string, p: Ptr): ChannelData {
    ch.(participants := if nick in ch.participants then ch.participants else ch.participants[nick := p],
        invited := if 'i' in ch.modes then ch.invited - {nick} else ch.invited)
  }

  lemma JoinTakesIn(k: Control, fd: int, name: string, key: string)
    requires Inv(k) && fd in k.clients && k.clients[fd].registered && name in k.channels
    requires JoinOne(k, fd, name, key).error.None?
    ensures var c, ch, r := k.clients[fd], k.channels[name], JoinOne(k, fd, name, key);
            var ch' := Inside(ch, c.nick, PtrOf(k, fd));
            && r.ctl == k.(channels := k.channels[name := ch'])
            && JoinTells(k, fd, name, ch', r.out)
  {
    var ch' := Inside(k.channels[name], k.clients[fd].nick, PtrOf(k, fd));
    JoinIsToldOn(k, fd, name, key, ch');
    hide Inv, JoinError, JoinNotices;
  }

  /** The JOIN to everyone in the channel, the newcomer included; to the newcomer then the names and a topic reply. */
  ghost predicate JoinTells(k: Control, fd: int, name: string, ch: ChannelData, out: seq<Effect>)
    requires fd in k.clients
  {
    var c, n := k.clients[fd], |out| - 3;
    && n >= 0 && ToldOnce(out[..n], ch, Notice(c.prefix, "JOIN " + name), -1)
    && out[n..] == [Tell(fd, Notice(":ircserv 353 " + c.nick + " = " + name, ":" + NamesLine(k, ch))),
                    Tell(fd, Numeric("366", c.nick)),
                    Tell(fd, Numeric(if ch.topic == "" then "331" else "332", c.nick))]
  }

  lemma JoinIsToldOn(k: Control, fd: int, name: string, key: string, ch: ChannelData)
    requires Inv(k) && fd in k.clients && k.clients[fd].registered
    requires var r := JoinOne(k, fd, name, key); r.error.None? && name in r.ctl.channels && r.ctl.channels[name] == ch
    ensures JoinTells(if name in k.channels then k else Found(k, fd, name, key), fd, name, ch,
                      JoinOne(k, fd, name, key).out)
  {
    var r, c := JoinOne(k, fd, name, key), k.clients[fd];
    CommandActs.JoinOneKeepsInv(k, fd, name, key);
    Announced(r.ctl, name, Notice(c.prefix, "JOIN " + name));
    hide Inv, Broadcast, NamesLine, JoinError, Notice, ToldOnce;
    var n := |r.out| - 3;
    assert r.out[..n] == Broadcast(ch, Notice(c.prefix, "JOIN " + name), -1);
  }

  /** A channel that does not exist is created: only its founder is in it, as operator; "x" stands for no key. */
  lemma JoinCreates(k: Control, fd: int, name: string, key: string)
    requires Inv(k) && fd in k.clients && k.clients[fd].registered && name !in k.channels
    ensures var c, r := k.clients[fd], JoinOne(k, fd, name, key);
            var secret, founder := if key == "x" then "" else key, map[c.nick := PtrOf(k, fd)];
            && r.error.None?
            && r.ctl == k.(nextId := k.nextId + 1, channels := k.channels[name := ChannelData(
                 k.nextId, secret, "", if secret == "" then {} else {'k'}, founder, founder, None, {})])
            && JoinTells(Found(k, fd, name, key), fd, name, r.ctl.channels[name], r.out)
  {
    hide Inv, JoinNotices, JoinTells;
    Acts.FounderIsAdmitted(k, fd, name, key);
    var r := JoinOne(k, fd, name, key);
    JoinIsToldOn(k, fd, name, key, r.ctl.channels[name]);
    var ch := r.ctl.channels[name];
    assert r.ctl.channels == k.channels[name := ch];
    assert ch.invited == {};
  }

  // ---- JOIN of several, from its text ----

  /** One channel after the other, the i-th with the i-th key. */
  lemma {:induction false} JoinOneMore(k: Control, fd: int, names: seq<string>, name: string, keys: seq<string>)
    requires fd in k.clients && JoinAll(k, fd, names, keys).error.None?
    ensures var r := JoinAll(k, fd, names, keys);
            && fd in r.ctl.clients
            && var last := JoinOne(r.ctl, fd, name, JoinErrors.KeyAt(keys, |names|));
               JoinAll(k, fd, names + [name], keys) == Outcome(last.ctl, r.out + last.out, last.error)
    decreases |names|
  {
    hide JoinOne;
    JoinErrors.JoinKeepsClients(k, fd, names, keys);
    if names == [] {
      assert (names + [name])[1..] == [];
      OneJoined(k, fd, name, keys);
    } else {
      var rest, more := names[1..], JoinErrors.KeysAfter(keys);
      JoinErrors.RefusalChangesNothing(k, fd, names[0], JoinErrors.KeyAt(keys, 0));
      var r := JoinOne(k, fd, names[0], JoinErrors.KeyAt(keys, 0));
      assert (names + [name])[0] == names[0] && (names + [name])[1..] == rest + [name];
      JoinOneMore(r.ctl, fd, rest, name, more);
      assert JoinErrors.KeyAt(more, |rest|) == JoinErrors.KeyAt(keys, |names|);
    }
  }

  lemma OneJoined(k: Control, fd: int, name: string, keys: seq<string>)
    requires fd in k.clients
    ensures var r := JoinOne(k, fd, name, JoinErrors.KeyAt(keys, 0));
            JoinAll(k, fd, [name], keys) == r && [] + r.out == r.out
  {
    hide JoinOne;
    JoinErrors.RefusalChangesNothing(k, fd, name, JoinErrors.KeyAt(keys, 0));
    assert [name][1..] == [];
    var r := JoinOne(k, fd, name, JoinErrors.KeyAt(keys, 0));
    assert r.out + [] == r.out;
  }

  /** Channels and keys, each separated by commas, with a space between. */
  function JoinParams(names: seq<string>, keys: seq<string>): string {
    JoinWith(names, ',') + " " + JoinWith(keys, ',')
  }

  lemma {:induction false} FieldsAppend(a: string, b: string, tmp: string)
    ensures Fields(a + " " + b, tmp) == Fields(a, tmp) + Fields(b, "")
    decreases |a|
  {
    if a == "" {
      assert a + " " + b == " " + b && (" " + b)[1..] == b;
    } else {
      assert (a + " " + b)[1..] == a[1..] + " " + b;
      FieldsAppend(a[1..], b, if Separator(a[0]) then "" else tmp + [a[0]]);
    }
  }

  lemma {:induction false} SelectSplits(names: seq<string>, keys: seq<string>)
    requires (forall n | n in names :: StartsWith(n, '#')) && forall n | n in keys :: !StartsWith(n, '#')
    ensures Select(names + keys, true) == names && Select(names + keys, false) == keys
    decreases |names| + |keys|
  {
    if names != [] {
      assert (names + keys)[0] == names[0] && (names + keys)[1..] == names[1..] + keys;
      SelectSplits(names[1..], keys);
    } else if keys != [] {
      assert names + keys == keys && keys == [keys[0]] + keys[1..] && [] + keys[1..] == keys[1..];
      SelectSplits([], keys[1..]);
    }
  }

  /** JOIN names,... keys,... joins the channels in order with these keys, if it is not refused as a whole. */
  lemma JoinReads(k: Control, fd: int, names: seq<string>, keys: seq<string>)
    requires fd in k.clients
    requires forall n | n in names :: Word(n) && n[0] == '#'
    requires forall n | n in keys :: Word(n) && n[0] != '#'
    ensures var c, r := k.clients[fd], Does(k, fd, Request(JOIN, JoinParams(names, keys)));
            && (!c.registered ==> r == Outcome(k, [Tell(fd, Numeric("451", c.nick))], None))
            && (c.registered && |names| < |keys| ==> r == Outcome(k, [], Some(Numeric("461", c.nick))))
            && (c.registered && |keys| <= |names| && (exists n :: n in names && !ChannelName(n)) ==>
                r == Outcome(k, [], Some(Numeric("476", c.nick))))
            && (c.registered && |keys| <= |names| && (forall n | n in names :: ChannelName(n)) ==>
                r == JoinAll(k, fd, names, keys))
  {
    hide Does, Request, Fields, Select, JoinWith, JoinAll, ValidChannelName, ChannelName, Word, JoinParams;
    Runs(k, fd, JOIN, JoinParams(names, keys));
    JoinParamsRead(names, keys);
    forall n ensures ValidChannelName(n) <==> ChannelName(n) { NamesAre(n); }
  }

  lemma JoinParamsRead(names: seq<string>, keys: seq<string>)
    requires forall n | n in names :: Word(n) && n[0] == '#'
    requires forall n | n in keys :: Word(n) && n[0] != '#'
    ensures var t := Fields(JoinParams(names, keys), ""); Select(t, true) == names && Select(t, false) == keys
  {
    hide Fields, Select, JoinWith;
    FieldsAppend(JoinWith(names, ','), JoinWith(keys, ','), "");
    FieldsUndoJoin(names, ',');
    FieldsUndoJoin(keys, ',');
    SelectSplits(names, keys);
  }

  // ---- PART and KICK ----

  /** The channel without this nickname, or no channel if nobody else was in it. */
  function Without(k: Control, name: string, nick: string): Control
    requires name in k.channels
  {
    var ch := k.channels[name];
    k.(channels := if ch.participants.Keys == {nick} then k.channels - {name}
                   else k.channels[name := ch.(participants := ch.participants - {nick},
                                               operators := ch.operators - {nick})])
  }

  lemma LeaveIs(k: Control, name: string, nick: string)
    requires name in k.channels && nick in k.channels[name].participants
    ensures Leave(k, name, nick) == Without(k, name, nick)
  {
    var m := k.channels[name].participants;
    assert (m - {nick}).Keys == m.Keys - {nick};
    assert m - {nick} == map[] <==> m.Keys - {nick} == {};
    assert m.Keys - {nick} == {} <==> m.Keys == {nick} by {
      if m.Keys - {nick} == {} {
        forall n | n in m.Keys ensures n == nick { assert n !in m.Keys - {nick}; }
      }
    }
  }

  /** PART of one channel: out of it, with everyone in it told first, or one of three answers and no change. */
  lemma PartGranted(k: Control, fd: int, name: string)
    requires Inv(k) && fd in k.clients
    ensures var c, r := k.clients[fd], PartOne(k, fd, name);
            && r.error.None?
            && (!ChannelName(name) ==> r == Outcome(k, [Tell(fd, Numeric("476", c.nick))], None))
            && (ChannelName(name) && name !in k.channels ==> r == Outcome(k, [Tell(fd, Numeric("403", c.nick))], None))
            && (ChannelName(name) && name in k.channels && !Acts.IsMember(k, fd, name) ==>
                r == Outcome(k, [Tell(fd, Numeric("442", c.nick))], None))
            && (ChannelName(name) && name in k.channels && Acts.IsMember(k, fd, name) ==>
                r.ctl == Without(k, name, c.nick)
                && ToldOnce(r.out, k.channels[name], Notice(c.prefix, "PART " + name), -1))
  {
    NamesAre(name);
    hide Inv, ValidChannelName, ChannelName, Broadcast, ToldOnce, Notice, Without, Leave;
    if Acts.IsMember(k, fd, name) {
      LeaveIs(k, name, k.clients[fd].nick);
      Announced(k, name, Notice(k.clients[fd].prefix, "PART " + name));
    }
  }

  lemma {:induction false} PartOneMore(k: Control, fd: int, names: seq<string>, name: string)
    requires fd in k.clients
    ensures var r := PartAll(k, fd, names);
            && fd in r.ctl.clients
            && var last := PartOne(r.ctl, fd, name);
               PartAll(k, fd, names + [name]) == Outcome(last.ctl, r.out + last.out, None)
    decreases |names|
  {
    hide PartOne;
    if names == [] {
      assert names + [name] == [name] && [name][1..] == [];
      PartKeeps(k, fd, name);
      var last := PartOne(k, fd, name);
      assert last.out + [] == last.out && [] + last.out == last.out;
    } else {
      PartKeeps(k, fd, names[0]);
      assert (names + [name])[0] == names[0] && (names + [name])[1..] == names[1..] + [name];
      PartOneMore(PartOne(k, fd, names[0]).ctl, fd, names[1..], name);
    }
  }

  lemma PartKeeps(k: Control, fd: int, name: string)
    requires fd in k.clients
    ensures PartOne(k, fd, name).ctl.clients == k.clients && PartOne(k, fd, name).error.None?
  {
    hide Broadcast, ValidChannelName, Notice, Reply;
  }

  /** PART names,... leaves them in order. */
  lemma PartReads(k: Control, fd: int, names: seq<string>)
    requires fd in k.clients && names != [] && names[|names| - 1] != ""
    requires forall n | n in names :: ',' !in n && !StartsWith(n, ':')
    ensures var c, r := k.clients[fd], Does(k, fd, Request(PART, JoinWith(names, ',')));
            r == if c.registered then PartAll(k, fd, names) else Outcome(k, [], Some(Numeric("451", c.nick)))
  {
    Runs(k, fd, PART, JoinWith(names, ','));
    SplitUndoesJoin(names, ',');
    hide Does, Request, SplitFrom, JoinWith, PartAll;
  }

  /** A parameter that is one word: no space in it, no colon at its start. */
  predicate Single(w: string) { w != "" && ' ' !in w && w[0] != ':' }

  lemma SinglesRead(t: seq<string>)
    requires t != [] && forall w | w in t :: Single(w)
    ensures SplitFrom(JoinWith(t, ' '), ' ', 0) == t
  {
    hide SplitFrom, JoinWith;
    assert t[|t| - 1] in t;
    SplitUndoesJoin(t, ' ');
  }

  lemma NotEmpty(w: string)
    requires Single(w)
    ensures w != ""
  {
  }

  /** The parameters of KICK: channel, nickname, and perhaps a third word. */
  predicate KickParams(t: seq<string>) { 2 <= |t| <= 3 && forall w | w in t :: Single(w) }

  lemma KickReads(k: Control, fd: int, t: seq<string>)
    requires fd in k.clients && KickParams(t)
    ensures Does(k, fd, Request(KICK, JoinWith(t, ' '))) == Kick(k, fd, JoinWith(t, ' '))
    ensures SplitFrom(JoinWith(t, ' '), ' ', 0) == t && 2 <= |t| <= 3
  {
    hide *;
    KickParamsAre(t);
    SinglesRead(t);
    Runs(k, fd, KICK, JoinWith(t, ' '));
    ExecuteKick(k, fd, JoinWith(t, ' '));
  }

  lemma KickParamsAre(t: seq<string>)
    requires KickParams(t)
    ensures 2 <= |t| <= 3 && forall w | w in t :: Single(w)
  {
  }

  lemma ExecuteKick(k: Control, fd: int, p: string)
    requires fd in k.clients
    ensures Execute(k, fd, KICK, p) == Kick(k, fd, p)
  {
  }

  /** KICK: granted iff an operator of the channel asks for a participant, who is then out, with everyone in it told. */
  lemma KickGranted(k: Control, fd: int, t: seq<string>)
    requires Inv(k) && fd in k.clients && KickParams(t)
    ensures var c, r := k.clients[fd], Does(k, fd, Request(KICK, JoinWith(t, ' ')));
            var name, nick := t[0], t[1];
            && (r.error.None? <==>
                c.registered && StartsWith(name, '#') && Acts.Operates(k, fd, name)
                && nick in k.channels[name].participants)
            && (r.error.None? ==>
                r.ctl == Without(k, name, nick)
                && ToldOnce(r.out, k.channels[name], Notice(c.prefix, "KICK " + name + " " + nick), -1))
            && (r.error.Some? ==> r.ctl == k && r.out == [])
  {
    hide Does, Request, SplitFrom, JoinWith, KickParams, Single, Inv, Broadcast, ToldOnce, Notice, Without, Leave;
    hide Reply;
    KickReads(k, fd, t);
    if t[0] in k.channels && t[1] in k.channels[t[0]].participants {
      Announced(k, t[0], Notice(k.clients[fd].prefix, "KICK " + t[0] + " " + t[1]));
      LeaveIs(k, t[0], t[1]);
    }
  }

  /** Which of several lacks a KICK is refused for. */
  lemma KickRefused(k: Control, fd: int, t: seq<string>)
    requires fd in k.clients && KickParams(t)
    ensures var c, e := k.clients[fd], Does(k, fd, Request(KICK, JoinWith(t, ' '))).error;
            var name, nick := t[0], t[1];
            && (!c.registered ==> e == Some(Numeric("451", c.nick)))
            && (c.registered && !StartsWith(name, '#') ==> e == Some(Numeric("476", c.nick)))
            && (c.registered && StartsWith(name, '#') ==>
                && (name !in k.channels ==> e == Some(Numeric("403", c.nick)))
                && (name in k.channels && !Acts.IsMember(k, fd, name) ==> e == Some(Numeric("442", c.nick)))
                && (Acts.IsMember(k, fd, name) && !Acts.Operates(k, fd, name) ==> e == Some(Numeric("482", c.nick)))
                && (Acts.Operates(k, fd, name) ==>
                    nick !in k.channels[name].participants ==> e == Some(Numeric("441", c.nick))))
  {
    hide Does, Request, SplitFrom, JoinWith, KickParams, Single;
    KickReads(k, fd, t);
    hide Broadcast, Notice, Leave;
  }

  // ---- INVITE ----

  lemma InviteReads(k: Control, fd: int, nick: string, name: string)
    requires fd in k.clients && Single(nick) && Single(name)
    ensures var p := JoinWith([nick, name], ' ');
            Does(k, fd, Request(INVITE, p)) == Invite(k, fd, p) && SplitFrom(p, ' ', 0) == [nick, name] && nick != ""
  {
    Runs(k, fd, INVITE, JoinWith([nick, name], ' '));
    NotEmpty(nick);
    hide Does, Request, SplitFrom, JoinWith, Invite, Single;
    SinglesRead([nick, name]);
  }

  lemma NickIsFound(k: Control, nick: string)
    ensures FindNick(k.clients, nick).Some? <==> SomeoneHas(k, nick)
  {
  }

  /**
   * INVITE nick channel: granted iff a participant, under +i an operator, asks for a connected client that is not in
   * the channel. The invitation is noted, and both are told.
   */
  lemma InviteGranted(k: Control, fd: int, nick: string, name: string)
    requires Inv(k) && fd in k.clients && Single(name) && Single(nick)
    ensures var c, r := k.clients[fd], Does(k, fd, Request(INVITE, JoinWith([nick, name], ' ')));
            && (r.error.None? <==>
                && c.registered && ChannelName(name) && Acts.IsMember(k, fd, name)
                && ('i' in k.channels[name].modes ==> Acts.Operates(k, fd, name))
                && SomeoneHas(k, nick)
                && nick !in k.channels[name].participants)
            && (r.error.Some? ==> r.ctl == k && r.out == [])
            && (r.error.None? ==> forall f | f in k.clients && k.clients[f].nick == nick ::
                && r.ctl == k.(channels := k.channels[name := k.channels[name].(
                     invited := k.channels[name].invited + {nick})])
                && r.out == [Tell(f, Notice(c.prefix, "INVITE " + nick + " " + name)),
                             Tell(fd, Numeric("341", c.nick))])
  {
    hide Does, Request, SplitFrom, JoinWith, ValidChannelName, ChannelName, Single;
    InviteReads(k, fd, nick, name);
    NamesAre(name);
    IndexRefinesScan(k, nick);
    NickIsFound(k, nick);
    hide Inv, Notice, FindNick;
  }

  /** Which of several lacks an INVITE is refused for. */
  lemma InviteRefused(k: Control, fd: int, nick: string, name: string)
    requires Inv(k) && fd in k.clients && Single(name) && Single(nick)
    ensures var c, e := k.clients[fd], Does(k, fd, Request(INVITE, JoinWith([nick, name], ' '))).error;
            && (!c.registered ==> e == Some(Numeric("451", c.nick)))
            && (c.registered && !ChannelName(name) ==> e == Some(Numeric("476", c.nick)))
            && (c.registered && ChannelName(name) && name !in k.channels ==> e == Some(Numeric("401", c.nick)))
            && (c.registered && ChannelName(name) && name in k.channels ==>
                && (!Acts.IsMember(k, fd, name) ==> e == Some(Numeric("442", c.nick)))
                && (Acts.IsMember(k, fd, name) && 'i' in k.channels[name].modes && !Acts.Operates(k, fd, name) ==>
                    e == Some(Numeric("482", c.nick)))
                && (Acts.Operates(k, fd, name) && !SomeoneHas(k, nick) ==>
                    e == Some(Numeric("401", c.nick)))
                && (Acts.Operates(k, fd, name) && nick in k.channels[name].participants ==>
                    e == Some(Numeric("443", nick))))
  {
    hide Does, Request, SplitFrom, JoinWith, ValidChannelName, ChannelName, Single;
    InviteReads(k, fd, nick, name);
    NamesAre(name);
    if name in k.channels && nick in k.channels[name].participants {
      assert ChannelOk(k.clients, k.channels[name]) && Holds(k.clients, nick, k.channels[name].participants[nick]);
    }
    NickIsFound(k, nick);
    hide Inv, Notice, FindNick;
  }

  // ---- TOPIC ----

  lemma TopicReads(name: string, text: string)
    requires Single(name)
    ensures TopicFields(name) == [name] && TopicFields(name + " :" + text) == [name, ":" + text]
  {
    var s := name + " :" + text;
    assert s[0..|name|] == name && s[|name|] == ' ' && s[|name| + 1] == ':';
    FindIs(s, ' ', 0, |name|);
    assert name[0..|name|] == name;
    FindIs(name, ' ', 0, |name|);
    assert s[..|name|] == name && s[|name| + 1..] == ":" + text;
  }

  /** TOPIC channel :text: granted iff a participant, under +t an operator, asks; the text is stored with its colon. */
  lemma TopicGranted(k: Control, fd: int, name: string, text: string)
    requires Inv(k) && fd in k.clients && Single(name)
    ensures var c, r := k.clients[fd], Does(k, fd, Request(TOPIC, name + " :" + text));
            && (r.error.None? <==>
                c.registered && ChannelName(name) && Acts.IsMember(k, fd, name)
                && ('t' in k.channels[name].modes ==> Acts.Operates(k, fd, name)))
            && (r.error.None? ==>
                r.ctl == k.(channels := k.channels[name := k.channels[name].(topic := ":" + text)])
                && ToldOnce(r.out, k.channels[name], Numeric("332", c.nick), -1))
            && (r.error.Some? ==> r.ctl == k && r.out == [])
            && (!c.registered ==> r.error == Some(Numeric("451", c.nick)))
            && (c.registered && !ChannelName(name) ==> r.error == Some(Numeric("476", c.nick)))
            && (c.registered && ChannelName(name) && name !in k.channels ==> r.error == Some(Numeric("403", c.nick)))
            && (c.registered && ChannelName(name) && name in k.channels && !Acts.IsMember(k, fd, name) ==>
                r.error == Some(Numeric("442", c.nick)))
            && (c.registered && ChannelName(name) && Acts.IsMember(k, fd, name) && r.error.Some? ==>
                r.error == Some(Numeric("482", c.nick)))
  {
    hide Inv, Does, Request, TopicFields, Broadcast, ToldOnce, ValidChannelName, ChannelName, Single;
    Runs(k, fd, TOPIC, name + " :" + text);
    TopicReads(name, text);
    NamesAre(name);
    NotEmpty(name);
    if name in k.channels { Announced(k, name, Numeric("332", k.clients[fd].nick)); }
  }

  /** TOPIC channel asks for it: a participant gets 332 if there is one, the error 331 if not; nothing changes. */
  lemma TopicAsked(k: Control, fd: int, name: string)
    requires fd in k.clients && Single(name)
    ensures var c, r := k.clients[fd], Does(k, fd, Request(TOPIC, name));
            && r.ctl == k
            && (c.registered && ChannelName(name) && Acts.IsMember(k, fd, name) ==>
                r == if k.channels[name].topic == "" then Outcome(k, [], Some(Numeric("331", c.nick)))
                     else Outcome(k, [Tell(fd, Numeric("332", c.nick))], None))
            && (!(c.registered && ChannelName(name) && Acts.IsMember(k, fd, name)) ==> r.error.Some? && r.out == [])
  {
    hide Does, Request, TopicFields, Broadcast, ValidChannelName, ChannelName, Single;
    Runs(k, fd, TOPIC, name);
    TopicReads(name, "");
    NamesAre(name);
    NotEmpty(name);
  }

  // ---- PRIVMSG ----

  predicate SomeoneHas(k: Control, nick: string) { exists f :: f in k.clients && k.clients[f].nick == nick }

  /** What the sender can reach: a channel it is in, or a nickname somebody has. */
  predicate Reaches(k: Control, fd: int, r: string)
    requires fd in k.clients
  {
    if StartsWith(r, '#') then Acts.IsMember(k, fd, r) else SomeoneHas(k, r)
  }

  lemma {:induction false} NoReceiverErrorIff(k: Control, fd: int, receivers: seq<string>)
    requires fd in k.clients
    ensures ReceiverError(k, k.clients[fd].nick, receivers).None? <==> forall r | r in receivers :: Reaches(k, fd, r)
    decreases |receivers|
  {
    if receivers != [] {
      FirstReceiver(k, fd, receivers);
      NoReceiverErrorIff(k, fd, receivers[1..]);
      hide Reaches, ReceiverError;
      assert forall r :: r in receivers <==> r == receivers[0] || r in receivers[1..];
    }
  }

  lemma FirstReceiver(k: Control, fd: int, receivers: seq<string>)
    requires fd in k.clients && receivers != []
    ensures var nick := k.clients[fd].nick;
            ReceiverError(k, nick, receivers).None? <==>
            Reaches(k, fd, receivers[0]) && ReceiverError(k, nick, receivers[1..]).None?
    ensures Reaches(k, fd, receivers[0]) ==>
              ReceiverError(k, k.clients[fd].nick, receivers) == ReceiverError(k, k.clients[fd].nick, receivers[1..])
    ensures forall r :: r in receivers <==> r == receivers[0] || r in receivers[1..]
  {
    hide FindNick, SomeoneHas, Reply;
    NickIsFound(k, receivers[0]);
    assert receivers == [receivers[0]] + receivers[1..];
  }

  lemma AddressedIs(receivers: seq<string>, text: string)
    requires forall w | w in receivers :: Word(w) && ':' !in w
    ensures Addressed(JoinWith(receivers, ',') + " :" + text) == (receivers, ":" + text) && ":" + text != ""
  {
    MessageFieldsRead(receivers, text);
    hide MessageFields;
    var t := receivers + [":" + text];
    assert t[..|t| - 1] == receivers;
  }

  predicate NoneTwice(receivers: seq<string>) {
    forall i, j | 0 <= i < j < |receivers| :: receivers[i] != receivers[j]
  }

  /** All channels, or all nicknames. */
  predicate OneKind(receivers: seq<string>) {
    (forall w | w in receivers :: StartsWith(w, '#')) || (forall w | w in receivers :: !StartsWith(w, '#'))
  }

  predicate ReachesAll(k: Control, fd: int, receivers: seq<string>)
    requires fd in k.clients
  {
    forall r | r in receivers :: Reaches(k, fd, r)
  }

  /**
   * PRIVMSG receivers,... :text is granted iff there are receivers, all channels or all nicknames, none twice, and the
   * sender reaches every one of them. Who then gets it is Recipients.PrivmsgReachesOnce.
   */
  lemma PrivmsgGranted(k: Control, fd: int, receivers: seq<string>, text: string)
    requires fd in k.clients && forall w | w in receivers :: Word(w) && ':' !in w
    ensures var c, r := k.clients[fd], Does(k, fd, Request(PRIVMSG, JoinWith(receivers, ',') + " :" + text));
            && r.ctl == k
            && (r.error.None? <==>
                c.registered && receivers != [] && NoneTwice(receivers) && OneKind(receivers)
                && ReachesAll(k, fd, receivers))
            && (r.error.None? ==> r.out == Forward(k, fd, c.prefix, receivers, ":" + text))
            && (!c.registered ==> r.error == Some(Numeric("451", c.nick)) && r.out == [])
            && (c.registered && receivers == [] ==> r.error == Some(Numeric("411", c.nick)))
  {
    hide *;
    var p := JoinWith(receivers, ',') + " :" + text;
    Runs(k, fd, PRIVMSG, p);
    AddressedIs(receivers, text);
    ReceiversReached(k, fd, receivers);
    MixedIs(receivers);
    PrivmsgIs(k, fd, p);
  }

  lemma ReceiversReached(k: Control, fd: int, receivers: seq<string>)
    requires fd in k.clients
    ensures ReceiverError(k, k.clients[fd].nick, receivers).None? <==> ReachesAll(k, fd, receivers)
    ensures Duplicated(receivers) <==> !NoneTwice(receivers)
  {
    NoReceiverErrorIff(k, fd, receivers);
  }

  lemma PrivmsgIs(k: Control, fd: int, p: string)
    requires fd in k.clients && Addressed(p).1 != ""
    ensures Execute(k, fd, PRIVMSG, p) == Privmsg(k, fd, p)
    ensures var c, r, (receivers, msg) := k.clients[fd], Privmsg(k, fd, p), Addressed(p);
            && r.ctl == k
            && (r.error.None? <==>
                c.registered && !Mixed(receivers) && receivers != [] && !Duplicated(receivers)
                && ReceiverError(k, c.nick, receivers).None?)
            && (r.error.None? ==> r.out == Forward(k, fd, c.prefix, receivers, msg))
            && (!c.registered ==> r.error == Some(Numeric("451", c.nick)) && r.out == [])
            && (c.registered && receivers == [] ==> r.error == Some(Numeric("411", c.nick)))
  {
    hide Addressed, ReceiverError, Forward, Duplicated;
  }

  lemma MixedIs(receivers: seq<string>)
    ensures Mixed(receivers) <==> !OneKind(receivers)
  {
    if !Mixed(receivers) && receivers != [] {
      forall w | w in receivers ensures StartsWith(w, '#') == StartsWith(receivers[0], '#') {
        var i :| 0 <= i < |receivers| && receivers[i] == w;
      }
    }
    if Mixed(receivers) {
      var i :| 0 <= i < |receivers| && StartsWith(receivers[i], '#') != StartsWith(receivers[0], '#');
      assert receivers[i] in receivers && receivers[0] in receivers;
    }
  }

  // ---- wrong numbers of parameters, and which receiver a PRIVMSG is refused for ----

  /** KICK takes two or three words, INVITE two. */
  lemma WrongCount(k: Control, fd: int, t: seq<string>)
    requires fd in k.clients && k.clients[fd].registered && t != [] && forall w | w in t :: Single(w)
    ensures var p, refused := JoinWith(t, ' '), Outcome(k, [], Some(Numeric("461", k.clients[fd].nick)));
            && (|t| < 2 || |t| > 3 ==> Does(k, fd, Request(KICK, p)) == refused)
            && (|t| != 2 ==> Does(k, fd, Request(INVITE, p)) == refused)
  {
    hide Does, Request, SplitFrom, JoinWith, Single, Broadcast, FindNick, ValidChannelName;
    SinglesRead(t);
    Runs(k, fd, KICK, JoinWith(t, ' '));
    Runs(k, fd, INVITE, JoinWith(t, ' '));
  }

  /** PART without a channel. */
  lemma PartOfNothing(k: Control, fd: int)
    requires fd in k.clients && k.clients[fd].registered
    ensures Does(k, fd, Request(PART, "")) == Outcome(k, [], Some(Numeric("461", k.clients[fd].nick)))
  {
    hide Does, Request;
    Runs(k, fd, PART, "");
    assert SplitFrom("", ',', 0) == [];
  }

  /** Channels mixed with nicknames, or a receiver twice. */
  lemma PrivmsgRefused(k: Control, fd: int, receivers: seq<string>, text: string)
    requires fd in k.clients && k.clients[fd].registered && forall w | w in receivers :: Word(w) && ':' !in w
    ensures var c, r := k.clients[fd], Does(k, fd, Request(PRIVMSG, JoinWith(receivers, ',') + " :" + text));
            && (!OneKind(receivers) ==>
                r.error == Some(Numeric("421", c.nick)) && r.out == [Tell(fd, Notice(":ircserv", "mixed receivers"))])
            && (OneKind(receivers) && !NoneTwice(receivers) ==> r.error == Some(Numeric("407", c.nick)) && r.out == [])
            && (OneKind(receivers) && NoneTwice(receivers) && r.error.Some? && receivers != [] ==>
                r.error == ReceiverError(k, c.nick, receivers) && r.out == [])
  {
    hide *;
    var p := JoinWith(receivers, ',') + " :" + text;
    Runs(k, fd, PRIVMSG, p);
    AddressedIs(receivers, text);
    ReceiversReached(k, fd, receivers);
    MixedIs(receivers);
    PrivmsgRefusedIs(k, fd, p);
  }

  lemma PrivmsgRefusedIs(k: Control, fd: int, p: string)
    requires fd in k.clients && k.clients[fd].registered && Addressed(p).1 != ""
    ensures var c, r, (receivers, msg) := k.clients[fd], Execute(k, fd, PRIVMSG, p), Addressed(p);
            && (Mixed(receivers) ==>
                r.error == Some(Numeric("421", c.nick)) && r.out == [Tell(fd, Notice(":ircserv", "mixed receivers"))])
            && (!Mixed(receivers) && receivers != [] && Duplicated(receivers) ==>
                r.error == Some(Numeric("407", c.nick)) && r.out == [])
            && (!Mixed(receivers) && receivers != [] && !Duplicated(receivers) && r.error.Some? ==>
                r.error == ReceiverError(k, c.nick, receivers) && r.out == [])
            && (receivers == [] ==> !Mixed(receivers) && !Duplicated(receivers))
  {
    hide Addressed, ReceiverError, Forward, Notice;
  }

  /** The first receiver out of reach decides: a channel the sender is not in, or nothing of that name. */
  lemma {:induction false} FirstOutOfReach(k: Control, fd: int, before: seq<string>, r: string, after: seq<string>)
    requires fd in k.clients && (forall w | w in before :: Reaches(k, fd, w)) && !Reaches(k, fd, r)
    ensures var nick := k.clients[fd].nick;
            ReceiverError(k, nick, before + [r] + after)
            == Some(Numeric(if StartsWith(r, '#') && r in k.channels then "404" else "401", nick))
    decreases |before|
  {
    if before == [] {
      hide FindNick, SomeoneHas;
      assert before + [r] + after == [r] + after;
      NickIsFound(k, r);
    } else {
      hide Reaches, ReceiverError, FindNick;
      FirstReceiver(k, fd, before + [r] + after);
      assert before[0] in before && forall w | w in before[1..] :: w in before;
      assert (before + [r] + after)[0] == before[0] && (before + [r] + after)[1..] == before[1..] + [r] + after;
      FirstOutOfReach(k, fd, before[1..], r, after);
    }
  }

  lemma NoTextAddressed(receivers: seq<string>)
    requires forall w | w in receivers :: Word(w) && ':' !in w
    ensures Addressed(JoinWith(receivers, ',')) == (receivers, "")
  {
    MessageWordsRead(receivers);
    hide MessageFields, JoinWith;
    if receivers != [] { assert receivers[|receivers| - 1] in receivers; }
  }

  /** Receivers without a text. */
  lemma PrivmsgWithoutText(k: Control, fd: int, receivers: seq<string>)
    requires fd in k.clients && k.clients[fd].registered && forall w | w in receivers :: Word(w) && ':' !in w
    requires receivers != [] && OneKind(receivers) && NoneTwice(receivers)
    ensures Does(k, fd, Request(PRIVMSG, JoinWith(receivers, ',')))
         == Outcome(k, [], Some(Numeric("412", k.clients[fd].nick)))
  {
    hide *;
    var p := JoinWith(receivers, ',');
    Runs(k, fd, PRIVMSG, p);
    NoTextAddressed(receivers);
    ReceiversReached(k, fd, receivers);
    MixedIs(receivers);
    NoTextRefused(k, fd, p);
  }

  lemma NoTextRefused(k: Control, fd: int, p: string)
    requires fd in k.clients && k.clients[fd].registered && Addressed(p).1 == "" && Addressed(p).0 != []
    requires !Mixed(Addressed(p).0) && !Duplicated(Addressed(p).0)
    ensures Execute(k, fd, PRIVMSG, p) == Outcome(k, [], Some(Numeric("412", k.clients[fd].nick)))
  {
    hide Addressed, Duplicated, Mixed, ReceiverError, Forward;
  }
}
