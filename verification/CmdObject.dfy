/** class Cmd: one command being handled. A method's result is the text of the CmdException it throws, if any. */
module CmdObject {
  import opened Wrappers
  import opened Text
  import opened Ordering
  import opened ServerState
  import opened Commands
  import opened PollTable
  import opened ClientObject
  import opened ChannelObject
  import opened IrcServerObject
  import opened CommandSteps
  import Machine
  import Modes

  /** What a command did is what its function says: the registry, the effects in order, and the error. */
  ghost predicate Did(s: Machine.State, r: Outcome, s': Machine.State, error: Option<string>) {
    s'.ctl == r.ctl && error == r.error && s'.io == Deliver(s.io, r.out)
  }

  class Cmd {
    const server: IrcServer
    const clientFd: int
    const client: Client
    const msg: string
    var cmd: string
    var cmdParams: string

    constructor (server: IrcServer, msg: string, clientFd: int)
      requires clientFd in server.clients
      ensures this.server == server && this.clientFd == clientFd && this.client == server.clients[clientFd]
      ensures this.msg == msg
    {
      this.server, this.clientFd, this.msg := server, clientFd, msg;
      client := server.clients[clientFd];
      cmd, cmdParams := "", "";
    }

    /** The command's client is connected, and the server's maps agree. */
    ghost predicate Ready()
      reads server, server.clients.Values, server.channels.Values
    {
      server.Valid() && clientFd in server.clients && server.clients[clientFd] == client && Inv(server.Ctl())
    }

    // ---- registration ----

    method CmdPass() returns (error: Option<string>)
      requires Ready()
      modifies client`passDone
      ensures server.Valid()
      ensures Did(old(server.Value()), Pass(old(server.Ctl()), clientFd, cmdParams), server.Value(), error)
    {
      hide Inv, IrcServer.Valid, IrcServer.Ctl, IrcServer.IoState, Deliver;
      server.InRegistry(clientFd);
      NothingSent(server.IoState());
      if cmdParams == "" {
        return Some(Reply("461", client.nickname));
      }
      if client.passDone {
        return Some(Reply("462", client.nickname));
      }
      if cmdParams != server.password {
        return Some(Reply("464", client.nickname));
      }
      client.passDone := true;
      server.ClientEdited(client);
      return None;
    }

    method CheckNick(str: string) returns (error: Option<string>)
      requires Ready() && client.passDone
      ensures error == NickError(server.Ctl().clients, client.Data(), str)
    {
      hide Inv, IrcServer.ClientMap, IrcServer.BufferMap, IrcServer.ChannelMap, FindNick;
      var tmp := if client.nickname == "" then "guest" else client.nickname;
      if str == "" {
        return Some("431 " + tmp + " :No nickname given");
      }
      if |str| > NICK_MAX_LEN {
        return Some(Reply("432", tmp));
      }
      var i := 0;
      while i < |str|
        invariant i <= |str| && forall j | 0 <= j < i :: IsAlnum(str[j])
      {
        if !IsAlnum(str[i]) {
          assert str[i] in str;
          return Some(Reply("432", tmp));
        }
        i := i + 1;
      }
      var user := server.GetClientByNick(str);
      if user != null {
        return Some(Reply("433", tmp));
      }
      return None;
    }

    method CmdNick() returns (error: Option<string>)
      requires Ready()
      modifies server`clients, server`nickNameClientMap, server`fds, server`toRemove, server`net,
               client`nickname, client`prefix, client`nickDone, server.clients.Values`sendBuffer,
               server.channels.Values`participants, server.channels.Values`operators
      ensures server.Valid() && server.clients == old(server.clients)
      ensures Did(old(server.Value()), Nick(old(server.Ctl()), clientFd, cmdParams), server.Value(), error)
    {
      hide Inv, IrcServer.Valid, IrcServer.Ctl, IrcServer.IoState, IrcServer.ClientMap, IrcServer.BufferMap;
      hide IrcServer.ChannelMap, SortedFds, TellFds, NickError, TakeNick, Deliver, Notice, Reply, Nick;
      NothingSent(server.IoState());
      server.InRegistry(clientFd);
      NickInSteps(server.Ctl(), clientFd, cmdParams);
      if !client.passDone {
        NeedsPass(server.Ctl().clients, client.Data(), cmdParams);
        return Some(Reply("451", client.nickname));
      }
      error := CheckNick(cmdParams);
      if error.Some? {
        return error;
      }
      TakeNickAndTell(cmdParams);
    }

    /** The change itself; a registered client's is told to everyone. */
    method TakeNickAndTell(newNick: string)
      requires server.Valid() && clientFd in server.clients && server.clients[clientFd] == client && ' ' !in newNick
      modifies server`clients, server`nickNameClientMap, server`fds, server`toRemove, server`net,
               client`nickname, client`prefix, client`nickDone, server.clients.Values`sendBuffer,
               server.channels.Values`participants, server.channels.Values`operators
      ensures server.Valid() && server.clients == old(server.clients)
      ensures clientFd in old(server.Ctl()).clients
      ensures server.Ctl() == TakeNick(old(server.Ctl()), clientFd, newNick)
      ensures server.IoState() == Deliver(old(server.IoState()),
                if old(client.registered)
                then TellFds(SortedFds(old(server.Ctl()).clients.Keys),
                             Notice(":" + old(client.nickname), "NICK " + newNick))
                else [])
    {
      hide IrcServer.Valid, IrcServer.Ctl, IrcServer.IoState, SortedFds, TellFds, TakeNick, Deliver, Notice;
      NothingSent(server.IoState());
      server.InRegistry(clientFd);
      var oldNick := client.nickname;
      if client.registered {
        TakeNewNick(oldNick, newNick);
        TakenNickKeepsFds(old(server.Ctl()), clientFd, newNick);
        TellEveryone(Notice(":" + oldNick, "NICK " + newNick));
      } else {
        FirstNick(newNick);
      }
    }

    lemma TakenNickKeepsFds(k: Control, fd: int, nick: string)
      requires fd in k.clients
      ensures TakeNick(k, fd, nick).clients.Keys == k.clients.Keys
    {
    }

    method TellEveryone(message: string)
      requires server.Valid()
      modifies server`fds, server`toRemove, server`net, server.clients.Values`sendBuffer
      ensures server.Valid() && server.Ctl() == old(server.Ctl())
      ensures server.IoState() == Deliver(old(server.IoState()), TellFds(SortedFds(server.Ctl().clients.Keys), message))
    {
      hide IrcServer.Valid, IrcServer.Ctl, IrcServer.IoState, SortedFds, TellFds, Deliver;
      server.KeysAgree();
      server.BroadcastMsg(message, null, -1);
    }

    lemma NeedsPass(clients: map<int, ClientData>, c: ClientData, p: string)
      requires !c.pass
      ensures NickError(clients, c, p) == Some(Reply("451", c.nick))
    {
    }

    /** NICK before registration: the index gets the new entry, an older one stays. */
    method FirstNick(newNick: string)
      requires server.Valid() && clientFd in server.clients && server.clients[clientFd] == client
      requires !client.registered && ' ' !in newNick
      modifies server`nickNameClientMap, client`nickname, client`nickDone
      ensures server.Valid() && server.clients == old(server.clients)
      ensures clientFd in old(server.Ctl()).clients
      ensures server.Ctl() == TakeNick(old(server.Ctl()), clientFd, newNick)
              && server.IoState() == old(server.IoState())
    {
      hide IrcServer.Valid, IrcServer.Ctl, IrcServer.IoState;
      server.InRegistry(clientFd);
      client.SetNickname(newNick);
      client.nickDone := true;
      server.ClientEdited(client);
      server.AddClientByNickname(newNick, client);
    }

    /** NICK after registration: the client, both server maps and every channel it is in. */
    method TakeNewNick(oldNick: string, newNick: string)
      requires server.Valid() && clientFd in server.clients && server.clients[clientFd] == client
      requires client.registered && oldNick == client.nickname && ' ' !in newNick
      modifies server`clients, server`nickNameClientMap, client`nickname, client`prefix, client`nickDone,
               server.channels.Values`participants, server.channels.Values`operators
      ensures server.Valid() && server.clients == old(server.clients)
      ensures clientFd in old(server.Ctl()).clients
      ensures server.Ctl() == TakeNick(old(server.Ctl()), clientFd, newNick)
              && server.IoState() == old(server.IoState())
    {
      hide IrcServer.Valid, TakeNick, WithNick, WithRenamed, IrcServer.Ctl, IrcServer.IoState;
      server.InRegistry(clientFd);
      TakeNickInSteps(server.Ctl(), clientFd, newNick);
      SetNewNick(newNick);
      server.UpdateClients(client);
      server.UpdateNickNameClientMap(oldNick, newNick, client);
      RenameInChannels(oldNick, newNick);
    }

    method SetNewNick(newNick: string)
      requires server.Valid() && clientFd in server.clients && server.clients[clientFd] == client
      requires ' ' !in newNick
      modifies client`nickname, client`prefix, client`nickDone
      ensures server.Valid() && clientFd in old(server.Ctl()).clients && server.IoState() == old(server.IoState())
      ensures server.Ctl() == WithNick(old(server.Ctl()), clientFd, newNick)
    {
      hide IrcServer.Valid, IrcServer.Ctl, IrcServer.IoState;
      server.InRegistry(clientFd);
      client.SetNickname(newNick);
      client.SetPrefix();
      client.nickDone := true;
      server.ClientEdited(client);
    }

    method RenameInChannels(oldNick: string, newNick: string)
      requires server.Valid() && clientFd in server.clients && server.clients[clientFd] == client
      modifies server.channels.Values`participants, server.channels.Values`operators
      ensures server.Valid() && server.IoState() == old(server.IoState())
      ensures server.Ctl() == WithRenamed(old(server.Ctl()), oldNick, newNick, Ref(client))
    {
      hide IrcServer.Valid, SortedNames, IrcServer.Ctl, IrcServer.IoState, RenamedUpTo, Renamed, WithRenamed;
      server.SameNames();
      var names := SortedNames(server.channels.Keys);
      ghost var k, p := server.Ctl(), Ref(client);
      RenamedFromTo(k, oldNick, newNick, p);
      var i := 0;
      while i < |names|
        invariant i <= |names| && server.Valid() && server.IoState() == old(server.IoState())
        invariant server.Ctl() == RenamedUpTo(k, i, oldNick, newNick, p)
      {
        RenamedNext(k, i, oldNick, newNick, p);
        server.SameNames();
        RenameNext(names[i], oldNick, newNick);
        i := i + 1;
      }
    }

    method RenameNext(name: string, oldNick: string, newNick: string)
      requires server.Valid() && clientFd in server.clients && server.clients[clientFd] == client
      requires name in server.channels
      modifies server.channels.Values`participants, server.channels.Values`operators
      ensures server.Valid() && server.IoState() == old(server.IoState()) && name in old(server.Ctl()).channels
      ensures var k := old(server.Ctl());
              server.Ctl() == k.(
                channels := k.channels[name := Renamed(k.channels[name], oldNick, newNick, Ref(client))])
    {
      hide IrcServer.Valid, IrcServer.Ctl, IrcServer.IoState, Renamed;
      server.InRegistry(clientFd);
      server.IsListed(name);
      server.RenameInChannel(server.channels[name], oldNick, newNick, client);
    }

    method CheckUsername(str: string) returns (error: Option<string>)
      ensures error == if UsernameOk(str, client.nickname) then None else Some(Reply("ERR", "USER"))
    {
      var bad := Some(Reply("ERR", "USER"));
      if str == "" && client.nickname == "" {
        return bad;
      }
      if |str| > USERNAME_MAX_LEN {
        return bad;
      }
      var i := 0;
      while i < |str|
        invariant i <= |str| && forall j | 0 <= j < i :: !IsCntrl(str[j]) && str[j] != ' ' && str[j] != '@'
      {
        if IsCntrl(str[i]) || str[i] == ' ' || str[i] == '@' {
          assert str[i] in str;
          return bad;
        }
        i := i + 1;
      }
      return None;
    }

    method CheckRealname(str: string) returns (error: Option<string>)
      ensures error == if RealnameOk(str, client.nickname) then None else Some(Reply("ERR", "USER"))
    {
      var bad := Some(Reply("ERR", "USER"));
      if str == "" && client.nickname == "" {
        return bad;
      }
      if |str| > REALNAME_MAX_LEN {
        return bad;
      }
      var i := 0;
      while i < |str|
        invariant i <= |str| && forall j | 0 <= j < i :: !IsCntrl(str[j])
      {
        if IsCntrl(str[i]) {
          assert str[i] in str;
          return bad;
        }
        i := i + 1;
      }
      return None;
    }

    /** The fourth token without its ':' and all that follow. */
    method JoinRealname(t: seq<string>) returns (realname: string)
      requires |t| >= 4 && t[3] != ""
      ensures realname == t[3][1..] + Spaced(t[4..])
    {
      hide Spaced;
      realname := t[3][1..];
      var i := 4;
      while i < |t|
        invariant 4 <= i <= |t| && realname + Spaced(t[i..]) == t[3][1..] + Spaced(t[4..])
      {
        SpacedMore(t, i, realname);
        realname := realname + " " + t[i];
        i := i + 1;
      }
      SpacedEnd(t, realname);
    }

    /** Stores what USER says; the username is already stored when the rest turns out wrong. */
    method TakeUserData(t: seq<string>) returns (error: Option<string>)
      requires |t| >= 4 && t[0] != "" && t[3] != ""
      modifies client`username, client`realname
      ensures var nick, realname := client.nickname, t[3][1..] + Spaced(t[4..]);
              && error == (if !UsernameOk(t[0], nick) then Some(Reply("ERR", "USER"))
                           else if t[3][0] != ':' then Some(Reply("461", nick))
                           else if !RealnameOk(realname, nick) then Some(Reply("ERR", "USER"))
                           else None)
              && client.username == (if UsernameOk(t[0], nick) then t[0] else old(client.username))
              && client.realname == if error.None? then realname else old(client.realname)
    {
      hide UsernameOk, RealnameOk, Spaced, Reply;
      error := CheckUsername(t[0]);
      if error.Some? {
        return error;
      }
      client.username := t[0];
      if t[3][0] != ':' {
        return Some(Reply("461", client.nickname));
      }
      var realname := JoinRealname(t);
      error := CheckRealname(realname);
      if error.Some? {
        return error;
      }
      client.realname := realname;
    }

    method CmdUser() returns (error: Option<string>)
      requires Ready()
      modifies client`username, client`realname, client`prefix, client`userDone, client`registered,
               server`fds, server`toRemove, server`net, server.clients.Values`sendBuffer
      ensures server.Valid()
      ensures Did(old(server.Value()), User(old(server.Ctl()), clientFd, cmdParams), server.Value(), error)
    {
      hide Inv, IrcServer.Valid, IrcServer.Ctl, IrcServer.IoState, Deliver, Tokens, Spaced, UsernameOk, RealnameOk,
           Reply;
      hide Welcome, UserPrefix;
      server.InRegistry(clientFd);
      NothingSent(server.IoState());
      if client.registered {
        return Some(Reply("462", client.nickname));
      }
      if !client.passDone {
        return Some(Reply("461", client.nickname));
      }
      var t := Tokens(cmdParams);
      if |t| < 4 {
        return Some(Reply("461", client.nickname));
      }
      assert t[0] in t && t[3] in t;
      error := TakeUserData(t);
      if error.None? {
        client.SetPrefix();
        client.userDone := true;
        if client.passDone && client.nickDone && client.userDone {
          client.registered := true;
        }
      }
      server.ClientEdited(client);
      if error.None? && client.registered {
        PrintWelcome();
      }
    }

    method PrintWelcome()
      requires server.Valid()
      modifies server`fds, server`toRemove, server`net, server.clients.Values`sendBuffer
      ensures server.Valid() && server.Ctl() == old(server.Ctl())
      ensures server.IoState() == Deliver(old(server.IoState()), Welcome(clientFd, client.nickname))
    {
      hide IrcServer.Valid, IrcServer.Ctl, IrcServer.IoState, PollTable.CastMsg, Deliver, Welcome, Reply;
      var nick := client.nickname;
      WelcomeDelivered(server.IoState(), clientFd, nick);
      server.CastMsg(clientFd, Reply("001", nick));
      server.CastMsg(clientFd, Reply("002", nick));
      server.CastMsg(clientFd, Reply("003", nick));
      server.CastMsg(clientFd, Reply("004", nick));
      server.CastMsg(clientFd, Reply("375", nick));
      server.CastMsg(clientFd, Reply("376", nick));
    }

    // ---- JOIN ----

    static method JoinSplit(params: string) returns (res: seq<string>)
      ensures res == Fields(params, "")
    {
      hide Fields;
      res := [];
      var tmp := "";
      var i := 0;
      FieldsEnd(params, tmp);
      while i < |params|
        invariant i <= |params| && res + Fields(params[i..], tmp) == Fields(params, "")
      {
        FieldsStep(params, i, tmp);
        var c := params[i];
        if c == ',' || c == ' ' {
          if tmp != "" {
            res := res + [tmp];
            tmp := "";
          }
        } else {
          tmp := tmp + [c];
        }
        i := i + 1;
      }
      FieldsEnd(params, tmp);
      if tmp != "" {
        res := res + [tmp];
      }
    }

    /** Channel names and keys, apart. */
    static method Separate(tokens: seq<string>) returns (names: seq<string>, keys: seq<string>)
      ensures names == Select(tokens, true) && keys == Select(tokens, false)
    {
      hide Select;
      names, keys := [], [];
      var i := 0;
      assert tokens[0..] == tokens;
      while i < |tokens|
        invariant i <= |tokens|
        invariant names + Select(tokens[i..], true) == Select(tokens, true)
        invariant keys + Select(tokens[i..], false) == Select(tokens, false)
      {
        SelectStep(tokens, i, true);
        SelectStep(tokens, i, false);
        if StartsWith(tokens[i], '#') {
          names := names + [tokens[i]];
        } else {
          keys := keys + [tokens[i]];
        }
        i := i + 1;
      }
      SelectNone(tokens);
    }

    static lemma SelectNone(tokens: seq<string>)
      ensures Select(tokens[|tokens|..], true) == [] == Select(tokens[|tokens|..], false)
    {
    }

    static method IsValidChannelName(channel: string) returns (ok: bool)
      ensures ok == ValidChannelName(channel)
    {
      if |channel| > 200 || !StartsWith(channel, '#') {
        return false;
      }
      var j := 1;
      while j < |channel|
        invariant 1 <= j <= |channel| && forall i | 1 <= i < j :: channel[i] != ' ' && !IsCntrl(channel[i])
      {
        if channel[j] == ' ' || IsCntrl(channel[j]) {
          return false;
        }
        j := j + 1;
      }
      return true;
    }

    /** A channel that does not exist yet gets created with its first operator, who is not in it so far. */
    method CreateChannel(chName: string, chKey: string)
      requires Ready() && chName !in server.channels
      modifies server`channels, server`created
      ensures server.Valid() && server.IoState() == old(server.IoState())
      ensures server.Ctl() == Found(old(server.Ctl()), clientFd, chName, chKey)
      ensures chName in server.channels && server.channels == old(server.channels)[chName := server.channels[chName]]
      ensures fresh(server.channels[chName]) && server.channels[chName].participants == map[]
    {
      hide Inv, IrcServer.Valid, IrcServer.Ctl, IrcServer.IoState;
      server.InRegistry(clientFd);
      var noKey := chKey == "x" || chKey == "";
      server.SetChannels(chName, if noKey then "" else chKey, if noKey then None else Some('k'));
      AddFirstOperator(server.channels[chName], chName);
      server.InRegistry(clientFd);
    }

    method AddFirstOperator(ch: Channel, chName: string)
      requires server.Valid() && clientFd in server.clients && server.clients[clientFd] == client
      requires chName in server.channels && server.channels[chName] == ch
      modifies ch`operators
      ensures server.Valid() && server.IoState() == old(server.IoState())
      ensures chName in old(server.Ctl()).channels
      ensures var k := old(server.Ctl());
              server.Ctl() == k.(channels := k.channels[chName := k.channels[chName].(
                operators := k.channels[chName].operators[client.nickname := Ref(client)])])
    {
      hide IrcServer.Ctl, IrcServer.IoState;
      server.IsListed(chName);
      ch.AddOperator(client.nickname, client);
      server.ChannelEdited(ch);
    }

    /** The three checks: invitation, key, room. */
    method CheckJoin(ch: Channel, chKey: string) returns (error: Option<string>)
      requires 'l' in ch.modes ==> ch.limit.Some?
      ensures error == JoinError(ch.Data(), client.nickname, chKey)
    {
      hide Reply;
      var nick := client.nickname;
      if 'i' in ch.modes && nick !in ch.invited {
        return Some(Reply("473", nick));
      }
      if 'k' in ch.modes && (chKey == "" || chKey != ch.key) {
        return Some(Reply("475", nick));
      }
      SameCount(ch.participants);
      if 'l' in ch.modes && |ch.participants| >= ch.limit.value {
        return Some(Reply("471", nick));
      }
      return None;
    }

    static lemma SameCount(m: map<string, Client>)
      ensures |Refs(m)| == |m|
    {
      assert Refs(m).Keys == m.Keys;
      assert |m| == |m.Keys| && |Refs(m)| == |Refs(m).Keys|;
    }

    /** In, announced, told the names and the topic, and the invitation used up. */
    method EnterChannel(ch: Channel)
      requires server.Valid() && clientFd in server.clients && server.clients[clientFd] == client
      requires ch.name in server.channels && server.channels[ch.name] == ch && ch.NamesReady(server.Ctl())
      modifies ch`participants, ch`invited, server`fds, server`toRemove, server`net, server.clients.Values`sendBuffer
      ensures server.Valid()
      ensures clientFd in old(server.Ctl()).clients && ch.name in old(server.Ctl()).channels
      ensures var k := old(server.Ctl()); var d := Joined(k.channels[ch.name], client.nickname, Ref(client));
              && server.Ctl() == k.(channels := k.channels[ch.name := d])
              && server.IoState() == Deliver(old(server.IoState()), JoinNotices(k, clientFd, ch.name, d))
    {
      hide IrcServer.Valid, IrcServer.Ctl, IrcServer.IoState, JoinNotices, Deliver, Insert, Channel.NamesReady;
      server.IsListed(ch.name);
      server.InRegistry(clientFd);
      ghost var k := server.Ctl();
      var isInvitedMode := 'i' in ch.modes;
      AddTo(ch);
      AnnounceJoin(ch, k, Joined(k.channels[ch.name], client.nickname, Ref(client)));
      if isInvitedMode {
        UseInvitation(ch);
      }
    }

    method AddTo(ch: Channel)
      requires server.Valid() && clientFd in server.clients && server.clients[clientFd] == client
      requires ch.name in server.channels && server.channels[ch.name] == ch && ch.NamesReady(server.Ctl())
      modifies ch`participants
      ensures server.Valid() && server.IoState() == old(server.IoState()) && ch.name in old(server.Ctl()).channels
      ensures ch.NamesReady(server.Ctl())
      ensures var k := old(server.Ctl()); var d := k.channels[ch.name];
              server.Ctl() == k.(channels := k.channels[ch.name := d.(
                participants := Insert(d.participants, client.nickname, Ref(client)))])
    {
      hide IrcServer.Ctl, IrcServer.IoState;
      server.IsListed(ch.name);
      server.InRegistry(clientFd);
      ch.AddParticipant(client.nickname, client);
      server.ChannelEdited(ch);
    }

    method UseInvitation(ch: Channel)
      requires server.Valid() && ch.name in server.channels && server.channels[ch.name] == ch
      modifies ch`invited
      ensures server.Valid() && server.IoState() == old(server.IoState()) && ch.name in old(server.Ctl()).channels
      ensures var k := old(server.Ctl()); var d := k.channels[ch.name];
              server.Ctl() == k.(channels := k.channels[ch.name := d.(invited := d.invited - {client.nickname})])
    {
      hide IrcServer.Ctl, IrcServer.IoState;
      server.IsListed(ch.name);
      ch.RemoveInvited(client.nickname);
      server.ChannelEdited(ch);
    }

    /** The notices are those for any registry that shows the same clients, participants and topic. */
    method AnnounceJoin(ch: Channel, ghost k: Control, ghost d: ChannelData)
      requires server.Valid() && clientFd in server.clients && server.clients[clientFd] == client
      requires ch.name in server.channels && server.channels[ch.name] == ch && ch.NamesReady(server.Ctl())
      requires k.clients == server.Ctl().clients && clientFd in k.clients && ch.name in server.Ctl().channels
      requires var e := server.Ctl().channels[ch.name];
               d.participants == e.participants && d.operators == e.operators && d.topic == e.topic
      modifies server`fds, server`toRemove, server`net, server.clients.Values`sendBuffer
      ensures server.Valid() && server.Ctl() == old(server.Ctl())
      ensures server.IoState() == Deliver(old(server.IoState()), JoinNotices(k, clientFd, ch.name, d))
    {
      hide JoinNotices;
      server.IsListed(ch.name);
      SameNotices(server.Ctl(), k, clientFd, ch.name, ch.Data(), d);
      SendJoinNotices(ch);
    }

    method SendJoinNotices(ch: Channel)
      requires server.Valid() && clientFd in server.clients && server.clients[clientFd] == client
      requires ch.name in server.channels && server.channels[ch.name] == ch && ch.NamesReady(server.Ctl())
      modifies server`fds, server`toRemove, server`net, server.clients.Values`sendBuffer
      ensures server.Valid() && server.Ctl() == old(server.Ctl())
      ensures clientFd in server.Ctl().clients
      ensures server.IoState()
              == Deliver(old(server.IoState()), JoinNotices(server.Ctl(), clientFd, ch.name, ch.Data()))
    {
      hide IrcServer.Valid, IrcServer.Ctl, IrcServer.IoState, Deliver, Broadcast, NamesLine, PollTable.CastMsg, Reply,
           Notice;
      server.InRegistry(clientFd);
      ghost var io := server.IoState();
      var nick := client.nickname;
      var join := Notice(client.prefix, "JOIN " + ch.name);
      server.BroadcastMsg(join, ch, -1);
      var names := ch.GetParticipantNameStr(server.Ctl());
      var list := Notice(":ircserv 353 " + nick + " = " + ch.name, ":" + names);
      server.CastMsg(clientFd, list);
      server.CastMsg(clientFd, Reply("366", nick));
      var topic := if ch.topic == "" then "331" else "332";
      server.CastMsg(clientFd, Reply(topic, nick));
      TellThree(io, Broadcast(ch.Data(), join, -1), Tell(clientFd, list), Tell(clientFd, Reply("366", nick)),
                Tell(clientFd, Reply(topic, nick)));
    }

    /** Channels are old ones or have just been made. */
    twostate predicate ChannelsGrow()
      reads server
    {
      forall n | n in server.channels :: fresh(server.channels[n]) || server.channels[n] in old(server.channels.Values)
    }

    /** The channel to join, made if need be. */
    method OpenChannel(chName: string, chKey: string) returns (ch: Channel)
      requires Ready()
      modifies server`channels, server`created
      ensures server.Valid() && ChannelsGrow() && server.IoState() == old(server.IoState())
      ensures chName in server.channels && server.channels[chName] == ch && ch.NamesReady(server.Ctl())
      ensures 'l' in ch.modes ==> ch.limit.Some?
      ensures fresh(ch) || ch in old(server.channels.Values)
      ensures var k := old(server.Ctl());
              server.Ctl() == if chName in k.channels then k else Found(k, clientFd, chName, chKey)
    {
      hide Inv, IrcServer.Valid, IrcServer.Ctl, IrcServer.IoState;
      server.KeysAgree();
      if chName !in server.channels {
        CreateChannel(chName, chKey);
        server.IsListed(chName);
      } else {
        server.IsListed(chName);
        server.NamesAreCurrent(server.channels[chName]);
      }
      return server.channels[chName];
    }

    method JoinChannel(chName: string, chKey: string) returns (error: Option<string>)
      requires Ready() && client.registered
      modifies server`channels, server`created, server`fds, server`toRemove, server`net,
               server.channels.Values`participants, server.channels.Values`invited, server.clients.Values`sendBuffer
      ensures server.Valid() && ChannelsGrow()
      ensures Did(old(server.Value()), JoinOne(old(server.Ctl()), clientFd, chName, chKey), server.Value(), error)
    {
      hide Inv, IrcServer.Valid, IrcServer.Ctl, IrcServer.IoState, Deliver, JoinNotices, JoinError, Found, Joined;
      hide Channel.NamesReady, JoinOne;
      ghost var k := server.Ctl();
      server.InRegistry(clientFd);
      NothingSent(server.IoState());
      JoinOneInSteps(k, clientFd, chName, chKey);
      var ch := OpenChannel(chName, chKey);
      server.IsListed(chName);
      error := TryToEnter(ch, chKey);
    }

    /** In, unless one of the checks refuses. */
    method TryToEnter(ch: Channel, chKey: string) returns (error: Option<string>)
      requires server.Valid() && clientFd in server.clients && server.clients[clientFd] == client
      requires ch.name in server.channels && server.channels[ch.name] == ch && ch.NamesReady(server.Ctl())
      requires 'l' in ch.modes ==> ch.limit.Some?
      modifies ch`participants, ch`invited, server`fds, server`toRemove, server`net, server.clients.Values`sendBuffer
      ensures server.Valid()
      ensures clientFd in old(server.Ctl()).clients && ch.name in old(server.Ctl()).channels
      ensures var k := old(server.Ctl()); var was := k.channels[ch.name];
              error == JoinError(was, client.nickname, chKey)
              && if error.Some? then server.Value() == old(server.Value())
                 else
                   var d := Joined(was, client.nickname, Ref(client));
                   && server.Ctl() == k.(channels := k.channels[ch.name := d])
                   && server.IoState() == Deliver(old(server.IoState()), JoinNotices(k, clientFd, ch.name, d))
    {
      hide IrcServer.Valid, IrcServer.Ctl, IrcServer.IoState, Deliver, JoinNotices, JoinError, Joined,
           Channel.NamesReady;
      server.InRegistry(clientFd);
      server.IsListed(ch.name);
      error := CheckJoin(ch, chKey);
      if error.None? {
        EnterChannel(ch);
      }
    }

    method JoinChannels(names: seq<string>, keys: seq<string>) returns (error: Option<string>)
      requires Ready() && client.registered
      modifies server`channels, server`created, server`fds, server`toRemove, server`net,
               server.channels.Values`participants, server.channels.Values`invited, server.clients.Values`sendBuffer
      ensures server.Valid() && ChannelsGrow()
      ensures Did(old(server.Value()), JoinAll(old(server.Ctl()), clientFd, names, keys), server.Value(), error)
    {
      hide Inv, IrcServer.Valid, IrcServer.Ctl, IrcServer.IoState, Deliver, JoinOne, JoinAll, KeysFrom;
      ghost var k, io := server.Ctl(), server.IoState();
      server.InRegistry(clientFd);
      ghost var all := JoinAll(k, clientFd, names, keys);
      JoinNone(k, clientFd, names, keys);
      var i := 0;
      while i < |names|
        invariant i <= |names| && Ready() && ChannelsGrow()
        invariant server.Ctl().clients == k.clients
        invariant var rest := JoinAll(server.Ctl(), clientFd, names[i..], KeysFrom(keys, i));
                  all.ctl == rest.ctl && all.error == rest.error
                  && Deliver(io, all.out) == Deliver(server.IoState(), rest.out)
      {
        server.InRegistry(clientFd);
        JoinStep(server.Ctl(), clientFd, names, keys, i, server.IoState());
        error := JoinChannel(names[i], if i < |keys| then keys[i] else "");
        if error.Some? {
          return error;
        }
        i := i + 1;
      }
      JoinNone(server.Ctl(), clientFd, names, keys);
      NothingSent(server.IoState());
      return None;
    }

    method AllNamesValid(names: seq<string>) returns (ok: bool)
      ensures ok == AllValidNames(names)
    {
      var i := 0;
      while i < |names|
        invariant i <= |names| && forall j | 0 <= j < i :: ValidChannelName(names[j])
      {
        ok := IsValidChannelName(names[i]);
        if !ok {
          assert names[i] in names;
          return;
        }
        i := i + 1;
      }
      return true;
    }

    method CmdJoin() returns (error: Option<string>)
      requires Ready()
      modifies server`channels, server`created, server`fds, server`toRemove, server`net,
               server.channels.Values`participants, server.channels.Values`invited, server.clients.Values`sendBuffer
      ensures server.Valid() && ChannelsGrow()
      ensures Did(old(server.Value()), Join(old(server.Ctl()), clientFd, cmdParams), server.Value(), error)
    {
      hide Inv, IrcServer.Valid, IrcServer.Ctl, IrcServer.IoState, Deliver, JoinAll, Select, Fields, AllValidNames,
           Reply;
      hide PollTable.CastMsg;
      server.InRegistry(clientFd);
      NothingSent(server.IoState());
      if !client.registered {
        TellOne(server.IoState(), Tell(clientFd, Reply("451", client.nickname)));
        server.CastMsg(clientFd, Reply("451", client.nickname));
        return None;
      }
      var joinTokens := JoinSplit(cmdParams);
      var names, keys := Separate(joinTokens);
      if |names| < |keys| {
        return Some(Reply("461", client.nickname));
      }
      var ok := AllNamesValid(names);
      if !ok {
        return Some(Reply("476", client.nickname));
      }
      error := JoinChannels(names, keys);
    }

    // ---- PART and KICK ----

    /** Fields up to a delimiter; a field that starts with ':' swallows the rest. */
    static method Split(params: string, delim: char) returns (res: seq<string>)
      ensures res == SplitFrom(params, delim, 0)
    {
      hide Find, SplitFrom;
      res := [];
      var start := 0;
      var pos := Find(params, delim, start);
      while pos != |params|
        invariant start <= |params| && pos == Find(params, delim, start)
        invariant res + SplitFrom(params, delim, start) == SplitFrom(params, delim, 0)
        decreases |params| - start
      {
        SplitStep(params, delim, start);
        if params[start] == ':' {
          return res + [params[start + 1..]];
        }
        res := res + [params[start..pos]];
        start := pos + 1;
        pos := Find(params, delim, start);
      }
      SplitStep(params, delim, start);
      if start < |params| {
        res := res + [params[start..]];
      }
    }

    /** Someone leaves; a channel that gets empty goes. */
    method LeaveChannel(ch: Channel, nick: string)
      requires server.Valid() && ch.name in server.channels && server.channels[ch.name] == ch
      modifies server`channels, ch`participants, ch`operators
      ensures server.Valid() && server.IoState() == old(server.IoState())
      ensures server.channels == old(server.channels) || server.channels == old(server.channels) - {ch.name}
      ensures ch.name in old(server.Ctl()).channels && server.Ctl() == Leave(old(server.Ctl()), ch.name, nick)
    {
      hide IrcServer.Ctl, IrcServer.IoState;
      server.IsListed(ch.name);
      ghost var m := server.Ctl().channels;
      ch.Purge(nick);
      server.ChannelEdited(ch);
      assert m[ch.name := ch.Data()] - {ch.name} == m - {ch.name};
      assert ch.participants == map[] <==> ch.Data().participants == map[] by { NoParticipants(ch.participants); }
      if ch.participants == map[] {
        server.RemoveChannel(ch.name);
      }
    }

    static lemma NoParticipants(m: map<string, Client>)
      ensures m == map[] <==> Refs(m) == map[]
    {
    }

    /** The channel hears of it, then the one who goes is taken out. */
    method AnnounceAndLeave(ch: Channel, message: string, nick: string)
      requires server.Valid() && ch.name in server.channels && server.channels[ch.name] == ch
      modifies server`channels, server`fds, server`toRemove, server`net, ch`participants, ch`operators,
               server.clients.Values`sendBuffer
      ensures server.Valid() && ChannelsGrow() && ch.name in old(server.Ctl()).channels
      ensures server.Ctl() == Leave(old(server.Ctl()), ch.name, nick)
      ensures server.IoState()
              == Deliver(old(server.IoState()), Broadcast(old(server.Ctl()).channels[ch.name], message, -1))
    {
      hide IrcServer.Valid, IrcServer.Ctl, IrcServer.IoState, Deliver, Leave, Broadcast, PollTable.CastMsg;
      server.IsListed(ch.name);
      server.BroadcastMsg(message, ch, -1);
      LeaveChannel(ch, nick);
    }

    method Say(text: string)
      requires server.Valid()
      modifies server`fds, server`toRemove, server`net, server.clients.Values`sendBuffer
      ensures server.Valid() && server.Ctl() == old(server.Ctl())
      ensures server.IoState() == Deliver(old(server.IoState()), [Tell(clientFd, text)])
    {
      hide IrcServer.Valid, IrcServer.Ctl, IrcServer.IoState, Deliver, PollTable.CastMsg;
      TellOne(server.IoState(), Tell(clientFd, text));
      server.CastMsg(clientFd, text);
    }

    /** The text PART answers with when the client cannot leave this channel. */
    method CheckPart(chName: string) returns (refusal: Option<string>)
      requires server.Valid() && clientFd in server.clients && server.clients[clientFd] == client
      ensures clientFd in server.Ctl().clients
      ensures var k := server.Ctl();
              match refusal
              case Some(text) => PartOne(k, clientFd, chName) == Done(k, [Tell(clientFd, text)])
              case None => chName in server.channels && chName in k.channels
                           && PartOne(k, clientFd, chName) == Done(Leave(k, chName, client.nickname),
                                Broadcast(k.channels[chName], Notice(client.prefix, "PART " + chName), -1))
    {
      hide IrcServer.Valid, IrcServer.Ctl, Leave, Broadcast, Reply, Notice;
      server.InRegistry(clientFd);
      server.KeysAgree();
      var nick := client.nickname;
      var ok := IsValidChannelName(chName);
      if !ok {
        return Some(Reply("476", nick));
      }
      if chName !in server.channels {
        return Some(Reply("403", nick));
      }
      server.IsListed(chName);
      if !server.channels[chName].IsParticipant(nick) {
        return Some(Reply("442", nick));
      }
      return None;
    }

    method PartChannel(chName: string)
      requires server.Valid() && clientFd in server.clients && server.clients[clientFd] == client
      modifies server`channels, server`fds, server`toRemove, server`net,
               server.channels.Values`participants, server.channels.Values`operators, server.clients.Values`sendBuffer
      ensures server.Valid() && ChannelsGrow()
      ensures Did(old(server.Value()), PartOne(old(server.Ctl()), clientFd, chName), server.Value(), None)
    {
      hide IrcServer.Valid, IrcServer.Ctl, IrcServer.IoState, Deliver, Leave, Broadcast, Reply, Notice, PartOne;
      var refusal := CheckPart(chName);
      if refusal.Some? {
        Say(refusal.value);
      } else {
        server.IsListed(chName);
        AnnounceAndLeave(server.channels[chName], Notice(client.prefix, "PART " + chName), client.nickname);
      }
    }

    method CmdPart() returns (error: Option<string>)
      requires Ready()
      modifies server`channels, server`fds, server`toRemove, server`net,
               server.channels.Values`participants, server.channels.Values`operators, server.clients.Values`sendBuffer
      ensures server.Valid() && ChannelsGrow()
      ensures Did(old(server.Value()), Part(old(server.Ctl()), clientFd, cmdParams), server.Value(), error)
    {
      hide Inv, IrcServer.Valid, IrcServer.Ctl, IrcServer.IoState, Deliver, PartOne, PartAll, SplitFrom, Reply;
      ghost var k, io := server.Ctl(), server.IoState();
      server.InRegistry(clientFd);
      NothingSent(io);
      if !client.registered {
        return Some(Reply("451", client.nickname));
      }
      var names := Split(cmdParams, ',');
      if names == [] {
        return Some(Reply("461", client.nickname));
      }
      PartNone(k, clientFd, names);
      ghost var all := PartAll(k, clientFd, names);
      var i := 0;
      while i < |names|
        invariant i <= |names| && server.Valid() && ChannelsGrow()
        invariant server.Ctl().clients == k.clients
        invariant var rest := PartAll(server.Ctl(), clientFd, names[i..]);
                  all.ctl == rest.ctl && all.error == rest.error
                  && Deliver(io, all.out) == Deliver(server.IoState(), rest.out)
      {
        PartStep(server.Ctl(), clientFd, names, i, server.IoState());
        PartChannel(names[i]);
        i := i + 1;
      }
      PartNone(server.Ctl(), clientFd, names);
      NothingSent(server.IoState());
      return None;
    }

    method CheckKick(params: seq<string>) returns (error: Option<string>)
      requires Ready() && params == SplitFrom(cmdParams, ' ', 0)
      ensures clientFd in server.Ctl().clients
      ensures var k, r := server.Ctl(), Kick(server.Ctl(), clientFd, cmdParams);
              match error
              case Some(e) => r == Fail(k, [], e)
              case None => |params| >= 2 && params[0] in server.channels && params[0] in k.channels
                           && r == Done(Leave(k, params[0], params[1]),
                                Broadcast(k.channels[params[0]],
                                    Notice(client.prefix, "KICK " + params[0] + " " + params[1]), -1))
    {
      hide Inv, IrcServer.Valid, IrcServer.Ctl, Leave, Broadcast, SplitFrom, Reply, Notice;
      server.InRegistry(clientFd);
      server.KeysAgree();
      var nick := client.nickname;
      if !client.registered {
        return Some(Reply("451", nick));
      }
      if |params| < 2 || |params| > 3 {
        return Some(Reply("461", nick));
      }
      var chName, target := params[0], params[1];
      if !StartsWith(chName, '#') {
        return Some(Reply("476", nick));
      }
      if chName !in server.channels {
        return Some(Reply("403", nick));
      }
      server.IsListed(chName);
      var ch := server.channels[chName];
      if !ch.IsParticipant(nick) {
        return Some(Reply("442", nick));
      }
      if !ch.IsOperator(nick) {
        return Some(Reply("482", nick));
      }
      if !ch.IsParticipant(target) {
        return Some(Reply("441", nick));
      }
      return None;
    }

    method CmdKick() returns (error: Option<string>)
      requires Ready()
      modifies server`channels, server`fds, server`toRemove, server`net,
               server.channels.Values`participants, server.channels.Values`operators, server.clients.Values`sendBuffer
      ensures server.Valid() && ChannelsGrow()
      ensures Did(old(server.Value()), Kick(old(server.Ctl()), clientFd, cmdParams), server.Value(), error)
    {
      hide Inv, IrcServer.Valid, IrcServer.Ctl, IrcServer.IoState, Deliver, Leave, Broadcast, SplitFrom, Notice, Kick;
      NothingSent(server.IoState());
      var params := Split(cmdParams, ' ');
      error := CheckKick(params);
      if error.None? {
        server.IsListed(params[0]);
        AnnounceAndLeave(server.channels[params[0]], Notice(client.prefix, "KICK " + params[0] + " " + params[1]),
            params[1]);
      }
    }

    // ---- INVITE and TOPIC ----

    method CheckInviter(params: seq<string>) returns (error: Option<string>)
      requires Ready()
      ensures error == InviterError(server.Ctl(), client.Data(), params)
      ensures error.None? ==> params[1] in server.channels
    {
      hide Inv, IrcServer.Valid, IrcServer.Ctl, Reply;
      server.KeysAgree();
      var nick := client.nickname;
      if !client.registered {
        return Some(Reply("451", nick));
      }
      if |params| != 2 {
        return Some(Reply("461", nick));
      }
      var chName := params[1];
      var ok := IsValidChannelName(chName);
      if !ok {
        return Some(Reply("476", nick));
      }
      if chName !in server.channels {
        return Some(Reply("401", nick));
      }
      server.IsListed(chName);
      var ch := server.channels[chName];
      if !ch.IsParticipant(nick) {
        return Some(Reply("442", nick));
      }
      if 'i' in ch.modes && !ch.IsOperator(nick) {
        return Some(Reply("482", nick));
      }
      return None;
    }

    method CheckInvite(params: seq<string>) returns (error: Option<string>, target: Client?)
      requires Ready()
      ensures error == InviteError(server.Ctl(), client.Data(), params)
      ensures error.None? ==> params[1] in server.channels && target != null
      ensures error.None? ==> target.fd == FindNick(server.Ctl().clients, params[0]).value
    {
      hide Inv, IrcServer.Valid, IrcServer.Ctl, Reply, FindNick, InviterError;
      target := null;
      error := CheckInviter(params);
      if error.Some? {
        return error, target;
      }
      target := server.GetClientByNick(params[0]);
      if target == null {
        return Some(Reply("401", client.nickname)), target;
      }
      server.InRegistry(FindNick(server.Ctl().clients, params[0]).value);
      server.IsListed(params[1]);
      if server.channels[params[1]].IsParticipant(params[0]) {
        return Some(Reply("443", params[0])), target;
      }
      return None, target;
    }

    method AddInvitation(ch: Channel, nick: string)
      requires server.Valid() && ch.name in server.channels && server.channels[ch.name] == ch
      modifies ch`invited
      ensures server.Valid() && server.IoState() == old(server.IoState())
      ensures ch.name in old(server.Ctl()).channels && server.Ctl() == InviteTo(old(server.Ctl()), ch.name, nick)
    {
      hide IrcServer.Ctl, IrcServer.IoState;
      server.IsListed(ch.name);
      if nick !in ch.invited {
        ch.AddInvited(nick);
      }
      server.ChannelEdited(ch);
      assert nick in old(ch.invited) ==> old(ch.invited) + {nick} == old(ch.invited);
    }

    method CmdInvite() returns (error: Option<string>)
      requires Ready()
      modifies server`fds, server`toRemove, server`net, server.channels.Values`invited, server.clients.Values`sendBuffer
      ensures server.Valid()
      ensures Did(old(server.Value()), Invite(old(server.Ctl()), clientFd, cmdParams), server.Value(), error)
    {
      hide Inv, IrcServer.Valid, IrcServer.Ctl, IrcServer.IoState, Deliver, SplitFrom, Reply, Notice, FindNick,
           InviteError;
      hide InviteTo, PollTable.CastMsg, Invite;
      server.InRegistry(clientFd);
      InviteInSteps(server.Ctl(), clientFd, cmdParams);
      NothingSent(server.IoState());
      var params := Split(cmdParams, ' ');
      var target;
      error, target := CheckInvite(params);
      if error.Some? {
        return error;
      }
      GrantInvitation(params[0], params[1], target.fd);
    }

    method GrantInvitation(nick: string, chName: string, targetFd: int)
      requires server.Valid() && chName in server.channels
      modifies server`fds, server`toRemove, server`net, server.channels.Values`invited, server.clients.Values`sendBuffer
      ensures server.Valid() && chName in old(server.Ctl()).channels
      ensures server.Ctl() == InviteTo(old(server.Ctl()), chName, nick)
      ensures server.IoState() == Deliver(old(server.IoState()),
                [Tell(targetFd, Notice(client.prefix, "INVITE " + nick + " " + chName)),
                    Tell(clientFd, Reply("341", client.nickname))])
    {
      hide IrcServer.Valid, IrcServer.Ctl, IrcServer.IoState, Deliver, Reply, Notice, InviteTo;
      server.IsListed(chName);
      AddInvitation(server.channels[chName], nick);
      SayBoth(targetFd, Notice(client.prefix, "INVITE " + nick + " " + chName), Reply("341", client.nickname));
    }

    /** One text to someone, then one to the client itself. */
    method SayBoth(fd: int, text: string, reply: string)
      requires server.Valid()
      modifies server`fds, server`toRemove, server`net, server.clients.Values`sendBuffer
      ensures server.Valid() && server.Ctl() == old(server.Ctl())
      ensures server.IoState() == Deliver(old(server.IoState()), [Tell(fd, text), Tell(clientFd, reply)])
    {
      hide IrcServer.Valid, IrcServer.Ctl, IrcServer.IoState, Deliver, PollTable.CastMsg;
      TellTwo(server.IoState(), Tell(fd, text), Tell(clientFd, reply));
      server.CastMsg(fd, text);
      server.CastMsg(clientFd, reply);
    }

    static method TopicSplit(params: string) returns (res: seq<string>)
      ensures res == TopicFields(params)
    {
      hide TopicFields;
      res := [];
      var paramCopy := params;
      var i := 0;
      while i < |paramCopy|
        invariant i <= |paramCopy| && ' ' !in paramCopy[..i]
        invariant res + TopicFields(paramCopy) == TopicFields(params)
        decreases |paramCopy| - i
      {
        if paramCopy[i] == ' ' {
          TopicStep(paramCopy, i);
          if i + 1 < |paramCopy| && paramCopy[i + 1] == ':' {
            return res + [paramCopy[..i], paramCopy[i + 1..]];
          }
          res := res + [paramCopy[..i]];
          paramCopy := paramCopy[i + 1..];
          i := 0;
        } else {
          assert paramCopy[..i + 1] == paramCopy[..i] + [paramCopy[i]];
          i := i + 1;
        }
      }
      TopicEnd(paramCopy);
      res := res + [paramCopy];
    }

    static lemma TopicStep(s: string, i: nat)
      requires i < |s| && s[i] == ' ' && ' ' !in s[..i]
      ensures TopicFields(s) == if i + 1 < |s| && s[i + 1] == ':' then [s[..i], s[i + 1..]]
                                else [s[..i]] + TopicFields(s[i + 1..])
    {
      FindIs(s, ' ', 0, i);
    }

    static lemma TopicEnd(s: string)
      requires ' ' !in s[..|s|]
      ensures TopicFields(s) == [s]
    {
    }

    /** Reading the topic, or every reason not to set it; reply is what a question gets. */
    method CheckTopic(params: seq<string>, topic: string) returns (error: Option<string>, reply: Option<string>)
      requires Ready() && params == TopicFields(cmdParams) && topic == if |params| == 1 then "" else params[1]
      ensures clientFd in server.Ctl().clients
      ensures var k, r := server.Ctl(), Topic(server.Ctl(), clientFd, cmdParams);
              match (error, reply)
              case (Some(e), _) => r == Fail(k, [], e)
              case (None, Some(text)) => r == Done(k, [Tell(clientFd, text)])
              case (None, None) =>
                params[0] in server.channels && params[0] in k.channels
                && var ch := k.channels[params[0]];
                   r == Done(k.(channels := k.channels[params[0] := ch.(topic := topic)]),
                             Broadcast(ch, Reply("332", client.nickname), -1))
    {
      hide Inv, IrcServer.Valid, IrcServer.Ctl, Broadcast, TopicFields, Reply;
      server.InRegistry(clientFd);
      server.KeysAgree();
      var nick := client.nickname;
      if !client.registered {
        return Some(Reply("451", nick)), None;
      }
      var chName := params[0];
      if chName == "" {
        return Some(Reply("461", nick)), None;
      }
      var ok := IsValidChannelName(chName);
      if !ok {
        return Some(Reply("476", nick)), None;
      }
      if chName !in server.channels {
        return Some(Reply("403", nick)), None;
      }
      server.IsListed(chName);
      var ch := server.channels[chName];
      if !ch.IsParticipant(nick) {
        return Some(Reply("442", nick)), None;
      }
      if topic == "" {
        if ch.topic == "" {
          return Some(Reply("331", nick)), None;
        }
        return None, Some(Reply("332", nick));
      }
      if 't' in ch.modes && !ch.IsOperator(nick) {
        return Some(Reply("482", nick)), None;
      }
      return None, None;
    }

    method SetTopic(ch: Channel, topic: string)
      requires server.Valid() && ch.name in server.channels && server.channels[ch.name] == ch
      modifies ch`topic
      ensures server.Valid() && server.IoState() == old(server.IoState()) && ch.name in old(server.Ctl()).channels
      ensures var k := old(server.Ctl());
              server.Ctl() == k.(channels := k.channels[ch.name := k.channels[ch.name].(topic := topic)])
    {
      hide IrcServer.Ctl, IrcServer.IoState;
      server.IsListed(ch.name);
      ch.topic := topic;
      server.ChannelEdited(ch);
    }

    method CmdTopic() returns (error: Option<string>)
      requires Ready()
      modifies server`fds, server`toRemove, server`net, server.channels.Values`topic, server.clients.Values`sendBuffer
      ensures server.Valid()
      ensures Did(old(server.Value()), Topic(old(server.Ctl()), clientFd, cmdParams), server.Value(), error)
    {
      hide Inv, IrcServer.Valid, IrcServer.Ctl, IrcServer.IoState, Deliver, TopicFields, Reply, Broadcast, Topic;
      NothingSent(server.IoState());
      var params := TopicSplit(cmdParams);
      var topic := if |params| == 1 then "" else params[1];
      var reply;
      error, reply := CheckTopic(params, topic);
      if error.None? {
        if reply.Some? {
          Say(reply.value);
        } else {
          ChangeTopic(params[0], topic);
        }
      }
    }

    method ChangeTopic(chName: string, topic: string)
      requires server.Valid() && chName in server.channels
      modifies server`fds, server`toRemove, server`net, server.channels.Values`topic, server.clients.Values`sendBuffer
      ensures server.Valid() && chName in old(server.Ctl()).channels
      ensures var k := old(server.Ctl()); var ch := k.channels[chName];
              && server.Ctl() == k.(channels := k.channels[chName := ch.(topic := topic)])
              && server.IoState() == Deliver(old(server.IoState()), Broadcast(ch, Reply("332", client.nickname), -1))
    {
      hide IrcServer.Valid, IrcServer.Ctl, IrcServer.IoState, Deliver, Reply, TellMembers, SortedNames;
      server.IsListed(chName);
      var ch := server.channels[chName];
      ghost var d := ch.Data();
      SetTopic(ch, topic);
      SameMembers(ch.Data(), d, SortedNames(d.participants.Keys), Reply("332", client.nickname), -1);
      server.BroadcastMsg(Reply("332", client.nickname), ch, -1);
    }

    // ---- MODE ----

    function ErrorText(e: Option<string>): Option<string>
      reads client`nickname
    {
      match e
      case None => None
      case Some(code) => Some(Reply(code, client.nickname))
    }

    method ValidationNickName(nickname: string, ch: Channel, plus: bool) returns (error: Option<string>)
      ensures error == ErrorText(if plus then Modes.PlusCheck(ch.Data(), 'o', nickname)
                                 else Modes.MinusCheck(ch.Data(), 'o', nickname))
    {
      if plus {
        if !ch.IsParticipant(nickname) {
          return Some(Reply("441", client.nickname));
        }
      } else {
        if !ch.IsOperator(nickname) {
          return Some(Reply("401", client.nickname));
        }
      }
      return None;
    }

    method ValidationKey(key: string, ch: Channel, plus: bool) returns (error: Option<string>)
      ensures error == ErrorText(if plus then Modes.PlusCheck(ch.Data(), 'k', key)
                                 else Modes.MinusCheck(ch.Data(), 'k', key))
    {
      if plus {
        if ch.key != "" {
          return Some(Reply("467", client.nickname));
        }
        if key == "" {
          return Some(Reply("461", client.nickname));
        }
        if |key| >= PASSWORD_MAX_LEN {
          return Some(Reply("PASS", client.nickname));
        }
      } else {
        if key != ch.key {
          return Some(Reply("467", client.nickname));
        }
      }
      return None;
    }

    method ValidationInt(size: string, ch: Channel) returns (error: Option<string>)
      ensures error == ErrorText(Modes.PlusCheck(ch.Data(), 'l', size))
    {
      if |size| > 1 && size[0] == '0' {
        return Some(Reply("696", client.nickname));
      }
      var i := 0;
      while i < |size|
        invariant i <= |size| && forall j | 0 <= j < i :: IsDigit(size[j])
      {
        if !IsDigit(size[i]) {
          assert size[i] in size;
          return Some(Reply("696", client.nickname));
        }
        i := i + 1;
      }
      return None;
    }

    /** The letters that take a parameter, and the flags, or false at an unknown letter. */
    static method ScanPlus(option: string) returns (ok: bool, use: string, flagI: bool, flagT: bool)
      ensures ok == Modes.AllKnown(option)
      ensures ok ==>
                && use == Modes.Needing(option, Modes.PlusTakesParam)
                && flagI == ('i' in option) && flagT == ('t' in option)
    {
      hide Modes.Needing;
      use, flagI, flagT := "", false, false;
      var i := 0;
      NeedingEnds(option, Modes.PlusTakesParam);
      while i < |option|
        invariant i <= |option| && forall j | 0 <= j < i :: Modes.KnownLetter(option[j])
        invariant use + Modes.Needing(option[i..], Modes.PlusTakesParam) == Modes.Needing(option, Modes.PlusTakesParam)
        invariant flagI == ('i' in option[..i]) && flagT == ('t' in option[..i])
      {
        NeedingStep(option, i, Modes.PlusTakesParam);
        var c := option[i];
        assert c in option && option[..i + 1] == option[..i] + [c];
        if c == 'o' || c == 'k' || c == 'l' {
          use := use + [c];
        } else if c == 'i' {
          flagI := true;
        } else if c == 't' {
          flagT := true;
        } else {
          return false, use, flagI, flagT;
        }
        i := i + 1;
      }
      return true, use, flagI, flagT;
    }

    /** The same for '-', where l and k are flags too. */
    static method ScanMinus(option: string) returns (ok: bool, use: string, flags: set<char>)
      ensures ok == Modes.AllKnown(option)
      ensures ok ==> use == Modes.Needing(option, Modes.MinusTakesParam)
      ensures ok ==> flags == set c | c in {'i', 't', 'l', 'k'} && c in option
    {
      hide Modes.Needing;
      use, flags := "", {};
      var i := 0;
      NeedingEnds(option, Modes.MinusTakesParam);
      while i < |option|
        invariant i <= |option| && forall j | 0 <= j < i :: Modes.KnownLetter(option[j])
        invariant use + Modes.Needing(option[i..], Modes.MinusTakesParam)
                  == Modes.Needing(option, Modes.MinusTakesParam)
        invariant flags == set c | c in {'i', 't', 'l', 'k'} && c in option[..i]
      {
        NeedingStep(option, i, Modes.MinusTakesParam);
        var c := option[i];
        assert c in option && option[..i + 1] == option[..i] + [c];
        if c == 'o' {
          use := use + [c];
        } else if c == 'i' || c == 't' || c == 'l' {
          flags := flags + {c};
        } else if c == 'k' {
          use := use + [c];
          flags := flags + {c};
        } else {
          return false, use, flags;
        }
        i := i + 1;
      }
      return true, use, flags;
    }

    method Validate(ch: Channel, plus: bool, use: string, param: seq<string>) returns (error: Option<string>)
      requires |use| == |param|
      requires forall c | c in use :: if plus then Modes.PlusTakesParam(c) else Modes.MinusTakesParam(c)
      ensures error == ErrorText(Modes.FirstError(ch.Data(), plus, use, param))
    {
      hide Modes.FirstError, Modes.PlusCheck, Modes.MinusCheck, Reply;
      var index := 0;
      FirstErrorEnds(ch.Data(), plus, use, param);
      while index < |use|
        invariant index <= |use|
        invariant Modes.FirstError(ch.Data(), plus, use[index..], param[index..])
                  == Modes.FirstError(ch.Data(), plus, use, param)
      {
        FirstErrorStep(ch.Data(), plus, use, param, index);
        assert use[index] in use;
        if use[index] == 'o' {
          error := ValidationNickName(param[index], ch, plus);
        } else if use[index] == 'k' {
          error := ValidationKey(param[index], ch, plus);
        } else {
          error := ValidationInt(param[index], ch);
        }
        if error.Some? {
          return error;
        }
        index := index + 1;
      }
      FirstErrorEnds(ch.Data(), plus, use, param);
      return None;
    }

    /** The lookup is not checked, so the nickname must be in the index. */
    method AddChannelOperator(nickname: string, ch: Channel)
      requires nickname in server.nickNameClientMap
      modifies ch`modes, ch`operators
      ensures ch.Data() == Modes.PlusApply(old(ch.Data()), Refs(server.nickNameClientMap), 'o', nickname)
      ensures Drawn(ch.operators, old(ch.operators), server.nickNameClientMap)
    {
      ch.modes := ch.modes + {'o'};
      ch.AddOperator(nickname, server.nickNameClientMap[nickname]);
    }

    method RemoveChannelOperator(nickname: string, ch: Channel)
      modifies ch`modes, ch`operators
      ensures ch.Data() == Modes.MinusApply(old(ch.Data()), 'o', nickname)
      ensures Drawn(ch.operators, old(ch.operators), map[])
    {
      ch.modes := ch.modes - {'o'};
      ch.RemoveOperator(nickname);
    }

    method SetChannelKey(key: string, ch: Channel)
      modifies ch`modes, ch`key
      ensures ch.Data() == Modes.PlusApply(old(ch.Data()), Refs(server.nickNameClientMap), 'k', key)
    {
      ch.modes := ch.modes + {'k'};
      ch.key := key;
    }

    method SetChannelUserLimit(size: string, ch: Channel)
      modifies ch`modes, ch`limit
      ensures ch.Data() == Modes.PlusApply(old(ch.Data()), Refs(server.nickNameClientMap), 'l', size)
    {
      ch.modes := ch.modes + {'l'};
      ch.limit := Some(Modes.LimitOf(size));
    }

    method ExecutePlus(ch: Channel, use: string, param: seq<string>)
      requires |use| == |param| && forall c | c in use :: Modes.PlusTakesParam(c)
      requires forall i | 0 <= i < |use| && use[i] == 'o' :: param[i] in server.nickNameClientMap
      modifies ch`modes, ch`key, ch`limit, ch`operators
      ensures ch.Data() == Modes.PlusExec(old(ch.Data()), Refs(server.nickNameClientMap), use, param)
      ensures Drawn(ch.operators, old(ch.operators), server.nickNameClientMap)
    {
      hide Modes.PlusExec, Modes.PlusApply, Refs;
      ghost var index := Refs(server.nickNameClientMap);
      var i := 0;
      PlusExecEnds(ch.Data(), index, use, param);
      while i < |use|
        invariant i <= |use| && index == Refs(server.nickNameClientMap)
        invariant Drawn(ch.operators, old(ch.operators), server.nickNameClientMap)
        invariant Modes.PlusExec(ch.Data(), index, use[i..], param[i..])
                  == Modes.PlusExec(old(ch.Data()), index, use, param)
      {
        PlusExecStep(ch.Data(), index, use, param, i);
        assert use[i] in use;
        if use[i] == 'o' {
          AddChannelOperator(param[i], ch);
        } else if use[i] == 'k' {
          SetChannelKey(param[i], ch);
        } else {
          SetChannelUserLimit(param[i], ch);
        }
        i := i + 1;
      }
      PlusExecEnds(ch.Data(), index, use, param);
    }

    method ExecuteMinus(ch: Channel, use: string, param: seq<string>)
      requires |use| == |param|
      modifies ch`modes, ch`operators
      ensures ch.Data() == Modes.MinusExec(old(ch.Data()), use, param)
      ensures Drawn(ch.operators, old(ch.operators), map[])
    {
      hide Modes.MinusExec;
      var i := 0;
      MinusExecEnds(ch.Data(), use, param);
      while i < |use|
        invariant i <= |use|
        invariant Drawn(ch.operators, old(ch.operators), map[])
        invariant Modes.MinusExec(ch.Data(), use[i..], param[i..]) == Modes.MinusExec(old(ch.Data()), use, param)
      {
        MinusExecStep(ch.Data(), use, param, i);
        if use[i] == 'o' {
          RemoveChannelOperator(param[i], ch);
        }
        i := i + 1;
      }
      MinusExecEnds(ch.Data(), use, param);
    }

    method HandlePlusFlagOption(ch: Channel, option: string, param: seq<string>) returns (error: Option<string>)
      requires forall n | n in ch.participants :: n in server.nickNameClientMap
      modifies ch`modes, ch`key, ch`limit, ch`operators
      ensures match Modes.PlusBatch(old(ch.Data()), Refs(server.nickNameClientMap), option, param)
              case Err(e) => error == ErrorText(Some(e)) && ch.Data() == old(ch.Data())
              case Ok(d) => error == None && ch.Data() == d
      ensures Drawn(ch.operators, old(ch.operators), server.nickNameClientMap)
    {
      hide Modes.FirstError, Modes.PlusExec, Modes.AllKnown, Modes.Needing, Modes.PlusCheck, Refs, Reply;
      var ok, use, flagI, flagT := ScanPlus(option);
      if !ok {
        return Some(Reply("472", client.nickname));
      }
      if |use| > 3 {
        return Some(Reply("461", client.nickname));
      }
      if |param| != |use| || |param| > 3 {
        return Some(Reply("461", client.nickname));
      }
      error := Validate(ch, true, use, param);
      if error.Some? {
        return error;
      }
      OperatorsAreIndexed(ch, use, param);
      AddFlags(ch, option, flagI, flagT);
      ExecutePlus(ch, use, param);
    }

    lemma OperatorsAreIndexed(ch: Channel, use: string, param: seq<string>)
      requires forall n | n in ch.participants :: n in server.nickNameClientMap
      requires |use| == |param| && Modes.FirstError(ch.Data(), true, use, param).None?
      ensures forall i | 0 <= i < |use| && use[i] == 'o' :: param[i] in server.nickNameClientMap
    {
    }

    method HandleMinusFlagOption(ch: Channel, option: string, param: seq<string>) returns (error: Option<string>)
      modifies ch`modes, ch`key, ch`operators
      ensures match Modes.MinusBatch(old(ch.Data()), option, param)
              case Err(e) => error == ErrorText(Some(e)) && ch.Data() == old(ch.Data())
              case Ok(d) => error == None && ch.Data() == d
      ensures Drawn(ch.operators, old(ch.operators), map[])
    {
      hide Modes.FirstError, Modes.MinusExec, Modes.AllKnown, Modes.Needing, Modes.MinusCheck, Refs, Reply;
      var ok, use, flags := ScanMinus(option);
      if !ok {
        return Some(Reply("472", client.nickname));
      }
      if |use| > 3 {
        return Some(Reply("461", client.nickname));
      }
      if |param| != |use| || |param| > 3 {
        return Some(Reply("461", client.nickname));
      }
      error := Validate(ch, false, use, param);
      if error.Some? {
        return error;
      }
      RemoveFlags(ch, option, flags);
      ExecuteMinus(ch, use, param);
    }

    static method AddFlags(ch: Channel, option: string, flagI: bool, flagT: bool)
      requires flagI == ('i' in option) && flagT == ('t' in option)
      modifies ch`modes
      ensures ch.Data() == Modes.PlusFlags(old(ch.Data()), option)
    {
      if flagI {
        ch.modes := ch.modes + {'i'};
      }
      if flagT {
        ch.modes := ch.modes + {'t'};
      }
      assert ch.modes == old(ch.modes) + (if 'i' in option then {'i'} else {}) + (if 't' in option then {'t'} else {});
    }

    static method RemoveFlags(ch: Channel, option: string, flags: set<char>)
      requires flags == set c | c in {'i', 't', 'l', 'k'} && c in option
      modifies ch`modes, ch`key
      ensures ch.Data() == Modes.MinusFlags(old(ch.Data()), option)
    {
      if 'i' in flags {
        ch.modes := ch.modes - {'i'};
      }
      if 't' in flags {
        ch.modes := ch.modes - {'t'};
      }
      if 'l' in flags {
        ch.modes := ch.modes - {'l'};
      }
      if 'k' in flags {
        ch.modes := ch.modes - {'k'};
        ch.key := "";
      }
    }

    /** Everything cmdMode looks at before the letters; done says that there is nothing to do. */
    method CheckMode(t: seq<string>) returns (error: Option<string>, done: bool)
      requires Ready() && t == Tokens(cmdParams)
      ensures clientFd in server.Ctl().clients
      ensures var k, r := server.Ctl(), Mode(server.Ctl(), clientFd, cmdParams);
              if error.Some? then r == Fail(k, [], error.value)
              else if done then r == Done(k, [])
              else
                && |t| > 1 && t[1] != "" && t[0] in server.channels && t[0] in k.channels
                && r == match BatchOf(k.channels[t[0]], k.index, t[1], t[2..])
                        case Err(e) => Fail(k, [], Reply(e, client.nickname))
                        case Ok(d) => Done(k.(channels := k.channels[t[0] := d]),
                                           Broadcast(d, Notice(client.prefix, "MODE" + Spaced(t)), -1))
    {
      hide Inv, IrcServer.Valid, IrcServer.Ctl, Broadcast, Tokens, Reply, Notice, Modes.PlusBatch, Modes.MinusBatch,
           Spaced;
      server.InRegistry(clientFd);
      server.KeysAgree();
      var nick := client.nickname;
      if t == [] {
        return None, true;
      }
      if t[0] !in server.channels {
        return Some(Reply("403", nick)), false;
      }
      server.IsListed(t[0]);
      var ch := server.channels[t[0]];
      if !ch.IsParticipant(nick) {
        return Some(Reply("442", nick)), false;
      }
      if |t| == 1 {
        return None, true;
      }
      if !ch.IsOperator(nick) {
        return Some(Reply("482", nick)), false;
      }
      assert t[1] in t;
      if t[1][0] != '+' && t[1][0] != '-' {
        return Some(Reply("472", nick)), false;
      }
      return None, false;
    }

    /** The letters and their parameters, on one channel. */
    method ChangeModes(ch: Channel, option: string, param: seq<string>) returns (error: Option<string>)
      requires Ready() && ch.name in server.channels && server.channels[ch.name] == ch && option != ""
      modifies ch`modes, ch`key, ch`limit, ch`operators
      ensures server.Valid() && server.IoState() == old(server.IoState()) && ch.name in old(server.Ctl()).channels
      ensures var k := old(server.Ctl());
              match BatchOf(k.channels[ch.name], k.index, option, param)
              case Err(e) => error == Some(Reply(e, client.nickname)) && server.Ctl() == k
              case Ok(d) => error == None && server.Ctl() == k.(channels := k.channels[ch.name := d])
    {
      hide Inv, IrcServer.Ctl, IrcServer.IoState, Modes.PlusBatch, Modes.MinusBatch, Refs, Reply;
      server.IsListed(ch.name);
      server.ParticipantsAreIndexed(ch);
      ghost var m := server.Ctl().channels;
      if option[0] == '+' {
        error := HandlePlusFlagOption(ch, option[1..], param);
      } else {
        error := HandleMinusFlagOption(ch, option[1..], param);
      }
      server.ChannelEdited(ch);
      assert m[ch.name := m[ch.name]] == m;
    }

    method CmdMode() returns (error: Option<string>)
      requires Ready()
      modifies server`fds, server`toRemove, server`net, server.clients.Values`sendBuffer,
               server.channels.Values`modes, server.channels.Values`key, server.channels.Values`limit,
               server.channels.Values`operators
      ensures server.Valid()
      ensures Did(old(server.Value()), Mode(old(server.Ctl()), clientFd, cmdParams), server.Value(), error)
    {
      hide Inv, IrcServer.Valid, IrcServer.Ctl, IrcServer.IoState, Deliver, Tokens, Broadcast, Reply, Notice, Spaced,
           Mode, BatchOf;
      NothingSent(server.IoState());
      var modeParse := Tokens(cmdParams);
      var done;
      error, done := CheckMode(modeParse);
      if error.Some? || done {
        return error;
      }
      error := ChangeAndTell(modeParse);
    }

    /** The change, and the announcement when it was accepted. */
    method ChangeAndTell(t: seq<string>) returns (error: Option<string>)
      requires Ready() && |t| > 1 && t[1] != "" && t[0] in server.channels
      modifies server`fds, server`toRemove, server`net, server.clients.Values`sendBuffer,
               server.channels.Values`modes, server.channels.Values`key, server.channels.Values`limit,
               server.channels.Values`operators
      ensures server.Valid() && t[0] in old(server.Ctl()).channels
      ensures var s, k := old(server.Value()), old(server.Ctl());
              match BatchOf(k.channels[t[0]], k.index, t[1], t[2..])
              case Err(e) => error == Some(Reply(e, client.nickname)) && server.Value() == s
              case Ok(d) =>
                && error == None && server.Ctl() == k.(channels := k.channels[t[0] := d])
                && server.IoState() == Deliver(s.io, Broadcast(d, Notice(client.prefix, "MODE" + Spaced(t)), -1))
    {
      hide Inv, IrcServer.Valid, IrcServer.Ctl, IrcServer.IoState, Deliver, Broadcast, Reply, Notice, Spaced, BatchOf;
      server.IsListed(t[0]);
      var ch := server.channels[t[0]];
      error := ChangeModes(ch, t[1], t[2..]);
      if error.None? {
        server.IsListed(t[0]);
        server.BroadcastMsg(Notice(client.prefix, "MODE" + Spaced(t)), ch, -1);
      }
    }

    // ---- PRIVMSG ----

    static method PrivmsgSplit(params: string) returns (res: seq<string>)
      ensures res == MessageFields(params, "")
    {
      hide MessageFields;
      res := [];
      var tmp := "";
      var i := 0;
      MessageEnd(params, tmp);
      while i < |params|
        invariant i <= |params| && res + MessageFields(params[i..], tmp) == MessageFields(params, "")
      {
        MessageStep(params, i, tmp);
        if params[i] == ' ' || params[i] == ',' {
          if tmp != "" {
            res := res + [tmp];
            tmp := "";
          }
        } else if params[i] == ':' {
          if tmp != "" {
            res := res + [tmp];
          }
          return res + [params[i..]];
        } else {
          tmp := tmp + [params[i]];
        }
        i := i + 1;
      }
      MessageEnd(params, tmp);
      if tmp != "" {
        res := res + [tmp];
      }
    }

    static method IsMixed(receivers: seq<string>) returns (mixed: bool)
      ensures mixed == Mixed(receivers)
    {
      var i := 0;
      while i < |receivers|
        invariant i <= |receivers| && forall j | 0 <= j < i ::
                  StartsWith(receivers[j], '#') == StartsWith(receivers[0], '#')
      {
        if StartsWith(receivers[i], '#') != StartsWith(receivers[0], '#') {
          return true;
        }
        i := i + 1;
      }
      return false;
    }

    static method IsDupReceiver(receivers: seq<string>) returns (duplicated: bool)
      ensures duplicated == Duplicated(receivers)
    {
      var receiverSet := {};
      var i := 0;
      while i < |receivers|
        invariant i <= |receivers| && (forall r :: r in receiverSet <==> exists j :: 0 <= j < i && receivers[j] == r)
        invariant !exists j, m | 0 <= j < m < i :: receivers[j] == receivers[m]
      {
        if receivers[i] in receiverSet {
          return true;
        }
        receiverSet := receiverSet + {receivers[i]};
        i := i + 1;
      }
      return false;
    }

    method CheckReceivers(receivers: seq<string>) returns (error: Option<string>)
      requires Ready()
      ensures error == ReceiverError(server.Ctl(), client.nickname, receivers)
    {
      hide Inv, IrcServer.Valid, IrcServer.Ctl, FindNick, Reply, ReceiverError;
      server.KeysAgree();
      var nick := client.nickname;
      ReceiversEnd(server.Ctl(), nick, receivers);
      var i := 0;
      while i < |receivers|
        invariant i <= |receivers|
        invariant ReceiverError(server.Ctl(), nick, receivers[i..]) == ReceiverError(server.Ctl(), nick, receivers)
      {
        ReceiverStep(server.Ctl(), nick, receivers, i);
        if StartsWith(receivers[i], '#') {
          if receivers[i] !in server.channels {
            return Some(Reply("401", nick));
          }
          server.IsListed(receivers[i]);
          if !server.channels[receivers[i]].IsParticipant(nick) {
            return Some(Reply("404", nick));
          }
        } else {
          var receiver := server.GetClientByNick(receivers[i]);
          if receiver == null {
            return Some(Reply("401", nick));
          }
        }
        i := i + 1;
      }
      ReceiversEnd(server.Ctl(), nick, receivers);
      return None;
    }

    method ForwardTo(receivers: seq<string>, msg: string)
      requires server.Valid()
      modifies server`fds, server`toRemove, server`net, server.clients.Values`sendBuffer
      ensures server.Valid() && server.Ctl() == old(server.Ctl())
      ensures server.IoState()
              == Deliver(old(server.IoState()), Forward(server.Ctl(), clientFd, client.prefix, receivers, msg))
    {
      hide IrcServer.Valid, IrcServer.Ctl, IrcServer.IoState, FindNick, Forward, Deliver, Broadcast, Notice,
           PollTable.CastMsg;
      ghost var k, io := server.Ctl(), server.IoState();
      var prefix := client.prefix;
      ForwardEnds(k, clientFd, prefix, receivers, msg);
      server.KeysAgree();
      var i := 0;
      while i < |receivers|
        invariant i <= |receivers| && server.Valid() && server.Ctl() == k
        invariant Deliver(server.IoState(), Forward(k, clientFd, prefix, receivers[i..], msg))
               == Deliver(io, Forward(k, clientFd, prefix, receivers, msg))
      {
        ForwardStep(k, clientFd, prefix, receivers, i, msg, server.IoState());
        ForwardOne(receivers[i], Notice(prefix, "PRIVMSG " + receivers[i] + " " + msg));
        i := i + 1;
      }
      ForwardEnds(k, clientFd, prefix, receivers, msg);
      NothingSent(server.IoState());
    }

    method ForwardOne(receiver: string, text: string)
      requires server.Valid()
      modifies server`fds, server`toRemove, server`net, server.clients.Values`sendBuffer
      ensures server.Valid() && server.Ctl() == old(server.Ctl())
      ensures var k, io := server.Ctl(), old(server.IoState());
              server.IoState() ==
              if receiver in k.channels && StartsWith(receiver, '#')
              then Deliver(io, Broadcast(k.channels[receiver], text, clientFd))
              else match FindNick(k.clients, receiver)
                case None => io
                case Some(to) => PollTable.CastMsg(io, to, text)
    {
      hide IrcServer.Valid, IrcServer.Ctl, IrcServer.IoState, FindNick, Deliver, Broadcast, PollTable.CastMsg;
      server.KeysAgree();
      if receiver in server.channels && StartsWith(receiver, '#') {
        server.IsListed(receiver);
        server.BroadcastMsg(text, server.channels[receiver], clientFd);
      } else {
        ForwardToNick(receiver, text);
      }
    }

    method ForwardToNick(receiver: string, text: string)
      requires server.Valid()
      modifies server`fds, server`toRemove, server`net, server.clients.Values`sendBuffer
      ensures server.Valid() && server.Ctl() == old(server.Ctl())
      ensures server.IoState() == match FindNick(server.Ctl().clients, receiver)
                                  case None => old(server.IoState())
                                  case Some(to) => PollTable.CastMsg(old(server.IoState()), to, text)
    {
      hide IrcServer.Valid, IrcServer.Ctl, IrcServer.IoState, FindNick, PollTable.CastMsg;
      var to := server.GetClientByNick(receiver);
      if to != null {
        server.InRegistry(FindNick(server.Ctl().clients, receiver).value);
        server.CastMsg(to.fd, text);
      }
    }

    method CmdPrivmsg() returns (error: Option<string>)
      requires Ready()
      modifies server`fds, server`toRemove, server`net, server.clients.Values`sendBuffer
      ensures server.Valid()
      ensures Did(old(server.Value()), Privmsg(old(server.Ctl()), clientFd, cmdParams), server.Value(), error)
    {
      hide Inv, IrcServer.Valid, IrcServer.Ctl, IrcServer.IoState, Forward, Deliver, MessageFields, Reply, Notice;
      hide Mixed, Duplicated, ReceiverError;
      server.InRegistry(clientFd);
      NothingSent(server.IoState());
      var nick := client.nickname;
      if !client.registered {
        return Some(Reply("451", nick));
      }
      var params := PrivmsgSplit(cmdParams);
      var receivers, msg := params, "";
      if |params| > 0 && StartsWith(params[|params| - 1], ':') {
        receivers, msg := params[..|params| - 1], params[|params| - 1];
      }
      var mixed := IsMixed(receivers);
      if mixed {
        Say(Notice(":ircserv", "mixed receivers"));
        return Some(Reply("421", nick));
      }
      if receivers == [] {
        return Some(Reply("411", nick));
      }
      var duplicated := IsDupReceiver(receivers);
      if duplicated {
        return Some(Reply("407", nick));
      }
      if msg == "" {
        return Some(Reply("412", nick));
      }
      error := CheckReceivers(receivers);
      if error.None? {
        ForwardTo(receivers, msg);
      }
    }

    // ---- the rest, and the dispatch ----

    method CmdPing() returns (error: Option<string>)
      requires Ready()
      modifies server`fds, server`toRemove, server`net, server.clients.Values`sendBuffer
      ensures server.Valid()
      ensures Did(old(server.Value()), Ping(old(server.Ctl()), clientFd, cmdParams), server.Value(), error)
    {
      hide Inv, IrcServer.Valid, IrcServer.Ctl, IrcServer.IoState, Deliver, Reply, Notice;
      server.InRegistry(clientFd);
      NothingSent(server.IoState());
      if !client.registered {
        return Some(Reply("451", client.nickname));
      }
      Say(Notice(":ircserv", "PONG :" + cmdParams));
      return None;
    }

    method CmdQuit()
      requires Ready()
      modifies server`fds, server`toRemove
      ensures server.Valid()
      ensures Did(old(server.Value()), Done(old(server.Ctl()), [Drop(clientFd)]), server.Value(), None)
    {
      hide Inv, IrcServer.Valid, IrcServer.Ctl, IrcServer.IoState, Deliver, Mark;
      TellOne(server.IoState(), Drop(clientFd));
      server.MarkClientForRemoval(clientFd);
    }

    method ExtractCmd() returns (verb: string)
      ensures verb == msg[..WordLen(msg)]
    {
      var pos := 0;
      while pos < |msg| && !IsSpace(msg[pos])
        invariant pos <= |msg| && forall i | 0 <= i < pos :: !IsSpace(msg[i])
      {
        pos := pos + 1;
      }
      WordEndsAt(msg, pos);
      return msg[..pos];
    }

    static lemma WordEndsAt(s: string, pos: nat)
      requires pos <= |s| && (forall i | 0 <= i < pos :: !IsSpace(s[i])) && (pos < |s| ==> IsSpace(s[pos]))
      ensures WordLen(s) == pos
    {
    }

    method ExtractCmdParams() returns (params: string)
      requires cmd == msg[..WordLen(msg)]
      ensures params == Parse(msg).1
    {
      var startPos := |cmd|;
      if startPos < |msg| && IsSpace(msg[startPos]) {
        startPos := startPos + 1;
      }
      return if startPos < |msg| then msg[startPos..] else "";
    }

    method Dispatch() returns (error: Option<string>)
      requires Ready()
      modifies server`clients, server`channels, server`nickNameClientMap, server`created, server`fds, server`toRemove,
               server`net, server.clients.Values, server.channels.Values
      ensures server.Valid() && ChannelsGrow() && server.clients == old(server.clients)
      ensures Did(old(server.Value()), Execute(old(server.Ctl()), clientFd, VerbOf(cmd), cmdParams), server.Value(),
              error)
    {
      hide Inv, IrcServer.Valid, IrcServer.Ctl, IrcServer.IoState, Deliver, Nick, User, Pass, Join, Part, Kick, Invite,
           Mode, Topic;
      hide Privmsg, Ping, Reply, Notice;
      server.InRegistry(clientFd);
      error := None;
      match VerbOf(cmd) {
        case CAP => Say(Notice(client.prefix, "CAP * LS :"));
        case NICK => error := CmdNick();
        case PASS => error := CmdPass();
        case USER => error := CmdUser();
        case PING => error := CmdPing();
        case JOIN => error := CmdJoin();
        case PART => error := CmdPart();
        case PRIVMSG => error := CmdPrivmsg();
        case KICK => error := CmdKick();
        case INVITE => error := CmdInvite();
        case MODE => error := CmdMode();
        case TOPIC => error := CmdTopic();
        case QUIT => CmdQuit();
        case UNKNOWN => Say(Reply("421", client.nickname));
      }
    }

    /** One message, from its text to the error policy; false asks for the client's removal. */
    method HandleClientCmd() returns (ok: bool)
      requires Ready()
      modifies this`cmd, this`cmdParams, server`clients, server`channels, server`nickNameClientMap, server`created,
               server`fds, server`toRemove, server`net, server.clients.Values, server.channels.Values
      ensures server.Valid() && ChannelsGrow() && server.clients == old(server.clients)
      ensures clientFd in old(server.Ctl()).clients
              && (server.Value(), ok) == Machine.Handle(old(server.Value()), clientFd, msg)
    {
      hide Inv, IrcServer.Valid, IrcServer.Ctl, IrcServer.IoState, Deliver, Execute, VerbOf, PollTable.CastMsg, Mark;
      hide Machine.Handle, WordLen;
      server.InRegistry(clientFd);
      HandleInSteps(server.Value(), clientFd, msg);
      cmd := ExtractCmd();
      cmdParams := ExtractCmdParams();
      var error := Dispatch();
      server.InRegistry(clientFd);
      match error {
        case None =>
          return true;
        case Some(what) =>
          ok := AnswerError(what);
      }
    }

    /** The error policy: a client that is not registered goes. */
    method AnswerError(what: string) returns (ok: bool)
      requires server.Valid() && clientFd in server.clients && server.clients[clientFd] == client
      modifies server`fds, server`toRemove, server`net, server.clients.Values`sendBuffer
      ensures server.Valid() && server.Ctl() == old(server.Ctl()) && clientFd in server.Ctl().clients
      ensures ok == (server.Ctl().clients[clientFd].pass && server.Ctl().clients[clientFd].registered)
      ensures var told := PollTable.CastMsg(old(server.IoState()), clientFd, what);
              server.IoState() == if ok then told else Mark(told, clientFd)
    {
      hide IrcServer.Valid, IrcServer.Ctl, IrcServer.IoState, PollTable.CastMsg, Mark;
      server.CastMsg(clientFd, what);
      server.InRegistry(clientFd);
      if !client.passDone || !client.registered {
        server.MarkClientForRemoval(clientFd);
        return false;
      }
      return true;
    }
  }
}
