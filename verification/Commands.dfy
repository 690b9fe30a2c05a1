/**
 * The command layer as functions on the registry: each command gives the new registry, what it sends or drops on the
 * way (in order), and the error it throws. Nothing a command decides depends on buffers or on the poll table.
 */
module Commands {
  import opened Wrappers
  import opened Text
  import opened Ordering
  import opened ServerState
  import Modes

  /** castMsg(fd, msg) and markClientForRemoval(fd). */
  datatype Effect = Tell(fd: int, msg: string) | Drop(fd: int)

  /** error is the text of a thrown CmdException. */
  datatype Outcome = Outcome(ctl: Control, out: seq<Effect>, error: Option<string>)

  function Done(k: Control, out: seq<Effect>): Outcome { Outcome(k, out, None) }

  function Fail(k: Control, out: seq<Effect>, error: string): Outcome { Outcome(k, out, Some(error)) }

  /** A numeric reply, without its trailing text. */
  function Reply(code: string, nick: string): string { ":ircserv " + code + " " + nick + "\r\n" }

  /** makeMsg(prefix, what). */
  function Notice(prefix: string, what: string): string { prefix + " " + what + "\r\n" }

  function TellMembers(ch: ChannelData, names: seq<string>, msg: string, except: int): seq<Effect>
    requires forall i | 0 <= i < |names| :: names[i] in ch.participants
  {
    if names == [] then []
    else
      var fd := ch.participants[names[0]].fd;
      (if except != -1 && fd == except then [] else [Tell(fd, msg)]) + TellMembers(ch, names[1..], msg, except)
  }

  /** broadcastMsg to a channel: its participants in map order, except one descriptor (-1 for none). */
  function Broadcast(ch: ChannelData, msg: string, except: int): seq<Effect> {
    TellMembers(ch, SortedNames(ch.participants.Keys), msg, except)
  }

  function TellFds(fds: seq<int>, msg: string): seq<Effect> {
    if fds == [] then [] else [Tell(fds[0], msg)] + TellFds(fds[1..], msg)
  }

  // ---- registration ----

  function Pass(k: Control, fd: int, p: string): Outcome
    requires fd in k.clients
  {
    var c := k.clients[fd];
    if p == "" then Fail(k, [], Reply("461", c.nick))
    else if c.pass then Fail(k, [], Reply("462", c.nick))
    else if p != k.password then Fail(k, [], Reply("464", c.nick))
    else Done(k.(clients := k.clients[fd := c.(pass := true)]), [])
  }

  /** std::map::insert: an existing entry stays. */
  function Insert(m: map<string, Ptr>, nick: string, p: Ptr): map<string, Ptr> {
    if nick in m then m else m[nick := p]
  }

  /** NICK on one channel: the entries under the old nickname move to the new one. */
  function Renamed(ch: ChannelData, was: string, nick: string, p: Ptr): ChannelData {
    if was !in ch.participants then ch
    else ch.(participants := Insert(ch.participants - {was}, nick, p),
             operators := if was in ch.operators then (ch.operators - {was})[nick := p] else ch.operators)
  }

  /** The registry after a nickname change that is accepted. */
  function TakeNick(k: Control, fd: int, p: string): Control
    requires fd in k.clients
  {
    var c := k.clients[fd];
    if c.registered then
      k.(clients := k.clients[fd := c.(nick := p, nickDone := true, prefix := UserPrefix(p, c.user, c.host))],
         index := (k.index - {c.nick})[p := PtrOf(k, fd)],
         channels := map n | n in k.channels :: Renamed(k.channels[n], c.nick, p, PtrOf(k, fd)))
    else
      k.(clients := k.clients[fd := c.(nick := p, nickDone := true)], index := k.index[p := PtrOf(k, fd)])
  }

  /** checkNick, and the PASS it requires. */
  function NickError(clients: map<int, ClientData>, c: ClientData, p: string): (r: Option<string>)
    ensures r.None? ==> c.pass && ValidNick(p) && forall f | f in clients :: clients[f].nick != p
  {
    var shown := if c.nick == "" then "guest" else c.nick;
    if !c.pass then Some(Reply("451", c.nick))
    else if p == "" then Some("431 " + shown + " :No nickname given")
    else if !ValidNick(p) then Some(Reply("432", shown))
    else if FindNick(clients, p).Some? then Some(Reply("433", shown))
    else None
  }

  function Nick(k: Control, fd: int, p: string): Outcome
    requires fd in k.clients
  {
    var c := k.clients[fd];
    match NickError(k.clients, c, p)
    case Some(e) => Fail(k, [], e)
    case None =>
      Done(TakeNick(k, fd, p),
           if c.registered then TellFds(SortedFds(k.clients.Keys), Notice(":" + c.nick, "NICK " + p)) else [])
  }

  predicate UsernameOk(s: string, nick: string) {
    (s == "" ==> nick != "") && |s| <= USERNAME_MAX_LEN && forall c | c in s :: !IsCntrl(c) && c != ' ' && c != '@'
  }

  predicate RealnameOk(s: string, nick: string) {
    (s == "" ==> nick != "") && |s| <= REALNAME_MAX_LEN && forall c | c in s :: !IsCntrl(c)
  }

  function Spaced(words: seq<string>): string {
    if words == [] then "" else " " + words[0] + Spaced(words[1..])
  }

  function Welcome(fd: int, nick: string): seq<Effect> {
    [Tell(fd, Reply("001", nick)), Tell(fd, Reply("002", nick)), Tell(fd, Reply("003", nick)),
     Tell(fd, Reply("004", nick)), Tell(fd, Reply("375", nick)), Tell(fd, Reply("376", nick))]
  }

  function User(k: Control, fd: int, p: string): Outcome
    requires fd in k.clients
  {
    var c := k.clients[fd];
    var t := Tokens(p);
    if c.registered then Fail(k, [], Reply("462", c.nick))
    else if !c.pass || |t| < 4 then Fail(k, [], Reply("461", c.nick))
    else if !UsernameOk(t[0], c.nick) then Fail(k, [], Reply("ERR", "USER"))
    else
      var c1 := c.(user := t[0]);
      assert t[3] in t;
      var realname := t[3][1..] + Spaced(t[4..]);
      if t[3][0] != ':' then Fail(k.(clients := k.clients[fd := c1]), [], Reply("461", c.nick))
      else if !RealnameOk(realname, c.nick) then Fail(k.(clients := k.clients[fd := c1]), [], Reply("ERR", "USER"))
      else
        var c2 := c1.(realname := realname, prefix := UserPrefix(c.nick, t[0], c.host), userDone := true);
        if c.nickDone then
          Done(k.(clients := k.clients[fd := c2.(registered := true)]), Welcome(fd, c.nick))
        else
          Done(k.(clients := k.clients[fd := c2]), [])
  }

  // ---- channels ----

  predicate ValidChannelName(s: string) {
    0 < |s| <= 200 && s[0] == '#' && forall i | 1 <= i < |s| :: s[i] != ' ' && !IsCntrl(s[i])
  }

  /** setChannels, and the founder's entry in the operator map. */
  function Found(k: Control, fd: int, name: string, key: string): Control
    requires fd in k.clients
  {
    var chKey := if key == "x" then "" else key;
    k.(channels := k.channels[name := ChannelData(
         k.nextId, chKey, "", if chKey == "" then {} else {'k'}, map[],
         map[k.clients[fd].nick := PtrOf(k, fd)], None, {})],
       nextId := k.nextId + 1)
  }

  /** A full channel; an unset limit never gets here (SettingsOk). */
  predicate Full(ch: ChannelData) {
    'l' in ch.modes && (ch.limit.None? || |ch.participants| >= ch.limit.value)
  }

  function JoinError(ch: ChannelData, nick: string, key: string): Option<string> {
    if 'i' in ch.modes && nick !in ch.invited then Some(Reply("473", nick))
    else if 'k' in ch.modes && (key == "" || key != ch.key) then Some(Reply("475", nick))
    else if Full(ch) then Some(Reply("471", nick))
    else None
  }

  /** addParticipant, and the invitation used up. */
  function Joined(ch: ChannelData, nick: string, p: Ptr): ChannelData {
    ch.(participants := Insert(ch.participants, nick, p),
        invited := if 'i' in ch.modes then ch.invited - {nick} else ch.invited)
  }

  /** getParticipantNameStr for the participants in the given order. */
  function NamesOf(k: Control, ch: ChannelData, order: seq<string>): string
    requires forall i | 0 <= i < |order| :: order[i] in ch.participants
  {
    if order == [] then ""
    else
      var p := ch.participants[order[0]];
      var nick := if Live(k.clients, p) then k.clients[p.fd].nick else "";
      (if nick in ch.operators then "@" else "") + nick
      + (if |order| > 1 then " " else "") + NamesOf(k, ch, order[1..])
  }

  function NamesLine(k: Control, ch: ChannelData): string {
    NamesOf(k, ch, SortedNames(ch.participants.Keys))
  }

  /** The announcement to the channel, then the names and the topic to the one who joined. */
  function JoinNotices(k: Control, fd: int, name: string, ch: ChannelData): seq<Effect>
    requires fd in k.clients
  {
    var c := k.clients[fd];
    Broadcast(ch, Notice(c.prefix, "JOIN " + name), -1)
    + [Tell(fd, Notice(":ircserv 353 " + c.nick + " = " + name, ":" + NamesLine(k, ch))),
       Tell(fd, Reply("366", c.nick)),
       Tell(fd, Reply(if ch.topic == "" then "331" else "332", c.nick))]
  }

  function JoinOne(k: Control, fd: int, name: string, key: string): Outcome
    requires fd in k.clients
  {
    var c := k.clients[fd];
    var k1 := if name in k.channels then k else Found(k, fd, name, key);
    var ch := k1.channels[name];
    match JoinError(ch, c.nick, key)
    case Some(e) => Fail(k1, [], e)
    case None =>
      var ch' := Joined(ch, c.nick, PtrOf(k, fd));
      Done(k1.(channels := k1.channels[name := ch']), JoinNotices(k1, fd, name, ch'))
  }

  function JoinAll(k: Control, fd: int, names: seq<string>, keys: seq<string>): Outcome
    requires fd in k.clients
    decreases |names|
  {
    if names == [] then Done(k, [])
    else
      var r := JoinOne(k, fd, names[0], if keys == [] then "" else keys[0]);
      if r.error.Some? then r
      else
        var rest := JoinAll(r.ctl, fd, names[1..], if keys == [] then [] else keys[1..]);
        Outcome(rest.ctl, r.out + rest.out, rest.error)
  }

  /** The channel names among the tokens, or (channels := false) the keys. */
  function Select(tokens: seq<string>, channels: bool): (r: seq<string>) {
    if tokens == [] then []
    else (if StartsWith(tokens[0], '#') == channels then [tokens[0]] else []) + Select(tokens[1..], channels)
  }

  predicate AllValidNames(names: seq<string>) {
    forall n | n in names :: ValidChannelName(n)
  }

  function Join(k: Control, fd: int, p: string): Outcome
    requires fd in k.clients
  {
    var c := k.clients[fd];
    var tokens := Fields(p, "");
    var names, keys := Select(tokens, true), Select(tokens, false);
    if !c.registered then Done(k, [Tell(fd, Reply("451", c.nick))])
    else if |names| < |keys| then Fail(k, [], Reply("461", c.nick))
    else if !AllValidNames(names) then Fail(k, [], Reply("476", c.nick))
    else JoinAll(k, fd, names, keys)
  }

  /** One client out of one channel; an emptied channel is deleted. */
  function Leave(k: Control, name: string, nick: string): Control
    requires name in k.channels
  {
    var ch := k.channels[name];
    var ch' := ch.(participants := ch.participants - {nick}, operators := ch.operators - {nick});
    k.(channels := if ch'.participants == map[] then k.channels - {name} else k.channels[name := ch'])
  }

  function PartOne(k: Control, fd: int, name: string): Outcome
    requires fd in k.clients
  {
    var c := k.clients[fd];
    if !ValidChannelName(name) then Done(k, [Tell(fd, Reply("476", c.nick))])
    else if name !in k.channels then Done(k, [Tell(fd, Reply("403", c.nick))])
    else if c.nick !in k.channels[name].participants then Done(k, [Tell(fd, Reply("442", c.nick))])
    else Done(Leave(k, name, c.nick), Broadcast(k.channels[name], Notice(c.prefix, "PART " + name), -1))
  }

  function PartAll(k: Control, fd: int, names: seq<string>): Outcome
    requires fd in k.clients
    decreases |names|
  {
    if names == [] then Done(k, [])
    else
      var r := PartOne(k, fd, names[0]);
      var rest := PartAll(r.ctl, fd, names[1..]);
      Outcome(rest.ctl, r.out + rest.out, rest.error)
  }

  function Part(k: Control, fd: int, p: string): Outcome
    requires fd in k.clients
  {
    var c := k.clients[fd];
    var names := SplitFrom(p, ',', 0);
    if !c.registered then Fail(k, [], Reply("451", c.nick))
    else if names == [] then Fail(k, [], Reply("461", c.nick))
    else PartAll(k, fd, names)
  }

  function Kick(k: Control, fd: int, p: string): Outcome
    requires fd in k.clients
  {
    var c := k.clients[fd];
    var t := SplitFrom(p, ' ', 0);
    if !c.registered then Fail(k, [], Reply("451", c.nick))
    else if |t| < 2 || |t| > 3 then Fail(k, [], Reply("461", c.nick))
    else if !StartsWith(t[0], '#') then Fail(k, [], Reply("476", c.nick))
    else if t[0] !in k.channels then Fail(k, [], Reply("403", c.nick))
    else
      var ch := k.channels[t[0]];
      if c.nick !in ch.participants then Fail(k, [], Reply("442", c.nick))
      else if c.nick !in ch.operators then Fail(k, [], Reply("482", c.nick))
      else if t[1] !in ch.participants then Fail(k, [], Reply("441", c.nick))
      else Done(Leave(k, t[0], t[1]), Broadcast(ch, Notice(c.prefix, "KICK " + t[0] + " " + t[1]), -1))
  }

  function InviteTo(k: Control, name: string, nick: string): Control
    requires name in k.channels
  {
    k.(channels := k.channels[name := k.channels[name].(invited := k.channels[name].invited + {nick})])
  }

  /** What the sender and the channel have against an invitation. */
  function InviterError(k: Control, c: ClientData, t: seq<string>): (r: Option<string>)
    ensures r.None? ==> c.registered && |t| == 2 && t[1] in k.channels
                        && c.nick in k.channels[t[1]].participants
                        && ('i' in k.channels[t[1]].modes ==> c.nick in k.channels[t[1]].operators)
  {
    if !c.registered then Some(Reply("451", c.nick))
    else if |t| != 2 then Some(Reply("461", c.nick))
    else if !ValidChannelName(t[1]) then Some(Reply("476", c.nick))
    else if t[1] !in k.channels then Some(Reply("401", c.nick))
    else
      var ch := k.channels[t[1]];
      if c.nick !in ch.participants then Some(Reply("442", c.nick))
      else if 'i' in ch.modes && c.nick !in ch.operators then Some(Reply("482", c.nick))
      else None
  }

  /** And the one who is invited. */
  function InviteError(k: Control, c: ClientData, t: seq<string>): (r: Option<string>)
    ensures r.None? ==> InviterError(k, c, t).None? && FindNick(k.clients, t[0]).Some?
  {
    match InviterError(k, c, t)
    case Some(e) => Some(e)
    case None =>
      if FindNick(k.clients, t[0]).None? then Some(Reply("401", c.nick))
      else if t[0] in k.channels[t[1]].participants then Some(Reply("443", t[0]))
      else None
  }

  function Invite(k: Control, fd: int, p: string): Outcome
    requires fd in k.clients
  {
    var c := k.clients[fd];
    var t := SplitFrom(p, ' ', 0);
    match InviteError(k, c, t)
    case Some(e) => Fail(k, [], e)
    case None =>
      Done(InviteTo(k, t[1], t[0]),
           [Tell(FindNick(k.clients, t[0]).value, Notice(c.prefix, "INVITE " + t[0] + " " + t[1])),
            Tell(fd, Reply("341", c.nick))])
  }

  function Topic(k: Control, fd: int, p: string): Outcome
    requires fd in k.clients
  {
    var c := k.clients[fd];
    var t := TopicFields(p);
    var topic := if |t| == 1 then "" else t[1];
    if !c.registered then Fail(k, [], Reply("451", c.nick))
    else if t[0] == "" then Fail(k, [], Reply("461", c.nick))
    else if !ValidChannelName(t[0]) then Fail(k, [], Reply("476", c.nick))
    else if t[0] !in k.channels then Fail(k, [], Reply("403", c.nick))
    else
      var ch := k.channels[t[0]];
      if c.nick !in ch.participants then Fail(k, [], Reply("442", c.nick))
      else if topic == "" then
        if ch.topic == "" then Fail(k, [], Reply("331", c.nick)) else Done(k, [Tell(fd, Reply("332", c.nick))])
      else if 't' in ch.modes && c.nick !in ch.operators then Fail(k, [], Reply("482", c.nick))
      else Done(k.(channels := k.channels[t[0] := ch.(topic := topic)]), Broadcast(ch, Reply("332", c.nick), -1))
  }

  /** MODE; without any token the code reads past the end of a vector, which is given no effect here. */
  function Mode(k: Control, fd: int, p: string): Outcome
    requires fd in k.clients
  {
    var c := k.clients[fd];
    var t := Tokens(p);
    if t == [] then Done(k, [])
    else if t[0] !in k.channels then Fail(k, [], Reply("403", c.nick))
    else
      var ch := k.channels[t[0]];
      if c.nick !in ch.participants then Fail(k, [], Reply("442", c.nick))
      else if |t| == 1 then Done(k, [])
      else if c.nick !in ch.operators then Fail(k, [], Reply("482", c.nick))
      else
      assert t[1] in t;
      if t[1][0] != '+' && t[1][0] != '-' then Fail(k, [], Reply("472", c.nick))
      else
        var batch := if t[1][0] == '+' then Modes.PlusBatch(ch, k.index, t[1][1..], t[2..])
                     else Modes.MinusBatch(ch, t[1][1..], t[2..]);
        match batch
        case Err(e) => Fail(k, [], Reply(e, c.nick))
        case Ok(ch') => Done(k.(channels := k.channels[t[0] := ch']),
                             Broadcast(ch', Notice(c.prefix, "MODE" + Spaced(t)), -1))
  }

  // ---- the rest ----

  function Ping(k: Control, fd: int, p: string): Outcome
    requires fd in k.clients
  {
    if !k.clients[fd].registered then Fail(k, [], Reply("451", k.clients[fd].nick))
    else Done(k, [Tell(fd, Notice(":ircserv", "PONG :" + p))])
  }

  /** Channels and users among the receivers. */
  predicate Mixed(receivers: seq<string>) {
    exists i | 0 <= i < |receivers| :: StartsWith(receivers[i], '#') != StartsWith(receivers[0], '#')
  }

  predicate Duplicated(receivers: seq<string>) {
    exists i, j | 0 <= i < j < |receivers| :: receivers[i] == receivers[j]
  }

  /** The error the first unreachable receiver provokes. */
  function ReceiverError(k: Control, nick: string, receivers: seq<string>): Option<string> {
    if receivers == [] then None
    else
      var r := receivers[0];
      if StartsWith(r, '#') then
        if r !in k.channels then Some(Reply("401", nick))
        else if nick !in k.channels[r].participants then Some(Reply("404", nick))
        else ReceiverError(k, nick, receivers[1..])
      else if FindNick(k.clients, r).None? then Some(Reply("401", nick))
      else ReceiverError(k, nick, receivers[1..])
  }

  function Forward(k: Control, fd: int, prefix: string, receivers: seq<string>, msg: string): seq<Effect> {
    if receivers == [] then []
    else
      var r := receivers[0];
      (if r in k.channels && StartsWith(r, '#') then
         Broadcast(k.channels[r], Notice(prefix, "PRIVMSG " + r + " " + msg), fd)
       else match FindNick(k.clients, r)
         case None => []
         case Some(to) => [Tell(to, Notice(prefix, "PRIVMSG " + r + " " + msg))])
      + Forward(k, fd, prefix, receivers[1..], msg)
  }

  /** The receivers of a PRIVMSG, and its text (with the ':'), empty if there is none. */
  function Addressed(p: string): (seq<string>, string) {
    var t := MessageFields(p, "");
    var n := |t|;
    if n > 0 && StartsWith(t[n - 1], ':') then (t[..n - 1], t[n - 1]) else (t, "")
  }

  function PrivmsgError(k: Control, c: ClientData, receivers: seq<string>, msg: string): Option<string> {
    if !c.registered then Some(Reply("451", c.nick))
    else if Mixed(receivers) then Some(Reply("421", c.nick))
    else if receivers == [] then Some(Reply("411", c.nick))
    else if Duplicated(receivers) then Some(Reply("407", c.nick))
    else if msg == "" then Some(Reply("412", c.nick))
    else ReceiverError(k, c.nick, receivers)
  }

  function Privmsg(k: Control, fd: int, p: string): Outcome
    requires fd in k.clients
  {
    var c := k.clients[fd];
    var (receivers, msg) := Addressed(p);
    match PrivmsgError(k, c, receivers, msg)
    case Some(e) =>
      Fail(k, if c.registered && Mixed(receivers) then [Tell(fd, Notice(":ircserv", "mixed receivers"))] else [], e)
    case None => Done(k, Forward(k, fd, c.prefix, receivers, msg))
  }

  // ---- dispatch ----

  datatype Verb = CAP | NICK | PASS | USER | PING | JOIN | PART | PRIVMSG | KICK | INVITE | MODE | TOPIC | QUIT
      | UNKNOWN

  function VerbOf(cmd: string): Verb {
    match cmd
    case "CAP" => CAP case "NICK" => NICK case "PASS" => PASS case "USER" => USER case "PING" => PING
    case "JOIN" => JOIN case "PART" => PART case "PRIVMSG" => PRIVMSG case "KICK" => KICK
    case "INVITE" => INVITE case "MODE" => MODE case "TOPIC" => TOPIC case "QUIT" => QUIT
    case _ => UNKNOWN
  }

  /** extractCmd and extractCmdParams. */
  function Parse(msg: string): (Verb, string) {
    var n := WordLen(msg);
    (VerbOf(msg[..n]), if n < |msg| then msg[n + 1..] else "")
  }

  function Execute(k: Control, fd: int, verb: Verb, p: string): Outcome
    requires fd in k.clients
  {
    match verb
    case CAP => Done(k, [Tell(fd, Notice(k.clients[fd].prefix, "CAP * LS :"))])
    case NICK => Nick(k, fd, p)
    case PASS => Pass(k, fd, p)
    case USER => User(k, fd, p)
    case PING => Ping(k, fd, p)
    case JOIN => Join(k, fd, p)
    case PART => Part(k, fd, p)
    case PRIVMSG => Privmsg(k, fd, p)
    case KICK => Kick(k, fd, p)
    case INVITE => Invite(k, fd, p)
    case MODE => Mode(k, fd, p)
    case TOPIC => Topic(k, fd, p)
    case QUIT => Done(k, [Drop(fd)])
    case UNKNOWN => Done(k, [Tell(fd, Reply("421", k.clients[fd].nick))])
  }

  /** The error policy: everyone gets the error text, only a client that is not registered gets dropped. */
  predicate Dropped(r: Outcome, fd: int)
    requires fd in r.ctl.clients
  {
    r.error.Some? && !(r.ctl.clients[fd].pass && r.ctl.clients[fd].registered)
  }
}
