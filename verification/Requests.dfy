/**
 * What the text of a message asks for, and exactly when it is granted: the command words, and the commands that are not
 * about channels. Conditions and results are written out in terms of the registry and the text.
 */
module Requests {
  import opened Wrappers
  import opened Text
  import opened Tokenizing
  import opened Ordering
  import opened ServerState
  import opened Commands
  import opened PollTable
  import opened Machine
  import Marks

  // ---- command words ----

  lemma ParseWords(cmd: string, p: string, c: char)
    requires (forall d | d in cmd :: !IsSpace(d)) && IsSpace(c)
    ensures Parse(cmd + [c] + p) == (VerbOf(cmd), p) && Parse(cmd) == (VerbOf(cmd), "")
  {
    hide WordLen, VerbOf;
    var msg := cmd + [c] + p;
    assert msg == cmd + ([c] + p) && ([c] + p)[0] == c;
    WordLenIs(cmd, [c] + p);
    assert msg[..|cmd|] == cmd && msg[|cmd| + 1..] == p;
    WordLenIs(cmd, "");
    assert cmd + "" == cmd && cmd[..|cmd|] == cmd;
  }

  lemma Verbs()
    ensures VerbOf("CAP") == CAP && VerbOf("NICK") == NICK && VerbOf("PASS") == PASS && VerbOf("USER") == USER
    ensures VerbOf("PING") == PING && VerbOf("JOIN") == JOIN && VerbOf("PART") == PART && VerbOf("PRIVMSG") == PRIVMSG
    ensures VerbOf("KICK") == KICK && VerbOf("INVITE") == INVITE && VerbOf("MODE") == MODE && VerbOf("TOPIC") == TOPIC
    ensures VerbOf("QUIT") == QUIT
  {
  }

  /** No white space. */
  predicate Plain(cmd: string) { forall d | d in cmd :: d != ' ' && !(9 <= d as int <= 13) }

  predicate IsCommand(cmd: string) {
    cmd in {"CAP", "NICK", "PASS", "USER", "PING", "JOIN", "PART", "PRIVMSG", "KICK", "INVITE", "MODE", "TOPIC", "QUIT"}
  }

  lemma CommandsArePlain()
    ensures forall cmd | IsCommand(cmd) :: Plain(cmd)
  {
    assert Plain("CAP") && Plain("NICK") && Plain("PASS") && Plain("USER") && Plain("PING") && Plain("JOIN");
    assert Plain("PART") && Plain("PRIVMSG") && Plain("KICK") && Plain("INVITE") && Plain("MODE") && Plain("TOPIC");
    assert Plain("QUIT");
  }

  /** A command word, a white-space character, and the rest. */
  function Line(cmd: string, c: char, p: string): string { cmd + [c] + p }

  lemma LineIs(cmd: string, c: char, p: string)
    requires IsCommand(cmd) && (c == ' ' || 9 <= c as int <= 13)
    ensures Parse(Line(cmd, c, p)) == (VerbOf(cmd), p)
  {
    CommandsArePlain();
    hide VerbOf, Parse;
    assert Plain(cmd);
    ParseWords(cmd, p, c);
  }

  /** Each command word, before a white-space character, runs its own command on what comes after. */
  lemma CommandWords(p: string, c: char)
    requires c == ' ' || 9 <= c as int <= 13
    ensures Parse(Line("CAP", c, p)) == (CAP, p) && Parse(Line("NICK", c, p)) == (NICK, p)
    ensures Parse(Line("PASS", c, p)) == (PASS, p) && Parse(Line("USER", c, p)) == (USER, p)
    ensures Parse(Line("PING", c, p)) == (PING, p) && Parse(Line("JOIN", c, p)) == (JOIN, p)
    ensures Parse(Line("PART", c, p)) == (PART, p) && Parse(Line("PRIVMSG", c, p)) == (PRIVMSG, p)
    ensures Parse(Line("KICK", c, p)) == (KICK, p) && Parse(Line("INVITE", c, p)) == (INVITE, p)
    ensures Parse(Line("MODE", c, p)) == (MODE, p) && Parse(Line("TOPIC", c, p)) == (TOPIC, p)
    ensures Parse(Line("QUIT", c, p)) == (QUIT, p)
  {
    Verbs();
    hide Parse, VerbOf, Line;
    LineIs("CAP", c, p); LineIs("NICK", c, p); LineIs("PASS", c, p); LineIs("USER", c, p); LineIs("PING", c, p);
    LineIs("JOIN", c, p); LineIs("PART", c, p); LineIs("PRIVMSG", c, p); LineIs("KICK", c, p);
    LineIs("INVITE", c, p); LineIs("MODE", c, p); LineIs("TOPIC", c, p); LineIs("QUIT", c, p);
  }

  /** Any other first word, the same in small letters included, is unknown. */
  lemma OtherWords(cmd: string, p: string, c: char)
    requires Plain(cmd) && (c == ' ' || 9 <= c as int <= 13) && !IsCommand(cmd)
    ensures Parse(Line(cmd, c, p)) == (UNKNOWN, p) && Parse(cmd) == (UNKNOWN, "")
  {
    hide Parse;
    ParseWords(cmd, p, c);
  }

  /** What handling a message does to the registry, what it sends, and its error. */
  function Does(k: Control, fd: int, msg: string): Outcome
    requires fd in k.clients
  {
    Execute(k, fd, Parse(msg).0, Parse(msg).1)
  }

  /** The word for a command. */
  function WordOf(verb: Verb): string
    requires verb != UNKNOWN
  {
    match verb
    case CAP => "CAP" case NICK => "NICK" case PASS => "PASS" case USER => "USER" case PING => "PING"
    case JOIN => "JOIN" case PART => "PART" case PRIVMSG => "PRIVMSG" case KICK => "KICK"
    case INVITE => "INVITE" case MODE => "MODE" case TOPIC => "TOPIC" case QUIT => "QUIT"
  }

  /** The text of a request: the command word, a space, the parameters. */
  function Request(verb: Verb, p: string): string
    requires verb != UNKNOWN
  {
    Line(WordOf(verb), ' ', p)
  }

  lemma RequestIs(verb: Verb, p: string)
    requires verb != UNKNOWN
    ensures Parse(Request(verb, p)) == (verb, p)
  {
    CommandWords(p, ' ');
    hide Parse, Line;
  }

  lemma Runs(k: Control, fd: int, verb: Verb, p: string)
    requires fd in k.clients && verb != UNKNOWN
    ensures Does(k, fd, Request(verb, p)) == Execute(k, fd, verb, p)
  {
    hide Execute, Parse, Request;
    RequestIs(verb, p);
  }

  /** ":ircserv", the code and the nickname. */
  function Numeric(code: string, nick: string): string { ":ircserv " + code + " " + nick + "\r\n" }

  // ---- QUIT, PING, CAP and the unknown ----

  /** QUIT marks its sender, registered or not, and changes nothing in the registry. */
  lemma QuitLeaves(s: State, fd: int, p: string)
    requires StateInv(s) && fd in s.ctl.clients
    ensures var s' := Handle(s, fd, Request(QUIT, p)).0; fd in s'.io.toRemove && s'.ctl == s.ctl
  {
    var msg := Request(QUIT, p);
    hide Request, Parse;
    RequestIs(QUIT, p);
    Marks.HandleMarks(s, fd, msg, fd);
    SameDescriptors(s);
    assert Marks.AsksRemoval(s.ctl, fd, msg);
    hide StateInv, Marks.AsksRemoval;
  }

  lemma SameDescriptors(s: State)
    requires StateInv(s)
    ensures s.io.buffers.Keys == s.ctl.clients.Keys
  {
  }

  /** PING is echoed to whoever is registered. */
  lemma PingEchoed(k: Control, fd: int, p: string)
    requires fd in k.clients
    ensures Does(k, fd, Request(PING, p))
         == if k.clients[fd].registered then Outcome(k, [Tell(fd, ":ircserv" + " " + ("PONG :" + p) + "\r\n")], None)
            else Outcome(k, [], Some(Numeric("451", k.clients[fd].nick)))
  {
    Runs(k, fd, PING, p);
    hide Does, Request;
  }

  /** CAP and unknown words get one answer and change nothing. */
  lemma CapAndUnknown(k: Control, fd: int, p: string, cmd: string)
    requires fd in k.clients && Plain(cmd) && !IsCommand(cmd)
    ensures Does(k, fd, Request(CAP, p))
         == Outcome(k, [Tell(fd, k.clients[fd].prefix + " " + "CAP * LS :" + "\r\n")], None)
    ensures Does(k, fd, Line(cmd, ' ', p)) == Outcome(k, [Tell(fd, Numeric("421", k.clients[fd].nick))], None)
  {
    Runs(k, fd, CAP, p);
    OtherWords(cmd, p, ' ');
    hide Parse, Request, Line, IsCommand;
  }

  // ---- PASS ----

  /** PASS is granted iff it has not been given yet and this is the password, which an empty one never is. */
  lemma PassGranted(k: Control, fd: int, p: string)
    requires fd in k.clients
    ensures var c, r := k.clients[fd], Does(k, fd, Request(PASS, p));
            && (r.error.None? <==> !c.pass && p == k.password != "") && r.out == []
            && r.ctl == (if r.error.None? then k.(clients := k.clients[fd := c.(pass := true)]) else k)
            && (p == "" ==> r.error == Some(Numeric("461", c.nick)))
            && (p != "" && c.pass ==> r.error == Some(Numeric("462", c.nick)))
            && (p != "" && !c.pass && p != k.password ==> r.error == Some(Numeric("464", c.nick)))
  {
    Runs(k, fd, PASS, p);
    hide Does, Request;
  }

  // ---- NICK ----

  /** 1 to 20 letters and digits. */
  predicate Nickname(p: string) {
    1 <= |p| <= 20 && forall c | c in p :: '0' <= c <= '9' || 'a' <= c <= 'z' || 'A' <= c <= 'Z'
  }

  /** NICK is granted iff the password was given, the name is a nickname, and nobody, the sender included, has it. */
  lemma NickGranted(k: Control, fd: int, p: string)
    requires fd in k.clients
    ensures var c, r := k.clients[fd], Does(k, fd, Request(NICK, p));
            var shown := if c.nick == "" then "guest" else c.nick;
            && (r.error.None? <==> c.pass && Nickname(p) && forall f | f in k.clients :: k.clients[f].nick != p)
            && (r.error.Some? ==> r.ctl == k && r.out == [])
            && (!c.pass ==> r.error == Some(Numeric("451", c.nick)))
            && (c.pass && p == "" ==> r.error == Some("431 " + shown + " :No nickname given"))
            && (c.pass && p != "" && !Nickname(p) ==> r.error == Some(Numeric("432", shown)))
            && (c.pass && Nickname(p) && (exists f :: f in k.clients && k.clients[f].nick == p) ==>
                r.error == Some(Numeric("433", shown)))
  {
    hide *;
    Runs(k, fd, NICK, p);
    NickIs(k, fd, p);
  }

  /** The command on its parameter. */
  lemma NickIs(k: Control, fd: int, p: string)
    requires fd in k.clients
    ensures var c, r := k.clients[fd], Execute(k, fd, NICK, p);
            var shown := if c.nick == "" then "guest" else c.nick;
            && (r.error.None? <==> c.pass && Nickname(p) && forall f | f in k.clients :: k.clients[f].nick != p)
            && (r.error.Some? ==> r.ctl == k && r.out == [])
            && (!c.pass ==> r.error == Some(Numeric("451", c.nick)))
            && (c.pass && p == "" ==> r.error == Some("431 " + shown + " :No nickname given"))
            && (c.pass && p != "" && !Nickname(p) ==> r.error == Some(Numeric("432", shown)))
            && (c.pass && Nickname(p) && (exists f :: f in k.clients && k.clients[f].nick == p) ==>
                r.error == Some(Numeric("433", shown)))
  {
    NicknamesAre(p);
    hide TakeNick, TellFds, Notice, ValidNick, Nickname;
  }

  lemma NicknamesAre(p: string)
    ensures ValidNick(p) <==> Nickname(p)
    ensures Nickname(p) ==> p != ""
  {
  }

  /** Before registration it is stored with the sender and in the index, and nobody is told. */
  lemma FirstNickTaken(k: Control, fd: int, p: string)
    requires fd in k.clients && !k.clients[fd].registered && Does(k, fd, Request(NICK, p)).error.None?
    ensures var c, r := k.clients[fd], Does(k, fd, Request(NICK, p));
            r.out == []
            && r.ctl == k.(clients := k.clients[fd := c.(nick := p, nickDone := true)],
                           index := k.index[p := Ptr(fd, c.id)])
  {
    Runs(k, fd, NICK, p);
    hide Does, Request, NickError;
  }

  /** Afterwards everyone connected is told once, the sender included. */
  lemma NickToldToAll(k: Control, fd: int, p: string)
    requires fd in k.clients && k.clients[fd].registered && Does(k, fd, Request(NICK, p)).error.None?
    ensures var text := Notice(":" + k.clients[fd].nick, "NICK " + p);
            forall e :: multiset(Does(k, fd, Request(NICK, p)).out)[e]
                     == if e.Tell? && e.fd in k.clients && e.msg == text then 1 else 0
  {
    Runs(k, fd, NICK, p);
    hide Does, Request, NickError, TakeNick, SortedFds, Notice;
    var text := Notice(":" + k.clients[fd].nick, "NICK " + p);
    SortedFdsOnce(k.clients.Keys);
    hide TellFds;
    forall e ensures multiset(Does(k, fd, Request(NICK, p)).out)[e]
                  == if e.Tell? && e.fd in k.clients && e.msg == text then 1 else 0
    {
      FdsHearOnce(SortedFds(k.clients.Keys), text, e);
    }
  }

  lemma {:induction false} FdsHearOnce(fds: seq<int>, msg: string, e: Effect)
    requires forall i, j | 0 <= i < j < |fds| :: fds[i] != fds[j]
    ensures multiset(TellFds(fds, msg))[e] == if e.Tell? && e.fd in fds && e.msg == msg then 1 else 0
    decreases |fds|
  {
    if fds != [] {
      assert fds == [fds[0]] + fds[1..];
      FdsHearOnce(fds[1..], msg, e);
    }
  }

  lemma SortedFdsOnce(ks: set<int>)
    ensures forall i, j | 0 <= i < j < |SortedFds(ks)| :: SortedFds(ks)[i] != SortedFds(ks)[j]
    ensures forall f :: f in SortedFds(ks) <==> f in ks
  {
    assert TotalOrder(IntLeq);
  }

  // ---- USER ----

  predicate IsControl(c: char) { c < ' ' || c as int == 127 }

  /** At most 100 characters, no control characters; not empty unless the sender has a nickname. */
  predicate Realname(s: string, nick: string) {
    (s == "" ==> nick != "") && |s| <= 100 && forall c | c in s :: !IsControl(c)
  }

  /** The same, and no '@' (white space ends it anyway). */
  predicate Username(s: string) { |s| <= 100 && forall c | c in s :: !IsControl(c) && c != '@' }

  lemma {:induction false} SpacedIsJoined(words: seq<string>)
    requires words != []
    ensures JoinWith(words, ' ') == words[0] + Spaced(words[1..])
    decreases |words|
  {
    if |words| > 1 { SpacedIsJoined(words[1..]); }
  }

  /** The parameters of USER: user name, two words nobody looks at, and the real name after a colon. */
  function UserParams(u: string, h: string, v: string, words: seq<string>): seq<string>
    requires words != []
  {
    [u, h, v, ":" + words[0]] + words[1..]
  }

  lemma UserParamsRead(u: string, h: string, v: string, words: seq<string>)
    requires words != [] && Solid(u) && Solid(h) && Solid(v)
    requires Plain(words[0]) && forall w | w in words[1..] :: Solid(w)
    ensures Tokens(JoinWith(UserParams(u, h, v, words), ' ')) == UserParams(u, h, v, words)
    ensures var t := UserParams(u, h, v, words);
            |t| >= 4 && t[0] == u && t[3] != "" && t[3][0] == ':' && t[3][1..] + Spaced(t[4..]) == JoinWith(words, ' ')
  {
    var t := UserParams(u, h, v, words);
    assert Solid(":" + words[0]);
    assert forall w | w in t :: w == u || w == h || w == v || w == ":" + words[0] || w in words[1..];
    TokensUndoJoin(t);
    SpacedIsJoined(words);
    assert t[4..] == words[1..] && t[3][1..] == words[0];
  }

  /** The six replies to whoever has just registered. */
  function Greeting(fd: int, nick: string): seq<Effect> {
    [Tell(fd, Numeric("001", nick)), Tell(fd, Numeric("002", nick)), Tell(fd, Numeric("003", nick)),
     Tell(fd, Numeric("004", nick)), Tell(fd, Numeric("375", nick)), Tell(fd, Numeric("376", nick))]
  }

  /**
   * USER is granted iff the password was given, the sender is not registered yet, and both names are acceptable. It
   * stores them, and completes the registration iff there is a nickname.
   */
  lemma UserGranted(k: Control, fd: int, u: string, h: string, v: string, words: seq<string>)
    requires fd in k.clients && words != [] && Solid(u) && Solid(h) && Solid(v)
    requires Plain(words[0]) && forall w | w in words[1..] :: Solid(w)
    ensures var c, name := k.clients[fd], JoinWith(words, ' ');
            var r := Does(k, fd, Request(USER, JoinWith(UserParams(u, h, v, words), ' ')));
            && (r.error.None? <==> c.pass && !c.registered && Username(u) && Realname(name, c.nick))
            && (r.error.None? ==>
                && r.ctl == k.(clients := k.clients[fd := c.(user := u, realname := name,
                                 prefix := ":" + c.nick + "!" + u + "@" + c.host, userDone := true,
                                 registered := c.nickDone)])
                && r.out == if c.nickDone then Greeting(fd, c.nick) else [])
            && (r.error.Some? ==>
                && r.ctl == (if c.pass && !c.registered && Username(u)
                             then k.(clients := k.clients[fd := c.(user := u)]) else k)
                && r.out == [])
            && (c.registered ==> r.error == Some(Numeric("462", c.nick)))
            && (!c.registered && !c.pass ==> r.error == Some(Numeric("461", c.nick)))
  {
    hide *;
    var t := UserParams(u, h, v, words);
    Runs(k, fd, USER, JoinWith(t, ' '));
    UserParamsRead(u, h, v, words);
    UserIs(k, fd, t, JoinWith(t, ' '));
    NamesAgree(u, JoinWith(words, ' '), k.clients[fd].nick);
  }

  /** The command on its words. */
  lemma UserIs(k: Control, fd: int, t: seq<string>, p: string)
    requires fd in k.clients && Tokens(p) == t && |t| >= 4 && t[3] != "" && t[3][0] == ':'
    ensures var c, name, r := k.clients[fd], t[3][1..] + Spaced(t[4..]), Execute(k, fd, USER, p);
            && (r.error.None? <==> c.pass && !c.registered && UsernameOk(t[0], c.nick) && RealnameOk(name, c.nick))
            && (r.error.None? ==>
                && r.ctl == k.(clients := k.clients[fd := c.(user := t[0], realname := name,
                                 prefix := ":" + c.nick + "!" + t[0] + "@" + c.host, userDone := true,
                                 registered := c.nickDone)])
                && r.out == if c.nickDone then Greeting(fd, c.nick) else [])
            && (r.error.Some? ==>
                && r.ctl == (if c.pass && !c.registered && UsernameOk(t[0], c.nick)
                             then k.(clients := k.clients[fd := c.(user := t[0])]) else k)
                && r.out == [])
            && (c.registered ==> r.error == Some(Numeric("462", c.nick)))
            && (!c.registered && !c.pass ==> r.error == Some(Numeric("461", c.nick)))
  {
    hide Tokens, Spaced, UsernameOk, RealnameOk;
  }

  lemma NamesAgree(u: string, name: string, nick: string)
    requires Solid(u)
    ensures UsernameOk(u, nick) <==> Username(u)
    ensures RealnameOk(name, nick) <==> Realname(name, nick)
  {
  }

  /** Without four words USER is refused. */
  lemma UserIsShort(k: Control, fd: int, words: seq<string>)
    requires fd in k.clients && |words| < 4 && forall w | w in words :: Solid(w)
    ensures var c, r := k.clients[fd], Does(k, fd, Request(USER, JoinWith(words, ' ')));
            r == Outcome(k, [], Some(Numeric(if c.registered then "462" else "461", c.nick)))
  {
    hide Does, Request, Tokens, JoinWith, UsernameOk, RealnameOk, Spaced, Solid;
    Runs(k, fd, USER, JoinWith(words, ' '));
    TokensUndoJoin(words);
  }

  // ---- the error policy ----

  /** A thrown error's text goes to the sender last, and a sender that is not registered is then dropped. */
  function Answer(fd: int, r: Outcome): seq<Effect>
    requires fd in r.ctl.clients
  {
    match r.error
    case None => r.out
    case Some(text) => r.out + [Tell(fd, text)] + if r.ctl.clients[fd].registered then [] else [Drop(fd)]
  }

  /** Main result: what handling any message comes to, registry, effects in order, and answer. */
  lemma HandleIs(s: State, fd: int, msg: string)
    requires StateInv(s) && fd in s.ctl.clients
    ensures var r := Does(s.ctl, fd, msg);
            && fd in r.ctl.clients
            && Handle(s, fd, msg).0 == State(r.ctl, Deliver(s.io, Answer(fd, r)))
            && (Handle(s, fd, msg).1 <==> r.error.None? || r.ctl.clients[fd].registered)
  {
    HandleDelivers(s, fd, msg);
    HandleKeepsControl(s, fd, msg);
    var r := Does(s.ctl, fd, msg);
    assert r.ctl == Handle(s, fd, msg).0.ctl;
    assert ClientOk(r.ctl.clients[fd]);
    hide StateInv, Inv, Execute, Parse, Deliver;
  }
}
