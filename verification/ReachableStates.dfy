/** Runs from the start, message by message, to states that show what the server leaves behind. */
module ReachableStates {
  import opened Wrappers
  import opened Text
  import opened Tokenizing
  import opened ServerState
  import opened Commands
  import opened PollTable
  import opened Machine
  import opened EventLoop
  import Acts
  import CommandGuarantees
  import DeferredDeletion
  import Framing
  import Requests

  /** The client on fd is connected, everything it sent was handled, and no send will find a dead peer. */
  ghost predicate Listening(s: State, fd: int) {
    && StateInv(s) && fd in s.ctl.clients && fd !in s.io.toRemove && s.io.buffers[fd].recv == ""
    && CommandGuarantees.NoPeerGone(s.io.net)
  }

  /** A client sends one message, which gets handled. */
  function Spoken(fd: int, msg: string): seq<Event> { [Receive(fd, msg + Framing.CRLF), Process(fd)] }

  /** A message that the framing leaves alone. */
  ghost predicate Sendable(msg: string) {
    !Framing.HasCrlf(msg) && |msg| <= Framing.TEXT_MAX && '\0' !in msg
  }

  lemma PlainText(msg: string)
    requires '\r' !in msg && '\0' !in msg && |msg| <= Framing.TEXT_MAX
    ensures Sendable(msg)
  {
  }

  function After(s: State, fd: int, msg: string): State {
    Step(Step(s, Receive(fd, msg + Framing.CRLF)), Process(fd))
  }

  lemma Received(s: State, fd: int, msg: string)
    requires Listening(s, fd) && Sendable(msg)
    ensures var s1 := Step(s, Receive(fd, msg + Framing.CRLF));
            && StateInv(s1) && CanProcess(s1, fd) && s1.ctl == s.ctl
            && Framing.Extract(s1.io.buffers[fd].recv) == Some((msg, ""))
            && s1.io.toRemove == s.io.toRemove && s1.io.net == s.io.net
  {
    var chunk := msg + Framing.CRLF;
    WholeChunk(msg);
    StepKeepsInv(s, Receive(fd, chunk));
    hide Inv, IoInv, Framing.Extract, Framing.CString, Sendable;
    assert "" + chunk == chunk;
  }

  lemma WholeChunk(msg: string)
    requires Sendable(msg)
    ensures Framing.CString(msg + Framing.CRLF) == msg + Framing.CRLF
    ensures Framing.Extract(msg + Framing.CRLF) == Some((msg, ""))
  {
    hide Framing.Extract;
    Framing.CStringEnds(msg + Framing.CRLF, "");
    assert msg + Framing.CRLF + "" == msg + Framing.CRLF;
    Framing.ExtractEncoded(msg, "");
  }

  /** Without an error the registry is what the command makes of it, and the client is listening again. */
  lemma SpokenMessage(s: State, fd: int, msg: string, verb: Verb, p: string)
    requires Listening(s, fd) && Sendable(msg) && Parse(msg) == (verb, p)
    requires verb != QUIT && Execute(s.ctl, fd, verb, p).error.None?
    ensures var s' := After(s, fd, msg);
            Reaches(s, Spoken(fd, msg), s') && Listening(s', fd) && s'.ctl == Execute(s.ctl, fd, verb, p).ctl
  {
    hide Execute, Parse, Framing.Extract, Sendable;
    Received(s, fd, msg);
    var s1 := Step(s, Receive(fd, msg + Framing.CRLF));
    var r := Execute(s.ctl, fd, verb, p);
    StepKeepsInv(s1, Process(fd));
    ProcessKeepsInv(s1, fd);
    CommandGuarantees.OnlyQuitDrops(s.ctl, fd, verb, p);
    CommandGuarantees.CastsMarkNobody(PollTable.Received(s1.io, fd, ""), r.out);
    OneEvent(s, Receive(fd, msg + Framing.CRLF));
    OneEvent(s1, Process(fd));
    hide StateInv, Reaches;
    Chain(s, [Receive(fd, msg + Framing.CRLF)], s1, [Process(fd)], Step(s1, Process(fd)));
  }

  // ---- one client on its own ----

  const FD := 4

  function OneClient(c: ClientData, index: map<string, Ptr>, channels: map<string, ChannelData>, nextId: nat): Control {
    Control(3, "p", map[FD := c], channels, index, nextId)
  }

  lemma PassAccepted(id: nat, nextId: nat)
    ensures Pass(OneClient(Acts.NewClient(id, "h"), map[], map[], nextId), FD, "p")
         == Done(OneClient(Acts.NewClient(id, "h").(pass := true), map[], map[], nextId), [])
  {
    var k := OneClient(Acts.NewClient(id, "h"), map[], map[], nextId);
    assert k.clients[FD := k.clients[FD].(pass := true)] == map[FD := k.clients[FD].(pass := true)];
  }

  /** The only client takes a nickname it does not have yet. */
  lemma NickAccepted(c: ClientData, index: map<string, Ptr>, nextId: nat, nick: string)
    requires c.pass && !c.registered && ValidNick(nick) && c.nick != nick
    ensures Nick(OneClient(c, index, map[], nextId), FD, nick)
         == Done(OneClient(c.(nick := nick, nickDone := true), index[nick := Ptr(FD, c.id)], map[], nextId), [])
  {
    hide FindNickIn;
    var k := OneClient(c, index, map[], nextId);
    assert FindNick(k.clients, nick).None?;
    var c' := c.(nick := nick, nickDone := true);
    assert k.clients[FD := c'] == map[FD := c'];
  }

  /** "USER u 0 * :r" completes the registration. */
  lemma UserAccepted(c: ClientData, index: map<string, Ptr>, nextId: nat)
    requires c.pass && c.nickDone && !c.registered && c.nick != ""
    ensures var r := User(OneClient(c, index, map[], nextId), FD, "u 0 * :r");
            var c' := c.(user := "u", realname := "r", prefix := UserPrefix(c.nick, "u", c.host), userDone := true);
            r.error.None? && r.ctl == OneClient(c'.(registered := true), index, map[], nextId)
  {
    var words, k := ["u", "0", "*", ":r"], OneClient(c, index, map[], nextId);
    UserLine();
    assert words[3][1..] + Spaced(words[4..]) == "r";
    assert UsernameOk("u", c.nick) && RealnameOk("r", c.nick);
    hide Welcome, UserPrefix, UsernameOk, RealnameOk, Tokens, Spaced;
    var c' := c.(user := "u", realname := "r", prefix := UserPrefix(c.nick, "u", c.host),
                 userDone := true, registered := true);
    assert k.clients[FD := c'] == map[FD := c'];
  }

  lemma UserLine()
    ensures Tokens("u 0 * :r") == ["u", "0", "*", ":r"]
  {
    var words := ["u", "0", "*", ":r"];
    assert words[1..] == ["0", "*", ":r"] && words[1..][1..] == ["*", ":r"] && words[1..][1..][1..] == [":r"];
    assert JoinWith([":r"], ' ') == ":r" && JoinWith(["*", ":r"], ' ') == "* :r";
    assert JoinWith(["0", "*", ":r"], ' ') == "0 * :r" && JoinWith(words, ' ') == "u 0 * :r";
    TokensUndoJoin(words);
  }

  /** "JOIN #c" where there is no channel yet: its founder is alone in it. */
  lemma JoinAccepted(k: Control)
    requires Inv(k) && FD in k.clients && k.clients[FD].registered && k.channels == map[]
    ensures var r := Join(k, FD, "#c");
            && r.error.None? && "#c" in r.ctl.channels
            && r.ctl.channels["#c"].participants == map[k.clients[FD].nick := PtrOf(k, FD)]
  {
    FieldsUndoJoin(["#c"], ',');
    assert JoinWith(["#c"], ',') == "#c" && ["#c"][1..] == [];
    assert Select(["#c"], true) == ["#c"] && Select(["#c"], false) == [];
    assert ValidChannelName("#c");
    Acts.FounderIsAdmitted(k, FD, "#c", "");
    hide Inv, JoinOne, Fields, ValidChannelName, Reply;
    var k1 := JoinOne(k, FD, "#c", "").ctl;
    assert JoinAll(k, FD, ["#c"], []).ctl == k1 && JoinAll(k, FD, ["#c"], []).error.None?;
  }

  lemma Executes(k: Control, p: string)
    requires FD in k.clients
    ensures VerbOf("PASS") == PASS && Execute(k, FD, PASS, p) == Pass(k, FD, p)
    ensures VerbOf("NICK") == NICK && Execute(k, FD, NICK, p) == Nick(k, FD, p)
    ensures VerbOf("USER") == USER && Execute(k, FD, USER, p) == User(k, FD, p)
    ensures VerbOf("JOIN") == JOIN && Execute(k, FD, JOIN, p) == Join(k, FD, p)
  {
    hide Pass, Nick, User, Join;
  }

  /** A line made of a command and its parameters is sent and parsed as just that. */
  lemma PlainLine(cmd: string, p: string)
    requires (forall c | c in cmd :: !IsSpace(c)) && '\0' !in cmd + p && '\r' !in p
    requires |cmd| + 1 + |p| <= Framing.TEXT_MAX
    ensures var msg := cmd + " " + p; Sendable(msg) && Parse(msg) == (VerbOf(cmd), p)
  {
    Requests.ParseWords(cmd, p, ' ');
    var msg := cmd + " " + p;
    assert cmd + [' '] + p == msg;
    forall c | c in msg ensures c != '\r' && c != '\0' {
      assert c in cmd || c == ' ' || c in p;
      assert c in cmd + p || c == ' ';
    }
    hide Parse, VerbOf;
    PlainText(msg);
  }

  lemma PassLine()
    ensures Sendable("PASS p") && Parse("PASS p") == (PASS, "p")
  {
    hide Sendable, Parse;
    PlainLine("PASS", "p");
    assert "PASS" + " " + "p" == "PASS p";
  }

  lemma NickLine(nick: string)
    requires ValidNick(nick)
    ensures Sendable("NICK " + nick) && Parse("NICK " + nick) == (NICK, nick)
  {
    hide Sendable, Parse;
    PlainLine("NICK", nick);
    assert "NICK" + " " + nick == "NICK " + nick;
  }

  lemma UserLineParses()
    ensures Sendable("USER u 0 * :r") && Parse("USER u 0 * :r") == (USER, "u 0 * :r")
  {
    hide Sendable, Parse;
    PlainLine("USER", "u 0 * :r");
    assert "USER" + " " + "u 0 * :r" == "USER u 0 * :r";
  }

  lemma JoinLine()
    ensures Sendable("JOIN #c") && Parse("JOIN #c") == (JOIN, "#c")
  {
    hide Sendable, Parse;
    PlainLine("JOIN", "#c");
    assert "JOIN" + " " + "#c" == "JOIN #c";
  }

  // ---- the runs ----

  function Opening(): seq<Event> {
    [Accept(FD, "h")] + (Spoken(FD, "PASS p") + Spoken(FD, "NICK a"))
  }

  function Named(nick: string): ClientData { Acts.NewClient(0, "h").(pass := true, nick := nick, nickDone := true) }

  function Connected1(): State { Step(Start(3, "p"), Accept(FD, "h")) }

  lemma FirstConnection()
    ensures Reaches(Start(3, "p"), [Accept(FD, "h")], Connected1()) && Listening(Connected1(), FD)
    ensures Connected1().ctl == OneClient(Acts.NewClient(0, "h"), map[], map[], 1)
  {
    StartIsValid(3, "p");
    StepKeepsInv(Start(3, "p"), Accept(FD, "h"));
    OneEvent(Start(3, "p"), Accept(FD, "h"));
  }

  lemma TakesPass(s: State)
    requires Listening(s, FD) && s.ctl == OneClient(Acts.NewClient(0, "h"), map[], map[], 1)
    ensures var s' := After(s, FD, "PASS p");
            && Reaches(s, Spoken(FD, "PASS p"), s') && Listening(s', FD)
            && s'.ctl == OneClient(Acts.NewClient(0, "h").(pass := true), map[], map[], 1)
  {
    Executes(s.ctl, "p");
    hide Listening, Reaches, After, Execute, Parse, VerbOf, Pass, Sendable, Spoken;
    PassLine();
    PassAccepted(0, 1);
    SpokenMessage(s, FD, "PASS p", PASS, "p");
  }

  lemma TakesNick(s: State, c: ClientData, index: map<string, Ptr>, nick: string)
    requires Listening(s, FD) && s.ctl == OneClient(c, index, map[], 1)
    requires c.pass && !c.registered && ValidNick(nick) && c.nick != nick
    ensures var msg := "NICK " + nick;
            var s' := After(s, FD, msg);
            && Reaches(s, Spoken(FD, msg), s') && Listening(s', FD)
            && s'.ctl == OneClient(c.(nick := nick, nickDone := true), index[nick := Ptr(FD, c.id)], map[], 1)
  {
    Executes(s.ctl, nick);
    hide Listening, Reaches, After, Execute, Parse, VerbOf, Nick, Sendable, Spoken;
    NickLine(nick);
    NickAccepted(c, index, 1, nick);
    SpokenMessage(s, FD, "NICK " + nick, NICK, nick);
  }

  lemma TakesUser(s: State, c: ClientData, index: map<string, Ptr>)
    requires Listening(s, FD) && s.ctl == OneClient(c, index, map[], 1)
    requires c.pass && c.nickDone && !c.registered && c.nick != ""
    ensures var s' := After(s, FD, "USER u 0 * :r");
            && Reaches(s, Spoken(FD, "USER u 0 * :r"), s') && Listening(s', FD)
            && FD in s'.ctl.clients && s'.ctl.clients[FD].registered && s'.ctl.channels == map[]
  {
    Executes(s.ctl, "u 0 * :r");
    hide Listening, Reaches, After, Execute, Parse, VerbOf, User, Sendable, Spoken;
    UserLineParses();
    UserAccepted(c, index, 1);
    SpokenMessage(s, FD, "USER u 0 * :r", USER, "u 0 * :r");
  }

  lemma TakesJoin(s: State)
    requires Listening(s, FD) && s.ctl.clients[FD].registered && s.ctl.channels == map[]
    ensures var s' := After(s, FD, "JOIN #c");
            && Reaches(s, Spoken(FD, "JOIN #c"), s') && Listening(s', FD) && "#c" in s'.ctl.channels
            && forall n | n in s'.ctl.channels["#c"].participants :: s'.ctl.channels["#c"].participants[n].fd == FD
  {
    Executes(s.ctl, "#c");
    hide Inv, IoInv, Reaches, After, Execute, Parse, VerbOf, Join, Sendable, Spoken;
    JoinLine();
    JoinAccepted(s.ctl);
    SpokenMessage(s, FD, "JOIN #c", JOIN, "#c");
  }

  lemma GetsMarked(s: State)
    requires Listening(s, FD)
    ensures var s1 := Step(s, Remove(FD)); StateInv(s1) && FD in s1.io.toRemove && s1.ctl == s.ctl
  {
    StepKeepsInv(s, Remove(FD));
    hide Inv, IoInv, Void;
  }

  /** The hang-up of the only participant, and the cleanup. */
  lemma HangsUp(s: State)
    requires Listening(s, FD) && "#c" in s.ctl.channels
    requires forall n | n in s.ctl.channels["#c"].participants :: s.ctl.channels["#c"].participants[n].fd == FD
    ensures var s' := Step(Step(s, Remove(FD)), Cleanup);
            && Reaches(s, [Remove(FD), Cleanup], s') && StateInv(s')
            && "#c" in s'.ctl.channels && s'.ctl.channels["#c"].participants == map[]
  {
    var s1 := Step(s, Remove(FD));
    GetsMarked(s);
    OneEvent(s, Remove(FD));
    hide Listening, Mark, StateInv, Reaches;
    EmptiedByCleanup(s1);
    Chain(s, [Remove(FD)], s1, [Cleanup], Step(s1, Cleanup));
    assert [Remove(FD)] + [Cleanup] == [Remove(FD), Cleanup];
  }

  lemma EmptiedByCleanup(s: State)
    requires StateInv(s) && FD in s.io.toRemove && "#c" in s.ctl.channels
    requires forall n | n in s.ctl.channels["#c"].participants :: s.ctl.channels["#c"].participants[n].fd == FD
    ensures var s' := Step(s, Cleanup);
            && Reaches(s, [Cleanup], s') && StateInv(s')
            && "#c" in s'.ctl.channels && s'.ctl.channels["#c"].participants == map[]
  {
    hide *;
    CleanupEvent(s);
    CleanKeepsInv(s);
    DeferredDeletion.CleanupLeavesEmptyChannels(s, "#c");
  }

  lemma CleanupEvent(s: State)
    ensures Step(s, Cleanup) == Clean(s) && Reaches(s, [Cleanup], Clean(s))
  {
    hide Clean;
    OneEvent(s, Cleanup);
  }

  lemma Opened() returns (s: State)
    ensures Reaches(Start(3, "p"), Opening(), s) && Listening(s, FD)
    ensures s.ctl == OneClient(Named("a"), map["a" := Ptr(FD, 0)], map[], 1)
  {
    hide Reaches, Listening, After;
    var s0, s1 := Start(3, "p"), Connected1();
    FirstConnection();
    TakesPass(s1);
    var s2 := After(s1, FD, "PASS p");
    TakesNick(s2, Acts.NewClient(0, "h").(pass := true), map[], "a");
    assert "NICK " + "a" == "NICK a";
    s := After(s2, FD, "NICK a");
    Chain(s1, Spoken(FD, "PASS p"), s2, Spoken(FD, "NICK a"), s);
    Chain(s0, [Accept(FD, "h")], s1, Spoken(FD, "PASS p") + Spoken(FD, "NICK a"), s);
  }

  /** PASS, NICK a, NICK b: nobody is called "a", and the index still has it. */
  lemma StaleNicknameIsReachable() returns (es: seq<Event>)
    ensures Possible(Start(3, "p"), es)
    ensures var k := Run(Start(3, "p"), es).ctl; "a" in k.index && FindNick(k.clients, "a").None?
  {
    hide Listening, After;
    var s := Opened();
    TakesNick(s, Named("a"), map["a" := Ptr(FD, 0)], "b");
    assert "NICK " + "b" == "NICK b";
    var s' := After(s, FD, "NICK b");
    Chain(Start(3, "p"), Opening(), s, Spoken(FD, "NICK b"), s');
    es := Opening() + Spoken(FD, "NICK b");
    assert s'.ctl.clients[FD].nick == "b";
    hide FindNickIn;
  }

  /** Registration, JOIN #c, a hang-up and the cleanup: the channel is there and empty. */
  lemma EmptyChannelIsReachable() returns (es: seq<Event>)
    ensures Possible(Start(3, "p"), es)
    ensures var k := Run(Start(3, "p"), es).ctl; "#c" in k.channels && k.channels["#c"].participants == map[]
  {
    hide Listening, After, Step, Opening, Spoken;
    var s0, user, join, bye := Start(3, "p"), Spoken(FD, "USER u 0 * :r"), Spoken(FD, "JOIN #c"), [Remove(FD), Cleanup];
    var s := Opened();
    TakesUser(s, Named("a"), map["a" := Ptr(FD, 0)]);
    var s1 := After(s, FD, "USER u 0 * :r");
    Chain(s0, Opening(), s, user, s1);
    TakesJoin(s1);
    var s2 := After(s1, FD, "JOIN #c");
    Chain(s0, Opening() + user, s1, join, s2);
    HangsUp(s2);
    var s3 := Step(Step(s2, Remove(FD)), Cleanup);
    Chain(s0, Opening() + user + join, s2, bye, s3);
    es := Opening() + user + join + bye;
  }

  lemma TakesTwoNicks() returns (es: seq<Event>, s: State)
    ensures Reaches(Start(3, "p"), es, s) && Listening(s, FD) && s.ctl.clients == map[FD := Named("b")]
    ensures s.ctl.index == map["a" := Ptr(FD, 0), "b" := Ptr(FD, 0)]
  {
    hide Listening, After;
    var s0 := Opened();
    TakesNick(s0, Named("a"), map["a" := Ptr(FD, 0)], "b");
    assert "NICK " + "b" == "NICK b";
    s := After(s0, FD, "NICK b");
    Chain(Start(3, "p"), Opening(), s0, Spoken(FD, "NICK b"), s);
    es := Opening() + Spoken(FD, "NICK b");
    assert Named("a").(nick := "b", nickDone := true) == Named("b");
  }

  lemma LeavesIndexEntry(s: State)
    requires Listening(s, FD) && s.ctl.clients == map[FD := Named("b")]
    requires s.ctl.index == map["a" := Ptr(FD, 0), "b" := Ptr(FD, 0)]
    ensures var s' := Step(Step(s, Remove(FD)), Cleanup);
            && Reaches(s, [Remove(FD), Cleanup], s')
            && "a" in s'.ctl.index && !Live(s'.ctl.clients, s'.ctl.index["a"])
  {
    hide *;
    var s1 := Step(s, Remove(FD));
    GetsMarked(s);
    MarkEvent(s);
    CleanupEvent(s1);
    IndexEntryStays(s1);
    Chain(s, [Remove(FD)], s1, [Cleanup], Clean(s1));
    assert [Remove(FD)] + [Cleanup] == [Remove(FD), Cleanup];
  }

  lemma MarkEvent(s: State)
    ensures Reaches(s, [Remove(FD)], Step(s, Remove(FD)))
  {
    OneEvent(s, Remove(FD));
  }

  lemma IndexEntryStays(s: State)
    requires StateInv(s) && FD in s.io.toRemove && s.ctl.clients == map[FD := Named("b")]
    requires s.ctl.index == map["a" := Ptr(FD, 0), "b" := Ptr(FD, 0)]
    ensures "a" in Clean(s).ctl.index && !Live(Clean(s).ctl.clients, Clean(s).ctl.index["a"])
  {
    DeferredDeletion.CleanupIndex(s);
    DeferredDeletion.CleanupPurgesExactlyTheMarked(s);
    hide StateInv, Clean;
    forall f | f in s.io.toRemove && f in s.ctl.clients ensures s.ctl.clients[f].nick != "a" {
      assert f == FD;
    }
  }

  /** PASS, NICK a, NICK b, a hang-up and the cleanup: the index names a client that is gone. */
  lemma DanglingIndexIsReachable() returns (es: seq<Event>)
    ensures Possible(Start(3, "p"), es)
    ensures var k := Run(Start(3, "p"), es).ctl; "a" in k.index && !Live(k.clients, k.index["a"])
  {
    hide Listening, Step;
    var es1, s := TakesTwoNicks();
    LeavesIndexEntry(s);
    Chain(Start(3, "p"), es1, s, [Remove(FD), Cleanup], Step(Step(s, Remove(FD)), Cleanup));
    es := es1 + [Remove(FD), Cleanup];
  }
}
