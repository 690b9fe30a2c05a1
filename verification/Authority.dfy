/**
 * Who may change what, over whole runs: where operators come from, who changes settings, topic and membership.
 * Clients are meant by identity (Ptr), channels by instance (id), so renames and reused names do not blur the claims.
 */
module Authority {
  import opened ServerState
  import opened Commands
  import opened Acts
  import Modes

  predicate IsOp(k: Control, name: string, inst: nat, p: Ptr) {
    name in k.channels && k.channels[name].id == inst && p in k.channels[name].operators.Values
  }

  predicate IsIn(k: Control, name: string, inst: nat, p: Ptr) {
    name in k.channels && k.channels[name].id == inst && p in k.channels[name].participants.Values
  }

  /** In a valid registry the sender's own nickname finds the sender's own entries. */
  lemma OwnEntries(k: Control, fd: int, name: string)
    requires Inv(k) && IsMember(k, fd, name)
    ensures k.channels[name].participants[k.clients[fd].nick] == PtrOf(k, fd)
    ensures Operates(k, fd, name) ==> IsOp(k, name, k.channels[name].id, PtrOf(k, fd))
  {
  }

  // ---- MODE and the operator map ----

  lemma {:induction false} PlusExecOperators(ch: ChannelData, index: map<string, Ptr>, need: string, args: seq<string>,
        n: string)
    requires |need| == |args|
    ensures var ch' := Modes.PlusExec(ch, index, need, args);
            n in ch'.operators ==>
            (n in ch.operators && ch'.operators[n] == ch.operators[n]) || (n in args && 'o' in need)
    decreases |need|
  {
    if need != "" {
      PlusExecOperators(Modes.PlusApply(ch, index, need[0], args[0]), index, need[1..], args[1..], n);
      assert args == [args[0]] + args[1..] && need == [need[0]] + need[1..];
    }
  }

  lemma {:induction false} MinusExecOperators(ch: ChannelData, need: string, args: seq<string>, n: string)
    requires |need| == |args|
    ensures var ch' := Modes.MinusExec(ch, need, args);
            n in ch'.operators ==> n in ch.operators && ch'.operators[n] == ch.operators[n]
    decreases |need|
  {
    if need != "" { MinusExecOperators(Modes.MinusApply(ch, need[0], args[0]), need[1..], args[1..], n); }
  }

  lemma ModesGrantOperators(k: Control, a: Act, n: string)
    requires Inv(k) && a.SetModes? && Allowed(k, a)
    requires n in Batch(k, a).value.operators
    ensures var ch := k.channels[a.name];
            var ch' := Batch(k, a).value;
            && ch'.participants == ch.participants && ch'.id == ch.id
            && n in ch.participants && ch'.operators[n] == ch.participants[n]
            && (n in ch.operators || (a.plus && 'o' in a.letters && n in a.args))
  {
    var ch, ch' := k.channels[a.name], Batch(k, a).value;
    ModeBatchKeepsOk(k, a.name, a.plus, a.letters, a.args);
    if a.plus {
      var need := Modes.Needing(a.letters, Modes.PlusTakesParam);
      PlusExecOperators(Modes.PlusFlags(ch, a.letters), k.index, need, a.args, n);
    } else {
      MinusExecOperators(Modes.MinusFlags(ch, a.letters), Modes.Needing(a.letters, Modes.MinusTakesParam), a.args, n);
    }
  }

  // ---- one act ----

  /** What an act makes of one channel that exists before and after it. */
  function ChannelAfter(k: Control, a: Act, name: string): ChannelData
    requires Allowed(k, a) && name in k.channels
  {
    var ch := k.channels[name];
    match a
    case Disconnect(fd) => Purged(ch, k.clients[fd].nick)
    case Rename(fd, nick) =>
      if k.clients[fd].registered then Renamed(ch, k.clients[fd].nick, nick, PtrOf(k, fd)) else ch
    case Enter(fd, on, _) => if on == name then Joined(ch, k.clients[fd].nick, PtrOf(k, fd)) else ch
    case Exit(fd, on) => if on == name then Purged(ch, k.clients[fd].nick) else ch
    case Expel(_, on, nick) => if on == name then Purged(ch, nick) else ch
    case Grant(_, on, nick) => if on == name then ch.(invited := ch.invited + {nick}) else ch
    case SetTopic(_, on, topic) => if on == name then ch.(topic := topic) else ch
    case SetModes(_, on, _, _, _) => if on == name then Batch(k, a).value else ch
    case _ => ch
  }

  lemma ChannelEffect(k: Control, a: Act, name: string)
    requires Allowed(k, a)
    ensures var k' := Perform(k, a);
            && (name in k.channels && name in k'.channels ==> k'.channels[name] == ChannelAfter(k, a, name))
            && (name !in k.channels && name in k'.channels ==> a.Create? && a.name == name)
            && (name in k.channels && name !in k'.channels ==>
                (a.Exit? || a.Expel?) && a.name == name && ChannelAfter(k, a, name).participants == map[])
  {
  }

  /** p became an operator by creating this channel. */
  predicate Founds(k: Control, a: Act, name: string, inst: nat, p: Ptr) {
    a.Create? && a.name == name && name !in k.channels && inst == k.nextId && a.fd in k.clients && p == PtrOf(k, a.fd)
  }

  /** p, a participant, was named in a MODE +o by q, who was an operator at that moment. */
  predicate Promotes(k: Control, a: Act, name: string, inst: nat, p: Ptr, q: Ptr) {
    && a.SetModes? && a.plus && a.name == name && 'o' in a.letters
    && a.fd in k.clients && q == PtrOf(k, a.fd) && IsOp(k, name, inst, q)
    && exists n | n in a.args :: n in k.channels[name].participants && k.channels[name].participants[n] == p
  }

  lemma ModesOrigin(k: Control, a: Act, p: Ptr)
    requires Inv(k) && a.SetModes? && Allowed(k, a)
    ensures var inst := k.channels[a.name].id;
            IsOp(Perform(k, a), a.name, inst, p) ==>
            IsOp(k, a.name, inst, p) || Promotes(k, a, a.name, inst, p, PtrOf(k, a.fd))
  {
    var ch, ch' := k.channels[a.name], Batch(k, a).value;
    OwnEntries(k, a.fd, a.name);
    assert ChannelOk(k.clients, ch);
    if IsOp(Perform(k, a), a.name, ch.id, p) {
      var n :| n in ch'.operators && ch'.operators[n] == p;
      ModesGrantOperators(k, a, n);
      if n in ch.operators { assert ch.operators[n] == p; }
    }
  }

  /** The only two ways to become an operator of a channel instance. */
  lemma OperatorOrigin(k: Control, a: Act, name: string, inst: nat, p: Ptr)
    requires Inv(k) && Allowed(k, a)
    ensures IsOp(Perform(k, a), name, inst, p) ==>
            || IsOp(k, name, inst, p)
            || Founds(k, a, name, inst, p)
            || (a.fd in k.clients && Promotes(k, a, name, inst, p, PtrOf(k, a.fd)))
  {
    ChannelEffect(k, a, name);
    if name in k.channels {
      var ch := k.channels[name];
      if a.Rename? {
        RenameKeepsIdentities(k, a.fd, a.nick, name);
      } else if a.SetModes? {
        ModesOrigin(k, a, p);
        if a.name == name { ModeBatchKeepsOk(k, a.name, a.plus, a.letters, a.args); }
      } else {
        assert ChannelAfter(k, a, name).id == ch.id;
        ShrunkValues(ch.operators, ChannelAfter(k, a, name).operators, p);
      }
    }
  }

  lemma ShrunkValues(m: map<string, Ptr>, m': map<string, Ptr>, p: Ptr)
    requires forall n | n in m' :: n in m && m'[n] == m[n]
    ensures p in m'.Values ==> p in m.Values
  {
  }

  /** NICK keeps every channel's participants and operators, by identity; nothing else of a channel changes. */
  lemma RenameKeepsIdentities(k: Control, fd: int, nick: string, name: string)
    requires Inv(k) && Allowed(k, Rename(fd, nick)) && name in k.channels
    ensures var ch, ch' := k.channels[name], Perform(k, Rename(fd, nick)).channels[name];
            && ch'.operators.Values == ch.operators.Values && ch'.participants.Values == ch.participants.Values
            && |ch'.operators| == |ch.operators| && |ch'.participants| == |ch.participants|
            && ch'.(participants := ch.participants, operators := ch.operators) == ch
  {
    var was, p := k.clients[fd].nick, PtrOf(k, fd);
    var ch, ch' := k.channels[name], Perform(k, Rename(fd, nick)).channels[name];
    NewNickIsNew(k, fd, nick, name);
    if was in ch.participants && k.clients[fd].registered {
      OwnEntries(k, fd, name);
      MovedKey(ch.participants, was, nick);
      assert ch'.participants == (ch.participants - {was})[nick := p];
      if was in ch.operators { MovedKey(ch.operators, was, nick); }
    }
  }

  lemma NewNickIsNew(k: Control, fd: int, nick: string, name: string)
    requires Inv(k) && Allowed(k, Rename(fd, nick)) && name in k.channels
    ensures nick !in k.channels[name].participants && nick !in k.channels[name].operators
  {
  }

  lemma MovedKey(m: map<string, Ptr>, was: string, nick: string)
    requires was in m && nick !in m
    ensures ((m - {was})[nick := m[was]]).Values == m.Values
    ensures |(m - {was})[nick := m[was]]| == |m|
  {
    var m' := (m - {was})[nick := m[was]];
    forall v | v in m.Values ensures v in m'.Values {
      var n :| n in m && m[n] == v;
      assert m'[if n == was then nick else n] == v;
    }
    assert m'.Keys == m.Keys - {was} + {nick};
  }

  /** Modes, key and limit of a channel change only by MODE from one of its operators. */
  lemma SettingsNeedOperator(k: Control, a: Act, name: string)
    requires Inv(k) && Allowed(k, a) && name in k.channels && name in Perform(k, a).channels
    ensures var ch, ch' := k.channels[name], Perform(k, a).channels[name];
            || (ch'.modes == ch.modes && ch'.key == ch.key && ch'.limit == ch.limit)
            || (a.SetModes? && a.name == name && IsOp(k, name, ch.id, PtrOf(k, a.fd)))
  {
    ChannelEffect(k, a, name);
    if a.SetModes? { OwnEntries(k, a.fd, a.name); }
  }

  /** The topic changes only by TOPIC from a participant, who under +t is an operator. */
  lemma TopicNeedsRight(k: Control, a: Act, name: string)
    requires Inv(k) && Allowed(k, a) && name in k.channels && name in Perform(k, a).channels
    ensures var ch := k.channels[name];
            || Perform(k, a).channels[name].topic == ch.topic
            || (a.SetTopic? && a.name == name && IsIn(k, name, ch.id, PtrOf(k, a.fd))
                && ('t' in ch.modes ==> IsOp(k, name, ch.id, PtrOf(k, a.fd))))
  {
    ChannelEffect(k, a, name);
    if a.SetModes? { ModeBatchKeepsOk(k, a.name, a.plus, a.letters, a.args); }
    if a.SetTopic? { OwnEntries(k, a.fd, a.name); }
  }

  /** One gets into a channel only by one's own JOIN. */
  lemma EntryIsOwnJoin(k: Control, a: Act, name: string, inst: nat, p: Ptr)
    requires Inv(k) && Allowed(k, a)
    ensures IsIn(Perform(k, a), name, inst, p) ==>
            || IsIn(k, name, inst, p)
            || ((a.Create? || a.Enter?) && a.name == name && a.fd in k.clients && p == PtrOf(k, a.fd))
  {
    ChannelEffect(k, a, name);
    if name in k.channels {
      var ch := k.channels[name];
      if a.Rename? {
        RenameKeepsIdentities(k, a.fd, a.nick, name);
      } else if a.SetModes? {
        ModeBatchKeepsOk(k, a.name, a.plus, a.letters, a.args);
      } else if !a.Enter? {
        ShrunkValues(ch.participants, ChannelAfter(k, a, name).participants, p);
      }
    }
  }

  /** p's own PART or disconnection, or a KICK by an operator. */
  predicate Removes(k: Control, a: Act, name: string, inst: nat, p: Ptr) {
    && a.fd in k.clients
    && ((((a.Exit? && a.name == name) || a.Disconnect?) && p == PtrOf(k, a.fd))
        || (a.Expel? && a.name == name && IsOp(k, name, inst, PtrOf(k, a.fd))))
  }

  /** One gets out only by one's own PART, a KICK from an operator, or disconnecting. */
  lemma ExitIsEarned(k: Control, a: Act, name: string, inst: nat, p: Ptr)
    requires Inv(k) && Allowed(k, a)
    ensures IsIn(k, name, inst, p) ==> IsIn(Perform(k, a), name, inst, p) || Removes(k, a, name, inst, p)
  {
    hide Inv, Allowed, Perform, ChannelAfter;
    if IsIn(k, name, inst, p) {
      var ch := k.channels[name];
      var n :| n in ch.participants && ch.participants[n] == p;
      match a {
        case Rename(fd, nick) => RenamedStaysIn(k, a, name, p);
        case Disconnect(fd) => LeavingIsEarned(k, a, name, n);
        case Exit(fd, on) => LeavingIsEarned(k, a, name, n);
        case Expel(fd, on, nick) => LeavingIsEarned(k, a, name, n);
        case _ => OthersKeepEntries(k, a, name, n); StaysIn(k, a, name, n);
      }
    }
  }

  lemma RenamedStaysIn(k: Control, a: Act, name: string, p: Ptr)
    requires Inv(k) && Allowed(k, a) && a.Rename? && name in k.channels && p in k.channels[name].participants.Values
    ensures IsIn(Perform(k, a), name, k.channels[name].id, p)
  {
    ChannelEffect(k, a, name);
    RenameKeepsIdentities(k, a.fd, a.nick, name);
  }

  /** Every act but a rename and the three that take someone out leaves the entries of a channel in place. */
  lemma OthersKeepEntries(k: Control, a: Act, name: string, n: string)
    requires Inv(k) && Allowed(k, a) && !(a.Rename? || a.Disconnect? || a.Exit? || a.Expel?)
    requires name in k.channels && n in k.channels[name].participants
    ensures Keeps(k, a, name, n)
  {
    if a.SetModes? { ModeBatchKeepsOk(k, a.name, a.plus, a.letters, a.args); }
  }

  /** The entry under n stays as it is. */
  predicate Keeps(k: Control, a: Act, name: string, n: string)
    requires Allowed(k, a) && name in k.channels && n in k.channels[name].participants
  {
    var ch, ch' := k.channels[name], ChannelAfter(k, a, name);
    ch'.id == ch.id && n in ch'.participants && ch'.participants[n] == ch.participants[n]
  }

  lemma StaysIn(k: Control, a: Act, name: string, n: string)
    requires Allowed(k, a) && name in k.channels && n in k.channels[name].participants && Keeps(k, a, name, n)
    ensures IsIn(Perform(k, a), name, k.channels[name].id, k.channels[name].participants[n])
  {
    hide Perform, ChannelAfter;
    ChannelEffect(k, a, name);
  }

  lemma LeavingIsEarned(k: Control, a: Act, name: string, n: string)
    requires Inv(k) && Allowed(k, a) && (a.Disconnect? || a.Exit? || a.Expel?)
    requires name in k.channels && n in k.channels[name].participants
    ensures var inst, p := k.channels[name].id, k.channels[name].participants[n];
            IsIn(Perform(k, a), name, inst, p) || Removes(k, a, name, inst, p)
  {
    hide Inv, Perform;
    if (a.Disconnect? || a.name == name) && n == if a.Expel? then a.nick else k.clients[a.fd].nick {
      OwnEntries(k, a.fd, name);
    } else {
      assert Keeps(k, a, name, n);
      StaysIn(k, a, name, n);
    }
  }
}
