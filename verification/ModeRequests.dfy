/**
 * MODE: exactly which lines are accepted, and what they leave in the channel, said in terms of letters and parameters.
 */
module ModeRequests {
  import opened Wrappers
  import opened Text
  import opened Tokenizing
  import opened ServerState
  import opened Commands
  import opened Modes
  import opened Requests
  import opened ChannelRequests
  import Acts

  // ---- which parameter belongs to which letter ----

  /** The letters with a parameter: o and k, and under "+" also l. */
  predicate HasParam(c: char, plus: bool) { c == 'o' || c == 'k' || (plus && c == 'l') }

  /** How many parameters the letters take. */
  function Params(letters: string, plus: bool): nat {
    if letters == "" then 0 else (if HasParam(letters[0], plus) then 1 else 0) + Params(letters[1..], plus)
  }

  /** The parameter of letter number i: each takes the next one, from left to right. */
  function ParamOf(letters: string, i: nat, args: seq<string>, plus: bool): string
    requires i <= |letters|
  {
    var n := Params(letters[..i], plus);
    if n < |args| then args[n] else ""
  }

  lemma ParamShifts(letters: string, i: nat, args: seq<string>, plus: bool)
    requires 0 < i <= |letters|
    ensures HasParam(letters[0], plus) && args != [] ==>
              ParamOf(letters, i, args, plus) == ParamOf(letters[1..], i - 1, args[1..], plus)
    ensures !HasParam(letters[0], plus) ==> ParamOf(letters, i, args, plus) == ParamOf(letters[1..], i - 1, args, plus)
    ensures HasParam(letters[0], plus) && args != [] ==> ParamOf(letters, 0, args, plus) == args[0]
  {
    assert letters[..i][1..] == letters[1..][..i - 1] && letters[..i][0] == letters[0];
    assert letters[..0] == "";
  }

  lemma FirstParam(letters: string, args: seq<string>, plus: bool)
    requires args != []
    ensures ParamOf(letters, 0, args, plus) == args[0]
  {
    assert letters[..0] == "";
  }

  lemma {:induction false} NeedingCounts(letters: string, plus: bool)
    ensures |Needing(letters, if plus then PlusTakesParam else MinusTakesParam)| == Params(letters, plus)
    decreases |letters|
  {
    if letters != "" { NeedingCounts(letters[1..], plus); }
  }

  // ---- acceptance ----

  /** A number without leading zeros. */
  predicate Numeral(s: string) { (forall c | c in s :: '0' <= c <= '9') && (|s| > 1 ==> s[0] != '0') }

  /** What the channel asks of one letter's parameter. */
  predicate ParamOk(ch: ChannelData, plus: bool, c: char, arg: string) {
    if c == 'o' then (if plus then arg in ch.participants else arg in ch.operators)
    else if c == 'k' then (if plus then ch.key == "" && 1 <= |arg| <= 9 else arg == ch.key)
    else plus && c == 'l' ==> Numeral(arg)
  }

  /** Known letters, as many parameters as they take but at most three, and each parameter as the channel asks. */
  predicate Accepted(ch: ChannelData, plus: bool, letters: string, args: seq<string>) {
    && (forall c | c in letters :: c in {'o', 'k', 'l', 'i', 't'})
    && |args| == Params(letters, plus) && |args| <= 3
    && ParamsOk(ch, plus, letters, args)
  }

  predicate ParamsOk(ch: ChannelData, plus: bool, letters: string, args: seq<string>) {
    forall i | 0 <= i < |letters| :: ParamOk(ch, plus, letters[i], ParamOf(letters, i, args, plus))
  }

  lemma ParamsOkUnfolds(ch: ChannelData, plus: bool, letters: string, args: seq<string>)
    requires letters != "" && |args| == Params(letters, plus)
    ensures ParamsOk(ch, plus, letters, args) <==>
            if HasParam(letters[0], plus) then
              ParamOk(ch, plus, letters[0], args[0]) && ParamsOk(ch, plus, letters[1..], args[1..])
            else ParamsOk(ch, plus, letters[1..], args)
  {
    var more := if HasParam(letters[0], plus) then args[1..] else args;
    hide ParamOk;
    forall i | 0 < i < |letters|
      ensures letters[i] == letters[1..][i - 1]
              && ParamOf(letters, i, args, plus) == ParamOf(letters[1..], i - 1, more, plus)
    {
      ParamShifts(letters, i, args, plus);
    }
    if args != [] { FirstParam(letters, args, plus); }
    hide ParamOf;
    if !HasParam(letters[0], plus) { NoParamIsOk(ch, plus, letters[0], ParamOf(letters, 0, args, plus)); }
    forall i | 0 <= i < |letters[1..]|
      ensures letters[1..][i] == letters[i + 1]
              && ParamOf(letters[1..], i, more, plus) == ParamOf(letters, i + 1, args, plus)
    {
    }
  }

  lemma NoParamIsOk(ch: ChannelData, plus: bool, c: char, arg: string)
    requires !HasParam(c, plus)
    ensures ParamOk(ch, plus, c, arg)
  {
  }

  lemma {:induction false} ChecksAreParamsOk(ch: ChannelData, plus: bool, letters: string, args: seq<string>)
    requires |args| == Params(letters, plus) == |Needing(letters, if plus then PlusTakesParam else MinusTakesParam)|
    ensures FirstError(ch, plus, Needing(letters, if plus then PlusTakesParam else MinusTakesParam), args).None? <==>
            ParamsOk(ch, plus, letters, args)
    decreases |letters|
  {
    if letters != "" {
      ParamsOkUnfolds(ch, plus, letters, args);
      NeedingCounts(letters[1..], plus);
      hide ParamsOk, ParamOk;
      if HasParam(letters[0], plus) {
        OneCheck(ch, plus, letters[0], args[0]);
        ChecksAreParamsOk(ch, plus, letters[1..], args[1..]);
      } else {
        var rest := Needing(letters[1..], if plus then PlusTakesParam else MinusTakesParam);
        assert "" + rest == rest;
        ChecksAreParamsOk(ch, plus, letters[1..], args);
      }
    }
  }

  lemma OneCheck(ch: ChannelData, plus: bool, c: char, arg: string)
    requires HasParam(c, plus)
    ensures (if plus then PlusCheck(ch, c, arg) else MinusCheck(ch, c, arg)).None? <==> ParamOk(ch, plus, c, arg)
  {
  }

  /** Main result: a batch is accepted iff its letters are known and every parameter is as the channel asks. */
  lemma BatchAccepted(ch: ChannelData, index: map<string, Ptr>, plus: bool, letters: string, args: seq<string>)
    ensures var r := if plus then PlusBatch(ch, index, letters, args) else MinusBatch(ch, letters, args);
            && (r.Ok? <==> Accepted(ch, plus, letters, args))
            && ((exists c :: c in letters && c !in {'o', 'k', 'l', 'i', 't'}) ==> r == Err("472"))
            && ((forall c | c in letters :: c in {'o', 'k', 'l', 'i', 't'}) ==>
                |args| != Params(letters, plus) || |args| > 3 ==> r == Err("461"))
  {
    NeedingCounts(letters, plus);
    if |args| == Params(letters, plus) { ChecksAreParamsOk(ch, plus, letters, args); }
    hide ParamsOk, FirstError, Needing, PlusExec, MinusExec, PlusFlags, MinusFlags;
    assert AllKnown(letters) <==> forall c | c in letters :: c in {'o', 'k', 'l', 'i', 't'};
  }

  // ---- the number ----

  function Digit(n: nat): char
    requires n < 10
  {
    ('0' as int + n) as char
  }

  /** A number in decimal. */
  function Decimal(n: nat): string {
    if n < 10 then [Digit(n)] else Decimal(n / 10) + [Digit(n % 10)]
  }

  lemma {:induction false} AtoiReads(s: string)
    requires s != "" && Numeral(s)
    ensures Decimal(Atoi(s)) == s
    ensures s[0] != '0' ==> Atoi(s) >= 1
    decreases |s|
  {
    var front, last := s[..|s| - 1], s[|s| - 1];
    assert last in s && s == front + [last] && '0' <= last <= '9';
    var d := last as int - '0' as int;
    assert Digit(d) == last;
    if |s| == 1 {
      assert front == "" && s == [last];
    } else {
      assert front[0] == s[0] && forall c | c in front :: c in s;
      AtoiReads(front);
      var n := Atoi(front);
      assert Atoi(s) == n * 10 + d && (n * 10 + d) / 10 == n && (n * 10 + d) % 10 == d;
    }
  }

  // ---- the result ----

  /** Letter number i is the last one of its kind. */
  predicate Last(letters: string, i: nat) {
    i < |letters| && forall j | i < j < |letters| :: letters[j] != letters[i]
  }

  /** Some o names n. */
  predicate Names(letters: string, args: seq<string>, plus: bool, n: string) {
    exists i | 0 <= i < |letters| :: letters[i] == 'o' && ParamOf(letters, i, args, plus) == n
  }

  /** What the channel stores if letter number i is the last of its kind. */
  predicate Stored(ch': ChannelData, letter: char, arg: string) {
    && (letter == 'k' ==> ch'.key == arg)
    && (letter == 'l' ==> ch'.limit.Some? && (arg != "" && Numeral(arg) ==> Decimal(ch'.limit.value) == arg))
  }

  /** Key and limit after the letters: the parameters of the last k and the last l, if there are such. */
  predicate StoredLast(ch: ChannelData, ch': ChannelData, letters: string, args: seq<string>) {
    && ('k' !in letters ==> ch'.key == ch.key) && ('l' !in letters ==> ch'.limit == ch.limit)
    && forall i | 0 <= i < |letters| :: Last(letters, i) ==> Stored(ch', letters[i], ParamOf(letters, i, args, true))
  }

  /** The operators after "+letters": those there were, and whoever an o names, as the index has them. */
  ghost predicate Promoted(ch: ChannelData, ch': ChannelData, index: map<string, Ptr>, letters: string,
                           args: seq<string>) {
    forall n ::
      && (n in ch'.operators <==> n in ch.operators || (n in index && Names(letters, args, true, n)))
      && (n in ch'.operators ==>
          ch'.operators[n] == if n in index && Names(letters, args, true, n) then index[n] else ch.operators[n])
  }

  /** Nothing but modes, key, limit and operators may differ. */
  predicate OnlySettings(ch: ChannelData, ch': ChannelData) {
    ch'.(modes := ch.modes, key := ch.key, limit := ch.limit, operators := ch.operators) == ch
  }

  lemma NamesUnfolds(letters: string, args: seq<string>, plus: bool, n: string)
    requires letters != "" && (HasParam(letters[0], plus) ==> args != [])
    ensures Names(letters, args, plus, n) <==>
            (letters[0] == 'o' && args[0] == n)
            || Names(letters[1..], if HasParam(letters[0], plus) then args[1..] else args, plus, n)
  {
    var more := if HasParam(letters[0], plus) then args[1..] else args;
    forall i | 0 < i < |letters|
      ensures letters[i] == letters[1..][i - 1]
              && ParamOf(letters, i, args, plus) == ParamOf(letters[1..], i - 1, more, plus)
    {
      ParamShifts(letters, i, args, plus);
    }
    if args != [] { FirstParam(letters, args, plus); }
    hide ParamOf;
    if Names(letters[1..], more, plus, n) {
      var i :| 0 <= i < |letters[1..]| && letters[1..][i] == 'o' && ParamOf(letters[1..], i, more, plus) == n;
      assert letters[i + 1] == 'o' && ParamOf(letters, i + 1, args, plus) == n;
    }
  }

  lemma LastUnfolds(letters: string, i: nat)
    requires letters != "" && i < |letters|
    ensures i > 0 ==> (Last(letters, i) <==> Last(letters[1..], i - 1)) && letters[i] == letters[1..][i - 1]
    ensures i == 0 ==> (Last(letters, 0) <==> letters[0] !in letters[1..])
  {
    assert forall j | 0 < j < |letters| :: letters[j] == letters[1..][j - 1];
    if i == 0 && letters[0] !in letters[1..] {
      forall j | 0 < j < |letters| ensures letters[j] != letters[0] { assert letters[j] in letters[1..]; }
    }
  }

  lemma StoredUnfolds(ch: ChannelData, ch1: ChannelData, ch': ChannelData, letters: string, args: seq<string>)
    requires letters != "" && (HasParam(letters[0], true) ==> args != [])
    requires letters[0] == 'k' ==> ch1.key == args[0] && ch1.limit == ch.limit
    requires letters[0] == 'l' ==> ch1.key == ch.key && ch1.limit == Some(LimitOf(args[0]))
    requires letters[0] != 'k' && letters[0] != 'l' ==> ch1.key == ch.key && ch1.limit == ch.limit
    requires StoredLast(ch1, ch', letters[1..], if HasParam(letters[0], true) then args[1..] else args)
    ensures StoredLast(ch, ch', letters, args)
  {
    assert letters == [letters[0]] + letters[1..];
    if Last(letters, 0) {
      LastUnfolds(letters, 0);
      FirstStored(ch1, ch', letters, args);
    }
    hide Stored, Last, ParamOf;
    forall i | 0 < i < |letters| && Last(letters, i)
      ensures Stored(ch', letters[i], ParamOf(letters, i, args, true))
    {
      LastUnfolds(letters, i);
      ParamShifts(letters, i, args, true);
    }
  }

  lemma FirstStored(ch1: ChannelData, ch': ChannelData, letters: string, args: seq<string>)
    requires letters != "" && letters[0] !in letters[1..] && (HasParam(letters[0], true) ==> args != [])
    requires letters[0] == 'k' ==> ch1.key == args[0] == ch'.key
    requires letters[0] == 'l' ==> ch1.limit == Some(LimitOf(args[0])) == ch'.limit
    ensures Stored(ch', letters[0], ParamOf(letters, 0, args, true))
  {
    if HasParam(letters[0], true) {
      FirstParam(letters, args, true);
      if args[0] != "" && Numeral(args[0]) { AtoiReads(args[0]); }
    }
  }

  lemma PromotedUnfolds(ch: ChannelData, ch1: ChannelData, ch': ChannelData, index: map<string, Ptr>, letters: string,
                        args: seq<string>)
    requires letters != "" && (HasParam(letters[0], true) ==> args != [])
    requires ch1.operators == if letters[0] == 'o' && args[0] in index then ch.operators[args[0] := index[args[0]]]
                              else ch.operators
    requires Promoted(ch1, ch', index, letters[1..], if HasParam(letters[0], true) then args[1..] else args)
    ensures Promoted(ch, ch', index, letters, args)
  {
    forall n
      ensures n in ch'.operators <==> n in ch.operators || (n in index && Names(letters, args, true, n))
      ensures n in ch'.operators ==>
              ch'.operators[n] == if n in index && Names(letters, args, true, n) then index[n] else ch.operators[n]
    {
      NamesUnfolds(letters, args, true, n);
      hide Names;
    }
  }

  lemma {:induction false} PlusLeaves(ch: ChannelData, index: map<string, Ptr>, letters: string, args: seq<string>)
    requires PlusEach(ch, index, letters, args, false).Some?
    ensures var ch' := PlusEach(ch, index, letters, args, false).value;
            && ch'.modes == ch.modes + (set c | c in letters)
            && StoredLast(ch, ch', letters, args) && Promoted(ch, ch', index, letters, args) && OnlySettings(ch, ch')
    decreases |letters|
  {
    if letters == "" {
      assert (set c | c in letters) == {};
      assert forall n :: !Names(letters, args, true, n);
    } else {
      var c, takes := letters[0], HasParam(letters[0], true);
      var ch1, more := PlusLetter(ch, index, c, if takes then args[0] else ""), if takes then args[1..] else args;
      PlusLeaves(ch1, index, letters[1..], more);
      var ch' := PlusEach(ch, index, letters, args, false).value;
      PlusLetterSets(ch, index, c, if takes then args[0] else "");
      assert (set d | d in letters) == {c} + (set d | d in letters[1..]) by { assert letters == [c] + letters[1..]; }
      hide PlusLetter, StoredLast, Promoted, PlusEach, LimitOf;
      StoredUnfolds(ch, ch1, ch', letters, args);
      PromotedUnfolds(ch, ch1, ch', index, letters, args);
    }
  }

  lemma PlusLetterSets(ch: ChannelData, index: map<string, Ptr>, c: char, arg: string)
    requires KnownLetter(c)
    ensures var ch1 := PlusLetter(ch, index, c, arg);
            && ch1.modes == ch.modes + {c} && OnlySettings(ch, ch1)
            && ch1.key == (if c == 'k' then arg else ch.key)
            && ch1.limit == (if c == 'l' then Some(LimitOf(arg)) else ch.limit)
            && ch1.operators == (if c == 'o' && arg in index then ch.operators[arg := index[arg]] else ch.operators)
  {
  }

  lemma {:induction false} MinusLeaves(ch: ChannelData, letters: string, args: seq<string>)
    requires MinusEach(ch, letters, args, false).Some?
    ensures var ch' := MinusEach(ch, letters, args, false).value;
            && ch'.modes == ch.modes - (set c | c in letters)
            && ch'.key == (if 'k' in letters then "" else ch.key) && ch'.limit == ch.limit
            && (forall n :: n in ch'.operators <==> n in ch.operators && !Names(letters, args, false, n))
            && (forall n | n in ch'.operators :: ch'.operators[n] == ch.operators[n]) && OnlySettings(ch, ch')
    decreases |letters|
  {
    if letters == "" {
      assert (set c | c in letters) == {};
      assert forall n :: !Names(letters, args, false, n);
    } else {
      var c, takes := letters[0], HasParam(letters[0], false);
      var ch1, more := MinusLetter(ch, c, if takes then args[0] else ""), if takes then args[1..] else args;
      MinusLeaves(ch1, letters[1..], more);
      assert letters == [c] + letters[1..];
      assert (set d | d in letters) == {c} + (set d | d in letters[1..]);
      forall n
        ensures Names(letters, args, false, n) <==> (c == 'o' && args[0] == n) || Names(letters[1..], more, false, n)
      {
        NamesUnfolds(letters, args, false, n);
      }
      hide Names;
    }
  }

  // ---- the line ----

  /** What an accepted batch leaves in the channel. */
  ghost predicate Leaves(ch: ChannelData, ch': ChannelData, index: map<string, Ptr>, plus: bool, letters: string,
                         args: seq<string>) {
    && OnlySettings(ch, ch')
    && if plus then
         && ch'.modes == ch.modes + (set c | c in letters)
         && StoredLast(ch, ch', letters, args) && Promoted(ch, ch', index, letters, args)
       else
         && ch'.modes == ch.modes - (set c | c in letters)
         && ch'.key == (if 'k' in letters then "" else ch.key) && ch'.limit == ch.limit
         && (forall n :: n in ch'.operators <==> n in ch.operators && !Names(letters, args, false, n))
         && (forall n | n in ch'.operators :: ch'.operators[n] == ch.operators[n])
  }

  lemma BatchLeaves(ch: ChannelData, index: map<string, Ptr>, plus: bool, letters: string, args: seq<string>)
    requires "" !in args
    ensures var r := if plus then PlusBatch(ch, index, letters, args) else MinusBatch(ch, letters, args);
            r.Ok? ==> Leaves(ch, r.value, index, plus, letters, args)
  {
    if plus {
      PlusBatchIsLetterwise(ch, index, letters, args);
      hide PlusBatch, PlusEach, StoredLast, Promoted, OnlySettings;
      if PlusBatch(ch, index, letters, args).Ok? { PlusLeaves(ch, index, letters, args); }
    } else {
      MinusBatchIsLetterwise(ch, letters, args);
      hide MinusBatch, MinusEach, OnlySettings, Names;
      if MinusBatch(ch, letters, args).Ok? { MinusLeaves(ch, letters, args); }
    }
  }

  /** The words of a MODE line. */
  function Words(name: string, sign: char, letters: string, args: seq<string>): seq<string> {
    [name, [sign] + letters] + args
  }

  predicate GoodWords(name: string, sign: char, letters: string, args: seq<string>) {
    Solid(name) && Solid([sign] + letters) && forall a | a in args :: Solid(a)
  }

  lemma WordsRead(k: Control, fd: int, name: string, sign: char, letters: string, args: seq<string>)
    requires fd in k.clients && GoodWords(name, sign, letters, args)
    ensures var t := Words(name, sign, letters, args);
            var p := JoinWith(t, ' ');
            && Does(k, fd, Request(MODE, p)) == Mode(k, fd, p) && Tokens(p) == t
            && |t| >= 2 && t[0] == name && |t[1]| >= 1 && t[1][0] == sign && t[1][1..] == letters && t[2..] == args
            && "" !in args && Spaced(t) == " " + p
  {
    hide *;
    var t := Words(name, sign, letters, args);
    WordsAre(name, sign, letters, args);
    TokensUndoJoin(t);
    SpacedIsJoined(t);
    Runs(k, fd, MODE, JoinWith(t, ' '));
    ExecuteMode(k, fd, JoinWith(t, ' '));
  }

  lemma WordsAre(name: string, sign: char, letters: string, args: seq<string>)
    requires GoodWords(name, sign, letters, args)
    ensures var t := Words(name, sign, letters, args);
            && (forall w | w in t :: Solid(w)) && "" !in args && Spaced(t) == " " + (t[0] + Spaced(t[1..]))
            && |t| >= 2 && t[0] == name && |t[1]| >= 1 && t[1][0] == sign && t[1][1..] == letters && t[2..] == args
  {
    var t := Words(name, sign, letters, args);
    assert forall w | w in t :: w == name || w == [sign] + letters || w in args;
  }

  lemma ExecuteMode(k: Control, fd: int, p: string)
    requires fd in k.clients
    ensures Execute(k, fd, MODE, p) == Mode(k, fd, p)
  {
  }

  /**
   * Main result: MODE channel +letters parameters is granted iff the sender is an operator of the channel and the batch
   * is accepted; then exactly this is left, and everyone in the channel is told the line.
   */
  lemma ModeGranted(k: Control, fd: int, name: string, sign: char, letters: string, args: seq<string>)
    requires Inv(k) && fd in k.clients && GoodWords(name, sign, letters, args)
    ensures var c, p := k.clients[fd], JoinWith(Words(name, sign, letters, args), ' ');
            var r := Does(k, fd, Request(MODE, p));
            && (r.error.None? <==>
                Acts.Operates(k, fd, name) && sign in {'+', '-'}
                && Accepted(k.channels[name], sign == '+', letters, args))
            && (r.error.Some? ==> r.ctl == k && r.out == [])
            && (r.error.None? ==>
                && name in r.ctl.channels
                && r.ctl == k.(channels := k.channels[name := r.ctl.channels[name]])
                && Leaves(k.channels[name], r.ctl.channels[name], k.index, sign == '+', letters, args)
                && ToldOnce(r.out, k.channels[name], Notice(c.prefix, "MODE" + (" " + p)), -1))
  {
    hide *;
    WordsRead(k, fd, name, sign, letters, args);
    ModeIs(k, fd, Words(name, sign, letters, args), JoinWith(Words(name, sign, letters, args), ' '));
    if Acts.Operates(k, fd, name) {
      MemberOf(k, fd, name);
      BatchAccepted(k.channels[name], k.index, sign == '+', letters, args);
      BatchLeaves(k.channels[name], k.index, sign == '+', letters, args);
      var msg := Notice(k.clients[fd].prefix, "MODE" + Spaced(Words(name, sign, letters, args)));
      ModeTold(k, fd, name, sign == '+', letters, args, msg);
    }
  }

  lemma MemberOf(k: Control, fd: int, name: string)
    requires Acts.Operates(k, fd, name)
    ensures fd in k.clients && name in k.channels
  {
  }

  lemma ModeTold(k: Control, fd: int, name: string, plus: bool, letters: string, args: seq<string>, msg: string)
    requires Inv(k) && name in k.channels
    ensures var ch := k.channels[name];
            var r := if plus then PlusBatch(ch, k.index, letters, args) else MinusBatch(ch, letters, args);
            r.Ok? ==> ToldOnce(Broadcast(r.value, msg, -1), ch, msg, -1)
  {
    hide PlusBatch, MinusBatch, Broadcast;
    Acts.ModeBatchKeepsOk(k, name, plus, letters, args);
    var ch := k.channels[name];
    var r := if plus then PlusBatch(ch, k.index, letters, args) else MinusBatch(ch, letters, args);
    if r.Ok? {
      Acts.ChannelReplaced(k, name, r.value);
      Announced(k.(channels := k.channels[name := r.value]), name, msg);
    }
  }

  /** The command on its words. */
  lemma ModeIs(k: Control, fd: int, t: seq<string>, p: string)
    requires fd in k.clients && Tokens(p) == t && |t| >= 2 && t[1] != ""
    ensures var c, r := k.clients[fd], Mode(k, fd, p);
            && (!Acts.Operates(k, fd, t[0]) || t[1][0] !in {'+', '-'} ==> r.ctl == k && r.out == [] && r.error.Some?)
            && (Acts.Operates(k, fd, t[0]) && t[1][0] in {'+', '-'} ==>
                var ch := k.channels[t[0]];
                var b := if t[1][0] == '+' then PlusBatch(ch, k.index, t[1][1..], t[2..])
                         else MinusBatch(ch, t[1][1..], t[2..]);
                r == if b.Ok? then Outcome(k.(channels := k.channels[t[0] := b.value]),
                                           Broadcast(b.value, Notice(c.prefix, "MODE" + Spaced(t)), -1), None)
                     else Outcome(k, [], Some(Numeric(b.error, c.nick))))
            && (t[0] !in k.channels ==> r.error == Some(Numeric("403", c.nick)))
            && (t[0] in k.channels && !Acts.IsMember(k, fd, t[0]) ==> r.error == Some(Numeric("442", c.nick)))
            && (Acts.IsMember(k, fd, t[0]) && !Acts.Operates(k, fd, t[0]) ==> r.error == Some(Numeric("482", c.nick)))
  {
    hide Tokens, PlusBatch, MinusBatch, Broadcast, Spaced, Notice;
  }

  /** Which of several lacks a MODE line is refused for. */
  lemma ModeRefused(k: Control, fd: int, name: string, sign: char, letters: string, args: seq<string>)
    requires fd in k.clients && GoodWords(name, sign, letters, args)
    ensures var c, p := k.clients[fd], JoinWith(Words(name, sign, letters, args), ' ');
            var e := Does(k, fd, Request(MODE, p)).error;
            && (name !in k.channels ==> e == Some(Numeric("403", c.nick)))
            && (name in k.channels && !Acts.IsMember(k, fd, name) ==> e == Some(Numeric("442", c.nick)))
            && (Acts.IsMember(k, fd, name) && !Acts.Operates(k, fd, name) ==> e == Some(Numeric("482", c.nick)))
            && (Acts.Operates(k, fd, name) && sign in {'+', '-'} ==>
                (exists d :: d in letters && d !in {'o', 'k', 'l', 'i', 't'}) ==> e == Some(Numeric("472", c.nick)))
  {
    hide *;
    WordsRead(k, fd, name, sign, letters, args);
    ModeIs(k, fd, Words(name, sign, letters, args), JoinWith(Words(name, sign, letters, args), ' '));
    if Acts.Operates(k, fd, name) {
      MemberOf(k, fd, name);
      BatchAccepted(k.channels[name], k.index, sign == '+', letters, args);
    }
  }

  // ---- which parameter a batch is refused for ----

  /** The code for one refused parameter. */
  function Code(ch: ChannelData, plus: bool, c: char, arg: string): string {
    if c == 'o' then (if plus then "441" else "401")
    else if c == 'k' then (if !plus || ch.key != "" then "467" else if arg == "" then "461" else "PASS")
    else "696"
  }

  /** The first parameter that is not as the channel asks decides. */
  lemma {:induction false} FirstRefusal(ch: ChannelData, plus: bool, letters: string, args: seq<string>, i: nat)
    requires |args| == Params(letters, plus) == |Needing(letters, if plus then PlusTakesParam else MinusTakesParam)|
    requires i < |letters| && !ParamOk(ch, plus, letters[i], ParamOf(letters, i, args, plus))
    requires forall j | 0 <= j < i :: ParamOk(ch, plus, letters[j], ParamOf(letters, j, args, plus))
    ensures FirstError(ch, plus, Needing(letters, if plus then PlusTakesParam else MinusTakesParam), args)
         == Some(Code(ch, plus, letters[i], ParamOf(letters, i, args, plus)))
    decreases |letters|
  {
    var takes, rest := if plus then PlusTakesParam else MinusTakesParam, letters[1..];
    var more := if HasParam(letters[0], plus) then args[1..] else args;
    NeedingCounts(rest, plus);
    assert "" + Needing(rest, takes) == Needing(rest, takes);
    if HasParam(letters[0], plus) {
      FirstParam(letters, args, plus);
      RefusalCode(ch, plus, letters[0], args[0]);
    }
    if i > 0 {
      forall j | 0 < j <= i
        ensures letters[j] == rest[j - 1] && ParamOf(letters, j, args, plus) == ParamOf(rest, j - 1, more, plus)
      {
        ParamShifts(letters, j, args, plus);
      }
      hide ParamOf, PlusCheck, MinusCheck;
      assert ParamOk(ch, plus, letters[0], ParamOf(letters, 0, args, plus));
      forall j | 0 <= j < i - 1 ensures ParamOk(ch, plus, rest[j], ParamOf(rest, j, more, plus)) {
        assert ParamOk(ch, plus, letters[j + 1], ParamOf(letters, j + 1, args, plus));
      }
      hide ParamOk;
      FirstRefusal(ch, plus, rest, more, i - 1);
    }
  }

  lemma RefusalCode(ch: ChannelData, plus: bool, c: char, arg: string)
    requires HasParam(c, plus)
    ensures (if plus then PlusCheck(ch, c, arg) else MinusCheck(ch, c, arg))
         == if ParamOk(ch, plus, c, arg) then None else Some(Code(ch, plus, c, arg))
  {
  }
}
