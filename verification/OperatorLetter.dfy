/** The letter 'o' among a channel's modes: when it tells whether the channel has operators. */
module OperatorLetter {
  import opened Wrappers
  import opened ServerState
  import opened Acts
  import opened Modes

  /** 'o' is set exactly when there is an operator. */
  predicate Tells(ch: ChannelData) { 'o' in ch.modes <==> ch.operators != map[] }

  lemma {:induction false} PlusExecLetter(ch: ChannelData, index: map<string, Ptr>, need: string, args: seq<string>)
    requires |need| == |args|
    ensures 'o' in PlusExec(ch, index, need, args).modes <==> 'o' in ch.modes || 'o' in need
    ensures ch.operators.Keys <= PlusExec(ch, index, need, args).operators.Keys
    decreases |need|
  {
    if need != "" {
      PlusExecLetter(PlusApply(ch, index, need[0], args[0]), index, need[1..], args[1..]);
      assert need == [need[0]] + need[1..];
    }
  }

  /** The nicknames that -o names. */
  function Demoted(need: string, args: seq<string>): set<string>
    requires |need| == |args|
  {
    set i | 0 <= i < |need| && need[i] == 'o' :: args[i]
  }

  lemma {:induction false} MinusExecLetter(ch: ChannelData, need: string, args: seq<string>)
    requires |need| == |args|
    ensures 'o' in MinusExec(ch, need, args).modes <==> 'o' in ch.modes && 'o' !in need
    ensures MinusExec(ch, need, args).operators.Keys == ch.operators.Keys - Demoted(need, args)
    decreases |need|
  {
    if need != "" {
      MinusExecLetter(MinusApply(ch, need[0], args[0]), need[1..], args[1..]);
      assert need == [need[0]] + need[1..];
      DemotedUnfolds(need, args);
    }
  }

  lemma DemotedUnfolds(need: string, args: seq<string>)
    requires |need| == |args| && need != ""
    ensures Demoted(need, args) == (if need[0] == 'o' then {args[0]} else {}) + Demoted(need[1..], args[1..])
  {
    var rest := Demoted(need[1..], args[1..]);
    forall n | n in Demoted(need, args) ensures n in (if need[0] == 'o' then {args[0]} else {}) + rest {
      var i :| 0 <= i < |need| && need[i] == 'o' && args[i] == n;
      if i > 0 { assert need[1..][i - 1] == 'o' && args[1..][i - 1] == n; }
    }
    forall n | n in rest ensures n in Demoted(need, args) {
      var i :| 0 <= i < |need[1..]| && need[1..][i] == 'o' && args[1..][i] == n;
      assert need[i + 1] == 'o' && args[i + 1] == n;
    }
  }

  lemma {:induction false} NeededLetter(letters: string, takes: char -> bool)
    requires takes('o')
    ensures 'o' in Needing(letters, takes) <==> 'o' in letters
  {
    if letters != "" {
      NeededLetter(letters[1..], takes);
      assert letters == [letters[0]] + letters[1..];
    }
  }

  /** After an accepted MODE: 'o' is there iff it was set now, or was there and not taken away now. */
  lemma LetterAfterMode(k: Control, a: Act)
    requires a.SetModes? && Allowed(k, a)
    ensures 'o' in Batch(k, a).value.modes <==> if 'o' in a.letters then a.plus else 'o' in k.channels[a.name].modes
  {
    var ch := k.channels[a.name];
    if a.plus {
      NeededLetter(a.letters, PlusTakesParam);
      PlusExecLetter(PlusFlags(ch, a.letters), k.index, Needing(a.letters, PlusTakesParam), a.args);
    } else {
      NeededLetter(a.letters, MinusTakesParam);
      MinusExecLetter(MinusFlags(ch, a.letters), Needing(a.letters, MinusTakesParam), a.args);
    }
  }

  /** Its operators: none lost by "+", exactly the ones named lost by "-". */
  lemma OperatorsAfterMode(k: Control, a: Act)
    requires a.SetModes? && Allowed(k, a)
    ensures var ch, ch' := k.channels[a.name], Batch(k, a).value;
            if a.plus then ch.operators.Keys <= ch'.operators.Keys
            else
              && |Needing(a.letters, MinusTakesParam)| == |a.args|
              && ch'.operators.Keys == ch.operators.Keys - Demoted(Needing(a.letters, MinusTakesParam), a.args)
  {
    var ch := k.channels[a.name];
    if a.plus {
      PlusExecLetter(PlusFlags(ch, a.letters), k.index, Needing(a.letters, PlusTakesParam), a.args);
    } else {
      MinusExecLetter(MinusFlags(ch, a.letters), Needing(a.letters, MinusTakesParam), a.args);
    }
  }

  /**
   * Main result, exactly when the letter tells the truth after an accepted MODE: after "+" iff 'o' is set, now or
   * before; after "-" iff 'o' was taken away from every operator, or was not touched and set before.
   */
  lemma TellsAfterMode(k: Control, a: Act)
    requires a.SetModes? && Allowed(k, a)
    ensures var ch := k.channels[a.name];
            Tells(Batch(k, a).value) <==>
            if a.plus then 'o' in a.letters || 'o' in ch.modes
            else if 'o' in a.letters then
              |Needing(a.letters, MinusTakesParam)| == |a.args|
              && ch.operators.Keys <= Demoted(Needing(a.letters, MinusTakesParam), a.args)
            else 'o' in ch.modes
  {
    LetterAfterMode(k, a);
    OperatorsAfterMode(k, a);
    hide Batch, Demoted;
    var ch, ch', nick := k.channels[a.name], Batch(k, a).value, k.clients[a.fd].nick;
    assert nick in ch.operators;
    assert ch'.operators == map[] <==> ch'.operators.Keys == {};
    if a.plus {
      assert nick in ch'.operators;
    } else {
      var gone := Demoted(Needing(a.letters, MinusTakesParam), a.args);
      NothingLeft(ch.operators.Keys, gone);
      if 'o' !in a.letters {
        NoLetterNobodyDemoted(a.letters, a.args);
        assert nick in ch'.operators;
      }
    }
  }

  lemma NothingLeft(all: set<string>, gone: set<string>)
    ensures all - gone == {} <==> all <= gone
  {
    if all - gone == {} {
      forall n | n in all ensures n in gone { assert n !in all - gone; }
    }
  }

  lemma NoLetterNobodyDemoted(letters: string, args: seq<string>)
    requires 'o' !in letters && |Needing(letters, MinusTakesParam)| == |args|
    ensures Demoted(Needing(letters, MinusTakesParam), args) == {}
  {
    NeededLetter(letters, MinusTakesParam);
  }

  /** A channel that was just created has an operator and no letter: the letter tells nothing from the start. */
  lemma NewChannelDoesNotTell(k: Control, fd: int, name: string, key: string)
    requires Allowed(k, Create(fd, name, key))
    ensures var ch := Perform(k, Create(fd, name, key)).channels[name];
            'o' !in ch.modes && ch.operators != map[] && !Tells(ch)
  {
    var ch := Perform(k, Create(fd, name, key)).channels[name];
    assert k.clients[fd].nick in ch.operators;
  }

  // ---- an input ----

  /** Two operators, and "-o" on one of them. */
  function TwoOperators(): ChannelData {
    ChannelData(0, "", "", {'o'}, map["a" := Ptr(4, 1), "b" := Ptr(5, 2)], map["a" := Ptr(4, 1), "b" := Ptr(5, 2)],
        None, {})
  }

  /** The letter tells the truth before, and denies the operator who remains after. */
  lemma OneDemotionMisleads()
    ensures Tells(TwoOperators()) && MinusBatch(TwoOperators(), "o", ["b"]).Ok?
    ensures var ch' := MinusBatch(TwoOperators(), "o", ["b"]).value;
            'o' !in ch'.modes && "a" in ch'.operators && !Tells(ch')
  {
    var ch := TwoOperators();
    assert "o"[1..] == "" && "o" == ['o'];
    assert Needing("o", MinusTakesParam) == "o" by { assert Needing("", MinusTakesParam) == ""; }
    assert FirstError(ch, false, "", []) == None;
    assert MinusCheck(ch, 'o', "b") == None;
    var ch' := MinusApply(MinusFlags(ch, "o"), 'o', "b");
    assert MinusExec(MinusFlags(ch, "o"), "o", ["b"]) == MinusExec(ch', "", []) == ch';
    assert "a" != "b" by { assert "a"[0] != "b"[0]; }
  }
}
