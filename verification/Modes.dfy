/**
 * The MODE engine (section 3.2.3 of RFC 2812): scan the letters, pair them with parameters, validate everything
 * against the channel as it is, then execute. Beside it, the reference it is compared with: one letter at a time.
 */
module Modes {
  import opened Wrappers
  import opened Text
  import opened ServerState

  const PARAMS_MAX := 3

  predicate PlusTakesParam(c: char) { c == 'o' || c == 'k' || c == 'l' }

  predicate MinusTakesParam(c: char) { c == 'o' || c == 'k' }

  predicate KnownLetter(c: char) { c == 'o' || c == 'k' || c == 'l' || c == 'i' || c == 't' }

  /** The letters that consume a parameter, in order. */
  function Needing(letters: string, takes: char -> bool): (r: string)
    ensures |r| <= |letters|
    ensures forall c | c in r :: c in letters && takes(c)
  {
    if letters == "" then ""
    else (if takes(letters[0]) then [letters[0]] else "") + Needing(letters[1..], takes)
  }

  // ---- one letter ----

  predicate ValidLimit(arg: string) {
    (|arg| > 1 ==> arg[0] != '0') && forall c | c in arg :: IsDigit(c)
  }

  /** The error a parameter of +o, +k or +l provokes on this channel, if any. */
  function PlusCheck(ch: ChannelData, letter: char, arg: string): Option<string> {
    if letter == 'o' then (if arg in ch.participants then None else Some("441"))
    else if letter == 'k' then
      if ch.key != "" then Some("467")
      else if arg == "" then Some("461")
      else if |arg| >= PASSWORD_MAX_LEN then Some("PASS")
      else None
    else if ValidLimit(arg) then None
    else Some("696")
  }

  /** The error a parameter of -o or -k provokes on this channel, if any. */
  function MinusCheck(ch: ChannelData, letter: char, arg: string): Option<string> {
    if letter == 'o' then (if arg in ch.operators then None else Some("401"))
    else if arg != ch.key then Some("467")
    else None
  }

  function LimitOf(arg: string): nat {
    if ValidLimit(arg) then Atoi(arg) else 0
  }

  /** Effect of +o, +k or +l. The nickname lookup of +o is not checked: see IndexFindsParticipants. */
  function PlusApply(ch: ChannelData, index: map<string, Ptr>, letter: char, arg: string): ChannelData {
    if letter == 'o' then
      ch.(modes := ch.modes + {'o'},
          operators := if arg in index then ch.operators[arg := index[arg]] else ch.operators)
    else if letter == 'k' then ch.(modes := ch.modes + {'k'}, key := arg)
    else ch.(modes := ch.modes + {'l'}, limit := Some(LimitOf(arg)))
  }

  /** Effect of -o in the second pass; the parameter of -k is only checked there. */
  function MinusApply(ch: ChannelData, letter: char, arg: string): ChannelData {
    if letter == 'o' then ch.(modes := ch.modes - {'o'}, operators := ch.operators - {arg}) else ch
  }

  // ---- the batch, as the code does it ----

  function FirstError(ch: ChannelData, plus: bool, need: string, args: seq<string>): Option<string>
    requires |need| == |args|
  {
    if need == "" then None
    else
      var e := if plus then PlusCheck(ch, need[0], args[0]) else MinusCheck(ch, need[0], args[0]);
      if e.Some? then e else FirstError(ch, plus, need[1..], args[1..])
  }

  function PlusFlags(ch: ChannelData, letters: string): ChannelData {
    ch.(modes := ch.modes + (if 'i' in letters then {'i'} else {}) + (if 't' in letters then {'t'} else {}))
  }

  function MinusFlags(ch: ChannelData, letters: string): ChannelData {
    ch.(modes := ch.modes - (set c | c in {'i', 't', 'l', 'k'} && c in letters),
        key := if 'k' in letters then "" else ch.key)
  }

  function PlusExec(ch: ChannelData, index: map<string, Ptr>, need: string, args: seq<string>): ChannelData
    requires |need| == |args|
    decreases |need|
  {
    if need == "" then ch else PlusExec(PlusApply(ch, index, need[0], args[0]), index, need[1..], args[1..])
  }

  function MinusExec(ch: ChannelData, need: string, args: seq<string>): ChannelData
    requires |need| == |args|
    decreases |need|
  {
    if need == "" then ch else MinusExec(MinusApply(ch, need[0], args[0]), need[1..], args[1..])
  }

  predicate AllKnown(letters: string) { forall c | c in letters :: KnownLetter(c) }

  /** handlePlusFlagOption: the new channel, or the error that leaves it untouched. */
  function PlusBatch(ch: ChannelData, index: map<string, Ptr>, letters: string, args: seq<string>)
    : Result<ChannelData, string>
  {
    var need := Needing(letters, PlusTakesParam);
    if !AllKnown(letters) then Err("472")
    else if |need| > PARAMS_MAX || |args| != |need| then Err("461")
    else match FirstError(ch, true, need, args)
      case Some(e) => Err(e)
      case None => Ok(PlusExec(PlusFlags(ch, letters), index, need, args))
  }

  /** handleMinusFlagOption. */
  function MinusBatch(ch: ChannelData, letters: string, args: seq<string>): Result<ChannelData, string> {
    var need := Needing(letters, MinusTakesParam);
    if !AllKnown(letters) then Err("472")
    else if |need| > PARAMS_MAX || |args| != |need| then Err("461")
    else match FirstError(ch, false, need, args)
      case Some(e) => Err(e)
      case None => Ok(MinusExec(MinusFlags(ch, letters), need, args))
  }

  // ---- the reference: one letter at a time, left to right, each consuming its own parameter ----

  function PlusLetter(ch: ChannelData, index: map<string, Ptr>, c: char, arg: string): ChannelData {
    if c == 'i' || c == 't' then ch.(modes := ch.modes + {c}) else PlusApply(ch, index, c, arg)
  }

  function MinusLetter(ch: ChannelData, c: char, arg: string): ChannelData {
    if c == 'o' then MinusApply(ch, c, arg)
    else if c == 'k' then ch.(modes := ch.modes - {'k'}, key := "")
    else ch.(modes := ch.modes - {c})
  }

  /** The channel after all letters; checked says whether every letter is validated against the channel it meets. */
  function PlusEach(ch: ChannelData, index: map<string, Ptr>, letters: string, args: seq<string>, checked: bool)
    : Option<ChannelData>
    decreases |letters|
  {
    if letters == "" then (if args == [] then Some(ch) else None)
    else if !KnownLetter(letters[0]) then None
    else if !PlusTakesParam(letters[0]) then
      PlusEach(PlusLetter(ch, index, letters[0], ""), index, letters[1..], args, checked)
    else if args == [] || (checked && PlusCheck(ch, letters[0], args[0]).Some?) then None
    else PlusEach(PlusLetter(ch, index, letters[0], args[0]), index, letters[1..], args[1..], checked)
  }

  function MinusEach(ch: ChannelData, letters: string, args: seq<string>, checked: bool): Option<ChannelData>
    decreases |letters|
  {
    if letters == "" then (if args == [] then Some(ch) else None)
    else if !KnownLetter(letters[0]) then None
    else if !MinusTakesParam(letters[0]) then
      MinusEach(MinusLetter(ch, letters[0], ""), letters[1..], args, checked)
    else if args == [] || (checked && MinusCheck(ch, letters[0], args[0]).Some?) then None
    else MinusEach(MinusLetter(ch, letters[0], args[0]), letters[1..], args[1..], checked)
  }

  // ---- effect of an accepted batch ----

  lemma PlusFlagsCommute(ch: ChannelData, index: map<string, Ptr>, c: char, arg: string, letters: string)
    ensures PlusFlags(PlusApply(ch, index, c, arg), letters) == PlusApply(PlusFlags(ch, letters), index, c, arg)
  {
    var flags := (if 'i' in letters then {'i'} else {}) + (if 't' in letters then {'t'} else {});
    var d := if c == 'o' then 'o' else if c == 'k' then 'k' else 'l';
    assert PlusFlags(ch, letters).modes == ch.modes + flags;
    assert ch.modes + {d} + flags == ch.modes + flags + {d};
    assert PlusFlags(PlusApply(ch, index, c, arg), letters).modes == ch.modes + {d} + flags;
  }

  /** Executing i and t first, then the letters with parameters, equals executing letter by letter. */
  lemma {:induction false} PlusOrderDoesNotMatter(ch: ChannelData, index: map<string, Ptr>, letters: string,
        args: seq<string>)
    requires AllKnown(letters) && |args| == |Needing(letters, PlusTakesParam)|
    ensures PlusEach(ch, index, letters, args, false)
         == Some(PlusExec(PlusFlags(ch, letters), index, Needing(letters, PlusTakesParam), args))
    decreases |letters|
  {
    if letters == "" {
      assert PlusFlags(ch, letters).modes == ch.modes;
    } else {
      var c, rest := letters[0], letters[1..];
      PlusFlagsUnfold(ch, letters);
      assert c in letters && forall d | d in rest :: d in letters;
      hide PlusFlags, PlusApply;
      var need := Needing(letters, PlusTakesParam);
      if PlusTakesParam(c) {
        PlusOrderDoesNotMatter(PlusApply(ch, index, c, args[0]), index, rest, args[1..]);
        PlusFlagsCommute(ch, index, c, args[0], rest);
        assert need[0] == c && need[1..] == Needing(rest, PlusTakesParam);
      } else {
        PlusOrderDoesNotMatter(ch.(modes := ch.modes + {c}), index, rest, args);
        assert need == Needing(rest, PlusTakesParam);
      }
    }
  }

  lemma PlusFlagsUnfold(ch: ChannelData, letters: string)
    requires letters != ""
    ensures var c, rest := letters[0], letters[1..];
            PlusFlags(ch, letters) == PlusFlags(if c == 'i' || c == 't' then ch.(modes := ch.modes + {c}) else ch, rest)
  {
  }

  lemma MinusFlagsCommute(ch: ChannelData, arg: string, letters: string)
    ensures MinusFlags(MinusApply(ch, 'o', arg), letters) == MinusApply(MinusFlags(ch, letters), 'o', arg)
  {
  }

  lemma {:induction false} MinusOrderDoesNotMatter(ch: ChannelData, letters: string, args: seq<string>)
    requires AllKnown(letters) && |args| == |Needing(letters, MinusTakesParam)|
    ensures MinusEach(ch, letters, args, false)
         == Some(MinusExec(MinusFlags(ch, letters), Needing(letters, MinusTakesParam), args))
    decreases |letters|
  {
    if letters == "" {
      assert MinusFlags(ch, letters).modes == ch.modes;
    } else {
      var c, rest := letters[0], letters[1..];
      assert c in letters && forall d | d in rest :: d in letters;
      MinusFlagsUnfold(ch, letters);
      hide MinusFlags;
      var need := Needing(letters, MinusTakesParam);
      if c == 'o' {
        MinusOrderDoesNotMatter(MinusApply(ch, c, args[0]), rest, args[1..]);
        MinusFlagsCommute(ch, args[0], rest);
        assert need[0] == c && need[1..] == Needing(rest, MinusTakesParam);
      } else if c == 'k' {
        MinusOrderDoesNotMatter(MinusLetter(ch, c, ""), rest, args[1..]);
        assert need[0] == c && need[1..] == Needing(rest, MinusTakesParam);
      } else {
        MinusOrderDoesNotMatter(MinusLetter(ch, c, ""), rest, args);
        assert need == Needing(rest, MinusTakesParam);
      }
    }
  }

  lemma MinusFlagsUnfold(ch: ChannelData, letters: string)
    requires letters != "" && KnownLetter(letters[0])
    ensures MinusFlags(ch, letters) ==
            MinusFlags(if letters[0] == 'o' then ch else MinusLetter(ch, letters[0], ""), letters[1..])
  {
  }

  // ---- acceptance: batch against letter by letter ----

  /** No +k after a +k. */
  predicate OneKey(letters: string) {
    letters == "" || (OneKey(letters[1..]) && (letters[0] == 'k' ==> 'k' !in letters[1..]))
  }

  /** No -k after a -k, and no nickname demoted twice. */
  predicate NoRepeats(need: string, args: seq<string>)
    requires |need| == |args|
    decreases |need|
  {
    need != "" ==>
      && NoRepeats(need[1..], args[1..])
      && forall j | 1 <= j < |need| && need[j] == need[0] :: need[0] == 'o' && args[j] != args[0]
  }

  lemma {:induction false} PlusErrorsIgnoreOtherFields(ch: ChannelData, ch': ChannelData, need: string,
        args: seq<string>)
    requires |need| == |args| && ch.participants == ch'.participants
    requires ch.key == ch'.key || 'k' !in need
    requires forall c | c in need :: PlusTakesParam(c)
    ensures FirstError(ch, true, need, args) == FirstError(ch', true, need, args)
    decreases |need|
  {
    if need != "" {
      assert need[0] in need && forall c | c in need[1..] :: c in need;
      PlusErrorsIgnoreOtherFields(ch, ch', need[1..], args[1..]);
    }
  }

  lemma {:induction false} SecondKeyIsRefused(ch: ChannelData, need: string, args: seq<string>)
    requires |need| == |args| && ch.key != "" && 'k' in need
    ensures FirstError(ch, true, need, args).Some?
    decreases |need|
  {
    if need[0] != 'k' {
      SecondKeyIsRefused(ch, need[1..], args[1..]);
    }
  }

  /** The letterwise check of +letters succeeds exactly when the batch check does and no key is set twice. */
  lemma {:induction false} PlusAcceptance(ch: ChannelData, index: map<string, Ptr>, letters: string, args: seq<string>)
    requires AllKnown(letters) && |args| == |Needing(letters, PlusTakesParam)|
    ensures PlusEach(ch, index, letters, args, true).Some? <==>
            FirstError(ch, true, Needing(letters, PlusTakesParam), args).None? && OneKey(letters)
    decreases |letters|
  {
    if letters != "" {
      var c, rest := letters[0], letters[1..];
      var need := Needing(letters, PlusTakesParam);
      assert c in letters && forall d | d in rest :: d in letters;
      if !PlusTakesParam(c) {
        assert need == Needing(rest, PlusTakesParam);
        PlusAcceptance(PlusLetter(ch, index, c, ""), index, rest, args);
        PlusErrorsIgnoreOtherFields(ch, PlusLetter(ch, index, c, ""), need, args);
      } else {
        assert need[0] == c && need[1..] == Needing(rest, PlusTakesParam);
        PlusAcceptance(PlusLetter(ch, index, c, args[0]), index, rest, args[1..]);
        PlusErrorsAfter(ch, index, c, args[0], rest, args[1..]);
      }
    }
  }

  /** After one accepted letter the rest is judged as before, unless the letter was k and another k follows. */
  lemma PlusErrorsAfter(ch: ChannelData, index: map<string, Ptr>, c: char, arg: string, rest: string, args: seq<string>)
    requires PlusTakesParam(c) && |args| == |Needing(rest, PlusTakesParam)|
    ensures PlusCheck(ch, c, arg).None? ==>
            var need := Needing(rest, PlusTakesParam);
            var ch' := PlusApply(ch, index, c, arg);
            if c == 'k' && 'k' in rest then FirstError(ch', true, need, args).Some?
            else FirstError(ch', true, need, args) == FirstError(ch, true, need, args)
  {
    if PlusCheck(ch, c, arg).None? {
      var ch' := PlusApply(ch, index, c, arg);
      KeyIsNeeded(rest);
      if c == 'k' && 'k' in rest {
        SecondKeyIsRefused(ch', Needing(rest, PlusTakesParam), args);
      } else {
        PlusErrorsIgnoreOtherFields(ch, ch', Needing(rest, PlusTakesParam), args);
      }
    }
  }

  lemma {:induction false} PlusCheckedIsUnchecked(ch: ChannelData, index: map<string, Ptr>, letters: string,
        args: seq<string>)
    requires PlusEach(ch, index, letters, args, true).Some?
    ensures PlusEach(ch, index, letters, args, true) == PlusEach(ch, index, letters, args, false)
    decreases |letters|
  {
    if letters != "" {
      if PlusTakesParam(letters[0]) {
        PlusCheckedIsUnchecked(PlusLetter(ch, index, letters[0], args[0]), index, letters[1..], args[1..]);
      } else {
        PlusCheckedIsUnchecked(PlusLetter(ch, index, letters[0], ""), index, letters[1..], args);
      }
    }
  }

  lemma {:induction false} KeyIsNeeded(letters: string)
    ensures 'k' in Needing(letters, PlusTakesParam) <==> 'k' in letters
  {
    if letters != "" {
      KeyIsNeeded(letters[1..]);
      assert letters == [letters[0]] + letters[1..];
    }
  }

  /**
   * Main result for "+letters". An accepted batch has exactly the effect of the letters one at a time. And a command
   * is accepted letter by letter, within three parameters, iff the batch accepts it and it sets no key twice.
   */
  lemma PlusBatchIsLetterwise(ch: ChannelData, index: map<string, Ptr>, letters: string, args: seq<string>)
    ensures PlusBatch(ch, index, letters, args).Ok? ==>
            PlusEach(ch, index, letters, args, false) == Some(PlusBatch(ch, index, letters, args).value)
    ensures PlusEach(ch, index, letters, args, true).Some? && |args| <= PARAMS_MAX <==>
            PlusBatch(ch, index, letters, args).Ok? && OneKey(letters)
    ensures PlusEach(ch, index, letters, args, true).Some? && |args| <= PARAMS_MAX ==>
            PlusEach(ch, index, letters, args, true) == Some(PlusBatch(ch, index, letters, args).value)
  {
    if AllKnown(letters) && |args| == |Needing(letters, PlusTakesParam)| {
      PlusOrderDoesNotMatter(ch, index, letters, args);
      PlusAcceptance(ch, index, letters, args);
      if PlusEach(ch, index, letters, args, true).Some? {
        PlusCheckedIsUnchecked(ch, index, letters, args);
      }
    } else {
      PlusEachNeedsParams(ch, index, letters, args, true);
    }
  }

  lemma {:induction false} PlusEachNeedsParams(ch: ChannelData, index: map<string, Ptr>, letters: string,
        args: seq<string>, checked: bool)
    ensures PlusEach(ch, index, letters, args, checked).Some? ==>
            AllKnown(letters) && |args| == |Needing(letters, PlusTakesParam)|
    decreases |letters|
  {
    if letters != "" && PlusEach(ch, index, letters, args, checked).Some? {
      assert forall d :: d in letters <==> d == letters[0] || d in letters[1..];
      if PlusTakesParam(letters[0]) {
        PlusEachNeedsParams(PlusLetter(ch, index, letters[0], args[0]), index, letters[1..], args[1..], checked);
      } else {
        PlusEachNeedsParams(PlusLetter(ch, index, letters[0], ""), index, letters[1..], args, checked);
      }
    }
  }

  lemma {:induction false} MinusEachNeedsParams(ch: ChannelData, letters: string, args: seq<string>, checked: bool)
    ensures MinusEach(ch, letters, args, checked).Some? ==>
            AllKnown(letters) && |args| == |Needing(letters, MinusTakesParam)|
    decreases |letters|
  {
    if letters != "" && MinusEach(ch, letters, args, checked).Some? {
      assert forall d :: d in letters <==> d == letters[0] || d in letters[1..];
      if MinusTakesParam(letters[0]) {
        MinusEachNeedsParams(MinusLetter(ch, letters[0], args[0]), letters[1..], args[1..], checked);
      } else {
        MinusEachNeedsParams(MinusLetter(ch, letters[0], ""), letters[1..], args, checked);
      }
    }
  }

  lemma {:induction false} MinusCheckedIsUnchecked(ch: ChannelData, letters: string, args: seq<string>)
    requires MinusEach(ch, letters, args, true).Some?
    ensures MinusEach(ch, letters, args, true) == MinusEach(ch, letters, args, false)
    decreases |letters|
  {
    if letters != "" {
      if MinusTakesParam(letters[0]) {
        MinusCheckedIsUnchecked(MinusLetter(ch, letters[0], args[0]), letters[1..], args[1..]);
      } else {
        MinusCheckedIsUnchecked(MinusLetter(ch, letters[0], ""), letters[1..], args);
      }
    }
  }

  predicate MinusAllPass(ch: ChannelData, need: string, args: seq<string>)
    requires |need| == |args|
  {
    forall j | 0 <= j < |need| :: MinusCheck(ch, need[j], args[j]).None?
  }

  lemma {:induction false} MinusFirstErrorIsNone(ch: ChannelData, need: string, args: seq<string>)
    requires |need| == |args|
    ensures FirstError(ch, false, need, args).None? <==> MinusAllPass(ch, need, args)
    decreases |need|
  {
    if need != "" {
      MinusFirstErrorIsNone(ch, need[1..], args[1..]);
      assert MinusAllPass(ch, need, args) <==>
             MinusCheck(ch, need[0], args[0]).None? && MinusAllPass(ch, need[1..], args[1..]) by {
        if MinusCheck(ch, need[0], args[0]).None? && MinusAllPass(ch, need[1..], args[1..]) {
          forall j | 0 <= j < |need| ensures MinusCheck(ch, need[j], args[j]).None? {
            if j > 0 { assert need[j] == need[1..][j - 1] && args[j] == args[1..][j - 1]; }
          }
        }
      }
    }
  }

  /** What one accepted -o or -k changes for the letters after it: exactly a repeat is refused. */
  lemma MinusPassAfter(ch: ChannelData, c: char, arg: string, need: string, args: seq<string>)
    requires MinusTakesParam(c) && MinusCheck(ch, c, arg).None? && arg != ""
    requires |need| == |args| && (forall d | d in need :: MinusTakesParam(d)) && "" !in args
    ensures MinusAllPass(MinusLetter(ch, c, arg), need, args) <==>
            MinusAllPass(ch, need, args)
            && forall j | 0 <= j < |need| && need[j] == c :: c == 'o' && args[j] != arg
  {
    var ch' := MinusLetter(ch, c, arg);
    forall j | 0 <= j < |need|
      ensures MinusCheck(ch', need[j], args[j]).None? <==>
              MinusCheck(ch, need[j], args[j]).None? && (need[j] == c ==> c == 'o' && args[j] != arg)
    {
      assert need[j] in need && args[j] in args;
    }
  }

  lemma MinusPassUnfolds(ch: ChannelData, need: string, args: seq<string>)
    requires |need| == |args| && need != "" && "" !in args && forall d | d in need :: MinusTakesParam(d)
    ensures MinusAllPass(ch, need, args) && NoRepeats(need, args) <==>
            && MinusCheck(ch, need[0], args[0]).None?
            && MinusAllPass(MinusLetter(ch, need[0], args[0]), need[1..], args[1..])
            && NoRepeats(need[1..], args[1..])
  {
    assert args[0] in args && need[0] in need;
    assert forall a | a in args[1..] :: a in args;
    assert forall d | d in need[1..] :: d in need;
    MinusFirstErrorIsNone(ch, need, args);
    MinusFirstErrorIsNone(ch, need[1..], args[1..]);
    RepeatsShift(need, args);
    if MinusCheck(ch, need[0], args[0]).None? {
      MinusPassAfter(ch, need[0], args[0], need[1..], args[1..]);
    }
  }

  lemma MinusFlagsAreNotChecked(ch: ChannelData, c: char, need: string, args: seq<string>)
    requires |need| == |args| && !MinusTakesParam(c)
    ensures MinusAllPass(MinusLetter(ch, c, ""), need, args) == MinusAllPass(ch, need, args)
  {
  }

  /** Parameters are tokens, so none is empty (Text.Tokens). */
  lemma {:induction false} MinusAcceptance(ch: ChannelData, letters: string, args: seq<string>)
    requires AllKnown(letters) && |args| == |Needing(letters, MinusTakesParam)| && "" !in args
    ensures MinusEach(ch, letters, args, true).Some? <==>
            MinusAllPass(ch, Needing(letters, MinusTakesParam), args)
            && NoRepeats(Needing(letters, MinusTakesParam), args)
    decreases |letters|
  {
    if letters != "" {
      var c, rest := letters[0], letters[1..];
      var need := Needing(letters, MinusTakesParam);
      assert c in letters && forall d | d in rest :: d in letters;
      if !MinusTakesParam(c) {
        var ch' := MinusLetter(ch, c, "");
        assert need == Needing(rest, MinusTakesParam);
        MinusAcceptance(ch', rest, args);
        MinusFlagsAreNotChecked(ch, c, need, args);
        assert MinusEach(ch, letters, args, true) == MinusEach(ch', rest, args, true);
      } else {
        var ch' := MinusLetter(ch, c, args[0]);
        assert need[0] == c && need[1..] == Needing(rest, MinusTakesParam);
        assert forall a | a in args[1..] :: a in args;
        MinusAcceptance(ch', rest, args[1..]);
        MinusPassUnfolds(ch, need, args);
        assert MinusEach(ch, letters, args, true)
            == if MinusCheck(ch, c, args[0]).Some? then None else MinusEach(ch', rest, args[1..], true);
      }
    }
  }

  lemma RepeatsShift(need: string, args: seq<string>)
    requires |need| == |args| && need != ""
    ensures NoRepeats(need, args) <==>
            NoRepeats(need[1..], args[1..])
            && forall j | 0 <= j < |need[1..]| && need[1..][j] == need[0] :: need[0] == 'o' && args[1..][j] != args[0]
  {
  }

  /**
   * Main result for "-letters": same statement; what the batch accepts beyond the letterwise reading is exactly
   * a key removed twice or a nickname demoted twice.
   */
  lemma MinusBatchIsLetterwise(ch: ChannelData, letters: string, args: seq<string>)
    requires "" !in args
    ensures MinusBatch(ch, letters, args).Ok? ==>
            MinusEach(ch, letters, args, false) == Some(MinusBatch(ch, letters, args).value)
    ensures MinusEach(ch, letters, args, true).Some? && |args| <= PARAMS_MAX <==>
            MinusBatch(ch, letters, args).Ok? && NoRepeats(Needing(letters, MinusTakesParam), args)
    ensures MinusEach(ch, letters, args, true).Some? && |args| <= PARAMS_MAX ==>
            MinusEach(ch, letters, args, true) == Some(MinusBatch(ch, letters, args).value)
  {
    if AllKnown(letters) && |args| == |Needing(letters, MinusTakesParam)| {
      MinusOrderDoesNotMatter(ch, letters, args);
      MinusAcceptance(ch, letters, args);
      MinusFirstErrorIsNone(ch, Needing(letters, MinusTakesParam), args);
      if MinusEach(ch, letters, args, true).Some? {
        MinusCheckedIsUnchecked(ch, letters, args);
      }
    } else {
      MinusEachNeedsParams(ch, letters, args, true);
    }
  }

  // ---- inputs on which the batch is more lenient ----

  /** "+kk a b" where there is no key: the batch takes both, letter by letter the second is refused. */
  lemma BatchTakesTwoKeys(ch: ChannelData, index: map<string, Ptr>)
    requires ch.key == ""
    ensures PlusBatch(ch, index, "kk", ["a", "b"]).Ok? && PlusBatch(ch, index, "kk", ["a", "b"]).value.key == "b"
    ensures PlusEach(ch, index, "kk", ["a", "b"], true).None? && !OneKey("kk")
  {
    assert "kk"[1..] == "k" && "k"[1..] == "";
    assert Needing("k", PlusTakesParam) == "k" by { assert Needing("", PlusTakesParam) == ""; }
    assert Needing("kk", PlusTakesParam) == "kk" && ["a", "b"][1..] == ["b"] && ["b"][1..] == [];
    assert FirstError(ch, true, "", []) == None && FirstError(ch, true, "k", ["b"]) == None;
    assert FirstError(ch, true, "kk", ["a", "b"]) == None;
    var ch1 := PlusApply(PlusFlags(ch, "kk"), index, 'k', "a");
    assert PlusExec(ch1, index, "k", ["b"]) == PlusExec(PlusApply(ch1, index, 'k', "b"), index, "", []);
  }

  /** "-oo x x" where x is an operator: the same. */
  lemma BatchDemotesTwice(ch: ChannelData)
    requires "x" in ch.operators
    ensures MinusBatch(ch, "oo", ["x", "x"]).Ok? && "x" !in MinusBatch(ch, "oo", ["x", "x"]).value.operators
    ensures MinusEach(ch, "oo", ["x", "x"], true).None?
    ensures Needing("oo", MinusTakesParam) == "oo" && !NoRepeats("oo", ["x", "x"])
  {
    assert "oo"[1..] == "o" && "o"[1..] == "";
    assert Needing("o", MinusTakesParam) == "o" by { assert Needing("", MinusTakesParam) == ""; }
    assert Needing("oo", MinusTakesParam) == "oo" && ["x", "x"][1..] == ["x"] && ["x"][1..] == [];
    assert FirstError(ch, false, "", []) == None && FirstError(ch, false, "o", ["x"]) == None;
    assert FirstError(ch, false, "oo", ["x", "x"]) == None;
    var ch1 := MinusApply(MinusFlags(ch, "oo"), 'o', "x");
    assert MinusExec(ch1, "o", ["x"]) == MinusExec(MinusApply(ch1, 'o', "x"), "", []);
  }

  /** "-kk s s" where s is the key: the batch removes it, letter by letter the second removal is refused. */
  lemma BatchRemovesKeyTwice(ch: ChannelData, s: string)
    requires ch.key == s != ""
    ensures MinusBatch(ch, "kk", [s, s]).Ok? && MinusBatch(ch, "kk", [s, s]).value.key == ""
    ensures MinusEach(ch, "kk", [s, s], true).None?
    ensures Needing("kk", MinusTakesParam) == "kk" && !NoRepeats("kk", [s, s])
  {
    assert "kk"[1..] == "k" && "k"[1..] == "";
    assert Needing("k", MinusTakesParam) == "k" by { assert Needing("", MinusTakesParam) == ""; }
    assert Needing("kk", MinusTakesParam) == "kk" && [s, s][1..] == [s] && [s][1..] == [];
    assert FirstError(ch, false, "", []) == None && FirstError(ch, false, "k", [s]) == None;
    assert FirstError(ch, false, "kk", [s, s]) == None;
    var ch1 := MinusApply(MinusFlags(ch, "kk"), 'k', s);
    assert MinusExec(ch1, "k", [s]) == MinusExec(MinusApply(ch1, 'k', s), "", []);
  }
}
