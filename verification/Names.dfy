/** The NAMES reply can be read back: it lists exactly the participants, and '@' marks exactly the operators. */
module Names {
  import opened Text
  import opened Ordering
  import opened ServerState
  import opened Commands

  /** What a client does with the line: split at spaces, strip '@'. */
  function ReadNames(line: string): seq<(string, bool)>
    decreases |line|
  {
    if line == "" then []
    else
      var i := Find(line, ' ', 0);
      if i == |line| then [Entry(line)] else [Entry(line[..i])] + ReadNames(line[i + 1..])
  }

  function Entry(word: string): (string, bool) {
    if StartsWith(word, '@') then (word[1..], true) else (word, false)
  }

  function Marked(ch: ChannelData, names: seq<string>): seq<(string, bool)> {
    if names == [] then [] else [(names[0], names[0] in ch.operators)] + Marked(ch, names[1..])
  }

  lemma FindSpace(word: string, rest: string)
    requires ' ' !in word
    ensures Find(word, ' ', 0) == |word|
    ensures Find(word + " " + rest, ' ', 0) == |word|
  {
    var s := word + " " + rest;
    assert s[|word|] == ' ' && s[0..|word|] == word;
    FindIs(s, ' ', 0, |word|);
    assert word[0..|word|] == word;
    FindIs(word, ' ', 0, |word|);
  }

  lemma ReadsFirst(nick: string, op: bool, rest: string)
    requires ValidNick(nick)
    ensures var word := (if op then "@" else "") + nick;
            ReadNames(word) == [(nick, op)] && ReadNames(word + " " + rest) == [(nick, op)] + ReadNames(rest)
  {
    var word := (if op then "@" else "") + nick;
    assert forall c | c in nick :: c != ' ' && c != '@';
    assert nick[0] in nick;
    assert if op then word[0] == '@' && word[1..] == nick else word == nick;
    assert Entry(word) == (nick, op);
    FindSpace(word, rest);
    assert (word + " " + rest)[..|word|] == word;
    assert (word + " " + rest)[|word| + 1..] == rest;
  }

  lemma {:induction false} NamesOfReadBack(k: Control, name: string, order: seq<string>)
    requires Inv(k) && name in k.channels
    requires forall i | 0 <= i < |order| :: order[i] in k.channels[name].participants
    ensures ReadNames(NamesOf(k, k.channels[name], order)) == Marked(k.channels[name], order)
    decreases |order|
  {
    var ch := k.channels[name];
    if order != [] {
      var nick := order[0];
      assert ChannelOk(k.clients, ch) && Holds(k.clients, nick, ch.participants[nick]);
      assert ClientOk(k.clients[ch.participants[nick].fd]);
      NamesOfReadBack(k, name, order[1..]);
      var op := nick in ch.operators;
      var word := (if op then "@" else "") + nick;
      ReadsFirst(nick, op, NamesOf(k, ch, order[1..]));
      if |order| > 1 {
        assert NamesOf(k, ch, order) == word + " " + NamesOf(k, ch, order[1..]);
      } else {
        assert NamesOf(k, ch, order) == word;
      }
    }
  }

  lemma {:induction false} MarkedAt(ch: ChannelData, names: seq<string>)
    ensures |Marked(ch, names)| == |names|
    ensures forall i | 0 <= i < |names| :: Marked(ch, names)[i] == (names[i], names[i] in ch.operators)
    decreases |names|
  {
    if names != [] { MarkedAt(ch, names[1..]); }
  }

  lemma LineIsMarked(k: Control, name: string)
    requires Inv(k) && name in k.channels
    ensures var ch := k.channels[name];
            ReadNames(NamesLine(k, ch)) == Marked(ch, SortedNames(ch.participants.Keys))
  {
    var ch := k.channels[name];
    var order := SortedNames(ch.participants.Keys);
    forall i | 0 <= i < |order| ensures order[i] in ch.participants { assert order[i] in order; }
    NamesOfReadBack(k, name, order);
  }

  /** Main result: the line read back gives every participant exactly once, in map order, flagged iff operator. */
  lemma NamesLineReadsBack(k: Control, name: string)
    requires Inv(k) && name in k.channels
    ensures var ch := k.channels[name];
            var read := ReadNames(NamesLine(k, ch));
            && |read| == |ch.participants|
            && (forall i | 0 <= i < |read| :: read[i].1 == (read[i].0 in ch.operators))
            && (forall n :: n in ch.participants <==> exists i :: 0 <= i < |read| && read[i].0 == n)
            && (forall i, j | 0 <= i < j < |read| :: LexLeq(read[i].0, read[j].0) && read[i].0 != read[j].0)
  {
    hide Inv, NamesLine, ReadNames, SortedNames, Marked, LexLeq;
    var ch := k.channels[name];
    var order := SortedNames(ch.participants.Keys);
    SortedNamesAscend(ch.participants.Keys);
    LineIsMarked(k, name);
    MarkedAt(ch, order);
    var read := ReadNames(NamesLine(k, ch));
    forall n ensures n in ch.participants <==> exists i :: 0 <= i < |read| && read[i].0 == n {
      if n in ch.participants {
        assert n in order;
        var i :| 0 <= i < |order| && order[i] == n;
        assert read[i].0 == n;
      }
      if exists i :: 0 <= i < |read| && read[i].0 == n {
        var i :| 0 <= i < |read| && read[i].0 == n;
        assert order[i] in order;
      }
    }
  }
}
