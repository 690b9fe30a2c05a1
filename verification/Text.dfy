/** Character classes and the tokenizers of the command layer. */
module Text {

  predicate IsSpace(c: char) { c == ' ' || 9 <= c as int <= 13 }

  predicate IsDigit(c: char) { '0' <= c <= '9' }

  predicate IsAlnum(c: char) { IsDigit(c) || 'a' <= c <= 'z' || 'A' <= c <= 'Z' }

  predicate IsCntrl(c: char) { c as int < 32 || c as int == 127 }

  predicate StartsWith(s: string, c: char) { s != "" && s[0] == c }

  /** std::string::find(c, from); |s| stands for npos. */
  function Find(s: string, c: char, from: nat): (pos: nat)
    requires from <= |s|
    ensures from <= pos <= |s|
    ensures c !in s[from..pos]
    ensures pos < |s| ==> s[pos] == c
    decreases |s| - from
  {
    if from == |s| then |s|
    else if s[from] == c then from
    else
      var pos := Find(s, c, from + 1);
      assert s[from..pos] == [s[from]] + s[from + 1..pos];
      pos
  }

  lemma FindIs(s: string, c: char, from: nat, pos: nat)
    requires from <= pos <= |s| && c !in s[from..pos] && (pos < |s| ==> s[pos] == c)
    ensures Find(s, c, from) == pos
  {
  }

  /** Length of the leading run of non-space characters. */
  function WordLen(s: string): (n: nat)
    ensures n <= |s|
    ensures forall c | c in s[..n] :: !IsSpace(c)
    ensures n < |s| ==> IsSpace(s[n])
  {
    if s == "" || IsSpace(s[0]) then 0
    else
      assert s[..1 + WordLen(s[1..])] == [s[0]] + s[1..][..WordLen(s[1..])];
      1 + WordLen(s[1..])
  }

  /** Repeated stream >> token. */
  function Tokens(s: string): (r: seq<string>)
    ensures forall t | t in r :: t != "" && forall c | c in t :: !IsSpace(c)
    decreases |s|
  {
    if s == "" then []
    else if IsSpace(s[0]) then Tokens(s[1..])
    else [s[..WordLen(s)]] + Tokens(s[WordLen(s)..])
  }

  /** Maximal runs of characters that are neither ',' nor ' ', with tmp the run read so far. */
  function Fields(s: string, tmp: string): (r: seq<string>)
    decreases |s|
  {
    if s == "" then (if tmp == "" then [] else [tmp])
    else if s[0] == ',' || s[0] == ' ' then (if tmp == "" then [] else [tmp]) + Fields(s[1..], "")
    else Fields(s[1..], tmp + [s[0]])
  }

  /** Cmd::split: fields up to a delimiter; a field that starts with ':' swallows the rest. */
  function SplitFrom(s: string, delim: char, start: nat): seq<string>
    requires start <= |s|
    decreases |s| - start
  {
    var pos := Find(s, delim, start);
    if pos == |s| then (if start < |s| then [s[start..]] else [])
    else if s[start] == ':' then [s[start + 1..]]
    else [s[start..pos]] + SplitFrom(s, delim, pos + 1)
  }

  lemma SplitStep(s: string, delim: char, start: nat)
    requires start <= |s|
    ensures var pos := Find(s, delim, start);
            SplitFrom(s, delim, start) ==
            if pos == |s| then (if start < |s| then [s[start..]] else [])
            else if s[start] == ':' then [s[start + 1..]]
            else [s[start..pos]] + SplitFrom(s, delim, pos + 1)
  {
  }

  /** Cmd::topicSplit: fields between single spaces; " :" starts the last field. */
  function TopicFields(s: string): (r: seq<string>)
    ensures r != []
    decreases |s|
  {
    var i := Find(s, ' ', 0);
    if i == |s| then [s]
    else if i + 1 < |s| && s[i + 1] == ':' then [s[..i], s[i + 1..]]
    else [s[..i]] + TopicFields(s[i + 1..])
  }

  /** Cmd::privmsgSplit: like Fields, but the first ':' starts a field that holds all the rest. */
  function MessageFields(s: string, tmp: string): (r: seq<string>)
    decreases |s|
  {
    var flushed := if tmp == "" then [] else [tmp];
    if s == "" then flushed
    else if s[0] == ' ' || s[0] == ',' then flushed + MessageFields(s[1..], "")
    else if s[0] == ':' then flushed + [s]
    else MessageFields(s[1..], tmp + [s[0]])
  }

  /** atoi on a string of decimal digits. */
  function Atoi(s: string): nat
    requires forall c | c in s :: IsDigit(c)
  {
    if s == "" then 0
    else
      assert IsDigit(s[|s| - 1]);
      Atoi(s[..|s| - 1]) * 10 + (s[|s| - 1] as int - '0' as int)
  }
}
