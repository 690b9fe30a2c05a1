/**
 * What the tokenizers compute: what their tokens look like, that they drop only separators, and that they undo joining.
 */
module Tokenizing {
  import opened Text

  function JoinWith(fields: seq<string>, delim: char): string {
    if fields == [] then ""
    else if |fields| == 1 then fields[0]
    else fields[0] + [delim] + JoinWith(fields[1..], delim)
  }

  function Flat(fields: seq<string>): string {
    if fields == [] then "" else fields[0] + Flat(fields[1..])
  }

  lemma FlatConcat(a: string, rest: seq<string>)
    ensures Flat((if a == "" then [] else [a]) + rest) == a + Flat(rest)
  {
    if a == "" {
      assert [] + rest == rest;
    } else {
      assert ([a] + rest)[1..] == rest;
    }
  }

  // ---- Fields: JOIN ----

  predicate Separator(c: char) { c == ',' || c == ' ' }

  predicate Word(w: string) { w != "" && forall c | c in w :: !Separator(c) }

  function Unseparated(s: string): string {
    if s == "" then "" else (if Separator(s[0]) then "" else [s[0]]) + Unseparated(s[1..])
  }

  /** Fields are words, and together all that is no separator, in order. */
  lemma {:induction false} FieldsAreWords(s: string, tmp: string)
    requires tmp == "" || Word(tmp)
    ensures forall f | f in Fields(s, tmp) :: Word(f)
    ensures Flat(Fields(s, tmp)) == tmp + Unseparated(s)
    decreases |s|
  {
    if s == "" {
      FlatConcat(tmp, []);
      assert (if tmp == "" then [] else [tmp]) + [] == Fields(s, tmp);
    } else if Separator(s[0]) {
      FieldsAreWords(s[1..], "");
      FlatConcat(tmp, Fields(s[1..], ""));
      assert "" + Unseparated(s[1..]) == Unseparated(s[1..]);
    } else {
      FieldsAreWords(s[1..], tmp + [s[0]]);
      assert tmp + [s[0]] + Unseparated(s[1..]) == tmp + ([s[0]] + Unseparated(s[1..]));
    }
  }

  lemma {:induction false} FieldsReadWord(w: string, rest: string, tmp: string)
    requires forall c | c in w :: !Separator(c)
    ensures Fields(w + rest, tmp) == Fields(rest, tmp + w)
    decreases |w|
  {
    if w == "" {
      assert w + rest == rest && tmp + w == tmp;
    } else {
      assert (w + rest)[1..] == w[1..] + rest && tmp + [w[0]] + w[1..] == tmp + w;
      assert w[0] in w;
      FieldsReadWord(w[1..], rest, tmp + [w[0]]);
    }
  }

  lemma FieldsEndWord(w: string, delim: char, rest: string)
    requires Separator(delim) && w != ""
    ensures Fields([delim] + rest, w) == [w] + Fields(rest, "") && Fields("", w) == [w]
  {
    assert ([delim] + rest)[1..] == rest;
  }

  lemma JoinCons(w: string, more: seq<string>, delim: char)
    ensures JoinWith([w] + more, delim) == if more == [] then w else w + [delim] + JoinWith(more, delim)
  {
    assert ([w] + more)[1..] == more;
  }

  /** Round trip: words joined with commas or spaces come back. */
  lemma {:induction false} FieldsUndoJoin(words: seq<string>, delim: char)
    requires Separator(delim) && forall w | w in words :: Word(w)
    ensures Fields(JoinWith(words, delim), "") == words
    decreases |words|
  {
    if words == [] {
      assert Fields("", "") == [];
    } else {
      hide Fields, JoinWith;
      var w, more := words[0], words[1..];
      assert words == [w] + more && w in words && "" + w == w && w + "" == w;
      JoinCons(w, more, delim);
      var rest := JoinWith(more, delim);
      FieldsEndWord(w, delim, rest);
      if more == [] {
        FieldsReadWord(w, "", "");
      } else {
        assert w + [delim] + rest == w + ([delim] + rest);
        FieldsReadWord(w, [delim] + rest, "");
        FieldsUndoJoin(more, delim);
      }
    }
  }

  // ---- Tokens: USER and MODE ----

  lemma {:induction false} WordLenIs(w: string, rest: string)
    requires (forall c | c in w :: !IsSpace(c)) && (rest != "" ==> IsSpace(rest[0]))
    ensures WordLen(w + rest) == |w|
    decreases |w|
  {
    if w == "" {
      assert w + rest == rest;
    } else {
      assert w[0] in w && (w + rest)[1..] == w[1..] + rest;
      WordLenIs(w[1..], rest);
    }
  }

  predicate Solid(w: string) { w != "" && forall c | c in w :: !IsSpace(c) }

  /** Round trip: words joined with spaces come back. */
  lemma {:induction false} TokensUndoJoin(words: seq<string>)
    requires forall w | w in words :: Solid(w)
    ensures Tokens(JoinWith(words, ' ')) == words
    decreases |words|
  {
    if words != [] {
      var w, more := words[0], words[1..];
      assert words == [w] + more && w in words;
      assert w[0] in w;
      if more == [] {
        WordLenIs(w, "");
        assert w + "" == w && w[|w|..] == "" && w[..|w|] == w;
      } else {
        var rest := [' '] + JoinWith(more, ' ');
        assert JoinWith(words, ' ') == w + rest && rest[1..] == JoinWith(more, ' ');
        WordLenIs(w, rest);
        assert (w + rest)[..|w|] == w && (w + rest)[|w|..] == rest;
        TokensUndoJoin(more);
      }
    }
  }

  // ---- SplitFrom: PART, KICK and INVITE ----

  /** Without a colon every field is free of the delimiter, and only a delimiter at the very end gets lost. */
  lemma {:induction false} SplitDropsDelimiters(s: string, delim: char, start: nat)
    requires start <= |s| && ':' !in s
    ensures var r := SplitFrom(s, delim, start);
            && (forall f | f in r :: delim !in f)
            && (s[start..] == JoinWith(r, delim) || (r != [] && s[start..] == JoinWith(r, delim) + [delim]))
    decreases |s| - start
  {
    hide Find, SplitFrom, JoinWith;
    var pos := Find(s, delim, start);
    SplitStep(s, delim, start);
    JoinCons(s[start..], [], delim);
    if pos == |s| {
      assert s[start..] == s[start..pos] && [s[start..]] + [] == [s[start..]];
      if start == |s| { NothingJoined(delim); }
    } else {
      assert s[start] in s;
      SplitDropsDelimiters(s, delim, pos + 1);
      var w, rest := s[start..pos], SplitFrom(s, delim, pos + 1);
      JoinCons(w, rest, delim);
      assert s[start..] == w + [delim] + s[pos + 1..];
      if rest == [] {
        NothingJoined(delim);
        assert [w] + rest == [w] && s[start..] == w + [delim];
      } else {
        assert w + [delim] + (JoinWith(rest, delim) + [delim]) == w + [delim] + JoinWith(rest, delim) + [delim];
      }
    }
  }

  lemma NothingJoined(delim: char)
    ensures JoinWith([], delim) == ""
  {
  }

  /** What comes before the start does not matter. */
  lemma {:induction false} SplitSkips(all: string, n: nat, s: string, delim: char, start: nat)
    requires n <= |all| && all[n..] == s && start <= |s|
    ensures SplitFrom(all, delim, n + start) == SplitFrom(s, delim, start)
    decreases |s| - start
  {
    hide Find, SplitFrom;
    var pos := Find(s, delim, start);
    SlicesSkip(all, n, s, start, pos);
    FindIs(all, delim, n + start, n + pos);
    SplitStep(s, delim, start);
    SplitStep(all, delim, n + start);
    if pos < |s| {
      SlicesSkip(all, n, s, start + 1, pos + 1);
      SplitSkips(all, n, s, delim, pos + 1);
    }
  }

  lemma SlicesSkip(all: string, n: nat, s: string, i: nat, j: nat)
    requires n <= |all| && all[n..] == s && i <= j <= |s|
    ensures all[n + i..n + j] == s[i..j] && all[n + i..] == s[i..] && |all| == n + |s|
    ensures j < |s| ==> all[n + j] == s[j]
    ensures i < |s| ==> all[n + i] == s[i]
  {
    assert |all| == n + |s|;
    assert forall m | 0 <= m < |s| :: all[n + m] == s[m];
  }

  /** A field without the delimiter, not starting with a colon, then whatever follows. */
  lemma SplitReadsField(w: string, delim: char, rest: string)
    requires delim !in w && !StartsWith(w, ':') && delim != ':'
    ensures SplitFrom(w + [delim] + rest, delim, 0) == [w] + SplitFrom(rest, delim, 0)
  {
    hide Find, SplitFrom;
    var s := w + [delim] + rest;
    assert s[0..|w|] == w && s[|w|] == delim;
    FindIs(s, delim, 0, |w|);
    SplitStep(s, delim, 0);
    assert s[|w| + 1..] == rest;
    SplitSkips(s, |w| + 1, rest, delim, 0);
  }

  /** A colon at the start of a field swallows the rest, if there is a delimiter in it. */
  lemma ColonSwallows(text: string, delim: char)
    requires delim in text
    ensures SplitFrom(":" + text, delim, 0) == [text]
  {
    var s := ":" + text;
    var j :| 0 <= j < |text| && text[j] == delim;
    var pos := Find(s, delim, 0);
    assert s[j + 1] in s && s[0..|s|] == s && s[1..] == text;
  }

  /** Round trip. */
  lemma {:induction false} SplitUndoesJoin(fields: seq<string>, delim: char)
    requires delim != ':' && forall f | f in fields :: delim !in f && !StartsWith(f, ':')
    requires fields != [] ==> fields[|fields| - 1] != ""
    ensures SplitFrom(JoinWith(fields, delim), delim, 0) == fields
    decreases |fields|
  {
    if fields != [] {
      var w, more := fields[0], fields[1..];
      assert fields == [w] + more;
      if more == [] {
        assert w[0..|w|] == w && w[0..] == w;
        FindIs(w, delim, 0, |w|);
      } else {
        SplitReadsField(w, delim, JoinWith(more, delim));
        SplitUndoesJoin(more, delim);
      }
    }
  }

  // ---- TopicFields: TOPIC ----

  /** Joining undoes it; every field but the last is free of spaces, and the last unless it starts with a colon. */
  lemma {:induction false} TopicFieldsRejoin(s: string)
    ensures var r := TopicFields(s);
            && JoinWith(r, ' ') == s
            && (forall i | 0 <= i < |r| - 1 :: ' ' !in r[i])
            && (' ' in r[|r| - 1] ==> |r| > 1 && StartsWith(r[|r| - 1], ':'))
    decreases |s|
  {
    var i, r := Find(s, ' ', 0), TopicFields(s);
    assert s[0..i] == s[..i];
    if i == |s| {
      assert s[..i] == s;
    } else {
      assert s == s[..i] + [' '] + s[i + 1..];
      if i + 1 < |s| && s[i + 1] == ':' {
        assert r[1..] == [s[i + 1..]];
      } else {
        TopicFieldsRejoin(s[i + 1..]);
        assert r[1..] == TopicFields(s[i + 1..]);
      }
    }
  }

  // ---- MessageFields: PRIVMSG ----

  lemma {:induction false} MessageReadsWord(w: string, rest: string, tmp: string)
    requires forall c | c in w :: !Separator(c) && c != ':'
    ensures MessageFields(w + rest, tmp) == MessageFields(rest, tmp + w)
    decreases |w|
  {
    if w == "" {
      assert w + rest == rest && tmp + w == tmp;
    } else {
      assert (w + rest)[1..] == w[1..] + rest && tmp + [w[0]] + w[1..] == tmp + w;
      assert w[0] in w;
      MessageReadsWord(w[1..], rest, tmp + [w[0]]);
    }
  }

  /** How a word ends: at a separator, before a text, or with the line. */
  lemma MessageEndsWord(w: string, c: char, rest: string, text: string)
    requires w != "" && Separator(c)
    ensures MessageFields([c] + rest, w) == [w] + MessageFields(rest, "")
    ensures MessageFields(":" + text, "") == [":" + text] && MessageFields("", w) == [w] && MessageFields("", "") == []
  {
    assert ([c] + rest)[1..] == rest && [] + [":" + text] == [":" + text];
  }

  /** Round trip: receivers separated by commas, then the text, colon included and untouched. */
  lemma {:induction false} MessageFieldsRead(receivers: seq<string>, text: string)
    requires forall w | w in receivers :: Word(w) && ':' !in w
    ensures MessageFields(JoinWith(receivers, ',') + " :" + text, "") == receivers + [":" + text]
    decreases |receivers|
  {
    var last := ":" + text;
    if receivers == [] {
      assert JoinWith(receivers, ',') + " :" + text == " " + last && (" " + last)[1..] == last;
      MessageEndsWord("-", ' ', last, text);
      assert [] + [last] == [last];
    } else {
      var w, more := receivers[0], receivers[1..];
      assert receivers == [w] + more && w in receivers && "" + w == w;
      JoinCons(w, more, ',');
      hide MessageFields, JoinWith;
      if more == [] {
        assert w + " :" + text == w + ([' '] + last);
        MessageReadsWord(w, [' '] + last, "");
        MessageEndsWord(w, ' ', last, text);
      } else {
        var rest := JoinWith(more, ',') + " :" + text;
        assert w + [','] + JoinWith(more, ',') + " :" + text == w + ([','] + rest);
        MessageReadsWord(w, [','] + rest, "");
        MessageEndsWord(w, ',', rest, text);
        MessageFieldsRead(more, text);
        assert [w] + (more + [last]) == receivers + [last];
      }
    }
  }

  /** The same without a text. */
  lemma {:induction false} MessageWordsRead(receivers: seq<string>)
    requires forall w | w in receivers :: Word(w) && ':' !in w
    ensures MessageFields(JoinWith(receivers, ','), "") == receivers
    decreases |receivers|
  {
    if receivers == [] {
      assert JoinWith(receivers, ',') == "";
    } else {
      var w, more := receivers[0], receivers[1..];
      assert receivers == [w] + more && w in receivers && "" + w == w;
      JoinCons(w, more, ',');
      hide MessageFields, JoinWith;
      if more == [] {
        assert w + "" == w;
        MessageReadsWord(w, "", "");
        MessageEndsWord(w, ',', "", "");
      } else {
        var rest := JoinWith(more, ',');
        assert w + [','] + rest == w + ([','] + rest);
        MessageReadsWord(w, [','] + rest, "");
        MessageEndsWord(w, ',', rest, "");
        MessageWordsRead(more);
      }
    }
  }
}
