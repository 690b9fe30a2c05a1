/**
 * The inbound byte stream of a client: cutting it into messages of at most 512 bytes
 * (section 2.3 of RFC 1459 and of RFC 2812), as Client::extractMessage does.
 */
module Framing {
  import opened Wrappers

  const CRLF: string := "\r\n"
  const MESSAGE_MAX := 512  // with its CRLF
  const TEXT_MAX := 510     // without it

  predicate CrlfAt(s: string, i: int) {
    0 <= i && i + 2 <= |s| && s[i] == '\r' && s[i + 1] == '\n'
  }

  ghost predicate HasCrlf(s: string) {
    exists i :: CrlfAt(s, i)
  }

  /** std::string::find("\r\n"); |s| stands for npos. */
  function FindCrlf(s: string): (pos: nat)
    ensures pos <= |s|
    ensures pos < |s| ==> CrlfAt(s, pos)
    ensures forall i | i < pos :: !CrlfAt(s, i)
    ensures pos == |s| ==> !HasCrlf(s)
  {
    FindCrlfFrom(s, 0)
  }

  function FindCrlfFrom(s: string, from: nat): (pos: nat)
    requires from <= |s|
    ensures from <= pos <= |s|
    ensures pos < |s| ==> CrlfAt(s, pos)
    ensures forall i | from <= i < pos :: !CrlfAt(s, i)
    decreases |s| - from
  {
    if from == |s| then |s|
    else if CrlfAt(s, from) then from
    else FindCrlfFrom(s, from + 1)
  }

  lemma FindCrlfIs(s: string, pos: nat)
    requires CrlfAt(s, pos) && forall i | i < pos :: !CrlfAt(s, i)
    ensures FindCrlf(s) == pos
  {
  }

  /** One extraction: the message and what stays in the buffer, or None when the buffer holds no message yet. */
  function Extract(buf: string): Option<(string, string)> {
    var pos := FindCrlf(buf);
    if pos < |buf| then
      if pos + 2 > MESSAGE_MAX then Some((buf[..TEXT_MAX], buf[TEXT_MAX..]))
      else Some((buf[..pos], buf[pos + 2..]))
    else if |buf| >= MESSAGE_MAX then Some((buf[..TEXT_MAX], buf[TEXT_MAX..]))
    else None
  }

  /** An extraction loses no byte: only the CRLF that ends a message disappears. The message itself is legal. */
  lemma ExtractIsLossless(buf: string)
    ensures match Extract(buf)
            case None => !HasCrlf(buf) && |buf| < MESSAGE_MAX
            case Some((msg, rest)) =>
              && (buf == msg + CRLF + rest || (buf == msg + rest && |msg| == TEXT_MAX))
              && !HasCrlf(msg) && |msg| <= TEXT_MAX && |rest| < |buf|
  {
    var pos := FindCrlf(buf);
    if Extract(buf).Some? {
      var (msg, rest) := Extract(buf).value;
      forall i ensures !CrlfAt(msg, i) {
        if CrlfAt(msg, i) { assert CrlfAt(buf, i); }
      }
      if pos < |buf| && pos + 2 <= MESSAGE_MAX {
        assert buf[pos..pos + 2] == CRLF;
        assert buf == buf[..pos] + buf[pos..pos + 2] + buf[pos + 2..];
      }
    }
  }

  /** Bytes that arrive later never change a message that was already complete. */
  lemma ExtractIsStable(s: string, t: string)
    requires Extract(s).Some?
    ensures Extract(s + t) == Some((Extract(s).value.0, Extract(s).value.1 + t))
  {
    var pos := FindCrlf(s);
    forall i | 0 <= i && i + 2 <= |s| ensures CrlfAt(s + t, i) <==> CrlfAt(s, i) { }
    if pos < |s| {
      FindCrlfIs(s + t, pos);
      if pos + 2 <= MESSAGE_MAX {
        assert (s + t)[..pos] == s[..pos];
        assert (s + t)[pos + 2..] == s[pos + 2..] + t;
      } else {
        assert (s + t)[..TEXT_MAX] == s[..TEXT_MAX];
        assert (s + t)[TEXT_MAX..] == s[TEXT_MAX..] + t;
      }
    } else {
      var q := FindCrlf(s + t);
      assert q < |s + t| ==> q + 2 > |s|;
      assert (s + t)[..TEXT_MAX] == s[..TEXT_MAX];
      assert (s + t)[TEXT_MAX..] == s[TEXT_MAX..] + t;
    }
  }

  // ---- why 512 ----

  /** extractMessage with another flush threshold; substr and erase stop at the end of the buffer. */
  function ExtractAt(buf: string, threshold: nat): Option<(string, string)> {
    var pos, cut := FindCrlf(buf), if TEXT_MAX <= |buf| then TEXT_MAX else |buf|;
    if pos < |buf| then
      if pos + 2 > MESSAGE_MAX then Some((buf[..cut], buf[cut..])) else Some((buf[..pos], buf[pos + 2..]))
    else if |buf| >= threshold then Some((buf[..cut], buf[cut..]))
    else None
  }

  lemma ExtractUses512(buf: string)
    ensures Extract(buf) == ExtractAt(buf, MESSAGE_MAX)
  {
  }

  ghost predicate StableAt(threshold: nat) {
    forall s, t | ExtractAt(s, threshold).Some? ::
      ExtractAt(s + t, threshold) == Some((ExtractAt(s, threshold).value.0, ExtractAt(s, threshold).value.1 + t))
  }

  /** The threshold is exactly tight: a smaller one would let the chunking show, none larger is needed. */
  lemma FlushThresholdIsTight(threshold: nat)
    ensures StableAt(threshold) <==> threshold >= MESSAGE_MAX
  {
    if threshold >= MESSAGE_MAX {
      forall s, t | ExtractAt(s, threshold).Some?
        ensures ExtractAt(s + t, threshold)
                == Some((ExtractAt(s, threshold).value.0, ExtractAt(s, threshold).value.1 + t))
      {
        LargeThresholdIsStable(s, t, threshold);
      }
    } else {
      SmallThresholdIsNot(threshold);
    }
  }

  lemma LargeThresholdIsStable(s: string, t: string, threshold: nat)
    requires threshold >= MESSAGE_MAX && ExtractAt(s, threshold).Some?
    ensures ExtractAt(s + t, threshold) == Some((ExtractAt(s, threshold).value.0, ExtractAt(s, threshold).value.1 + t))
  {
    ExtractUses512(s);
    ExtractIsStable(s, t);
    ExtractUses512(s + t);
    if FindCrlf(s) < |s| { assert CrlfAt(s + t, FindCrlf(s)); }
  }

  /** The cut between CR and LF of a message of full length. */
  lemma SmallThresholdIsNot(threshold: nat)
    requires threshold < MESSAGE_MAX
    ensures !StableAt(threshold)
  {
    var text := seq(TEXT_MAX, _ => 'a');
    var s, whole := text + "\r", text + "\r" + "\n";
    assert !HasCrlf(s);
    assert s[..TEXT_MAX] == text && s[TEXT_MAX..] == "\r";
    assert ExtractAt(s, threshold) == Some((text, "\r"));
    FindCrlfIs(whole, TEXT_MAX);
    assert whole[TEXT_MAX + 2..] == "";
    assert ExtractAt(s + "\n", threshold) == Some((whole[..TEXT_MAX], ""));
  }

  /** Extracting until the buffer holds no message: all messages in order, and the leftover. */
  function Drain(buf: string): (r: (seq<string>, string))
    decreases |buf|
  {
    ExtractIsLossless(buf);
    match Extract(buf)
    case None => ([], buf)
    case Some((msg, rest)) =>
      var (msgs, left) := Drain(rest);
      ([msg] + msgs, left)
  }

  lemma DrainFirst(buf: string, later: string)
    requires Extract(buf).Some?
    ensures var (msg, rest) := Extract(buf).value;
            Drain(buf + later) == ([msg] + Drain(rest + later).0, Drain(rest + later).1)
  {
    ExtractIsStable(buf, later);
  }

  /** What a reader sees that drains after every received chunk. */
  function DrainChunks(buf: string, chunks: seq<string>): (seq<string>, string)
    decreases |chunks|
  {
    if chunks == [] then ([], buf)
    else
      var (msgs, left) := Drain(buf + chunks[0]);
      var (more, last) := DrainChunks(left, chunks[1..]);
      (msgs + more, last)
  }

  function Concat(chunks: seq<string>): string {
    if chunks == [] then "" else chunks[0] + Concat(chunks[1..])
  }

  lemma {:induction false} DrainIsStable(s: string, t: string)
    ensures Drain(s + t) == (Drain(s).0 + Drain(Drain(s).1 + t).0, Drain(Drain(s).1 + t).1)
    decreases |s|
  {
    match Extract(s) {
      case None =>
        assert Drain(s) == ([], s);
        assert Drain(s).0 + Drain(s + t).0 == Drain(s + t).0;
      case Some((msg, rest)) =>
        ExtractIsLossless(s);
        ExtractIsStable(s, t);
        DrainIsStable(rest, t);
        var later := Drain(Drain(rest).1 + t).0;
        assert ([msg] + Drain(rest).0) + later == [msg] + (Drain(rest).0 + later);
    }
  }

  /** Main result: how the network cuts the stream into chunks cannot be observed. */
  lemma {:induction false} ChunkingIsInvisible(buf: string, chunks: seq<string>)
    ensures Drain(buf + Concat(chunks)) ==
            (Drain(buf).0 + DrainChunks(Drain(buf).1, chunks).0, DrainChunks(Drain(buf).1, chunks).1)
    decreases |chunks|
  {
    hide Drain;
    var (msgs, left) := Drain(buf);
    if chunks == [] {
      assert buf + Concat(chunks) == buf && msgs + [] == msgs;
    } else {
      DrainIsStable(buf, chunks[0]);
      ChunkingIsInvisible(buf + chunks[0], chunks[1..]);
      assert buf + Concat(chunks) == buf + chunks[0] + Concat(chunks[1..]);
      var (m1, l1) := Drain(left + chunks[0]);
      assert (msgs + m1) + DrainChunks(l1, chunks[1..]).0 == msgs + (m1 + DrainChunks(l1, chunks[1..]).0);
    }
  }

  /** Any two ways of cutting one stream give the same messages and the same leftover. */
  lemma {:induction false} ChunkIndependence(a: seq<string>, b: seq<string>)
    requires Concat(a) == Concat(b)
    ensures DrainChunks("", a) == DrainChunks("", b)
  {
    hide Drain, DrainChunks, Concat;
    DrainNothing();
    ChunkingIsInvisible("", a);
    ChunkingIsInvisible("", b);
    assert "" + Concat(a) == "" + Concat(b);
    assert [] + DrainChunks("", a).0 == DrainChunks("", a).0;
    assert [] + DrainChunks("", b).0 == DrainChunks("", b).0;
  }

  lemma DrainNothing()
    ensures Drain("") == ([], "")
  {
  }

  /** Every drained message is legal and the leftover is shorter than one message. */
  lemma {:induction false} DrainedMessagesAreLegal(buf: string)
    ensures forall m | m in Drain(buf).0 :: !HasCrlf(m) && |m| <= TEXT_MAX
    ensures !HasCrlf(Drain(buf).1) && |Drain(buf).1| < MESSAGE_MAX
    decreases |buf|
  {
    ExtractIsLossless(buf);
    if Extract(buf).Some? {
      DrainedMessagesAreLegal(Extract(buf).value.1);
    }
  }

  function Encode(msgs: seq<string>): string {
    if msgs == [] then "" else msgs[0] + CRLF + Encode(msgs[1..])
  }

  lemma ExtractEncoded(m: string, rest: string)
    requires !HasCrlf(m) && |m| <= TEXT_MAX
    ensures Extract(m + CRLF + rest) == Some((m, rest))
  {
    var s := m + CRLF + rest;
    assert CrlfAt(s, |m|);
    forall i | i < |m| ensures !CrlfAt(s, i) {
      assert i + 2 <= |m| ==> (CrlfAt(s, i) <==> CrlfAt(m, i));
    }
    FindCrlfIs(s, |m|);
    assert s[..|m|] == m && s[|m| + 2..] == rest;
  }

  /** Round trip: legal messages come out exactly as they were sent. */
  lemma {:induction false} DrainInvertsEncode(msgs: seq<string>)
    requires forall m | m in msgs :: !HasCrlf(m) && |m| <= TEXT_MAX
    ensures Drain(Encode(msgs)) == (msgs, "")
  {
    hide Extract, HasCrlf;
    if msgs == [] {
      DrainNothing();
    } else {
      ExtractEncoded(msgs[0], Encode(msgs[1..]));
      DrainInvertsEncode(msgs[1..]);
      assert msgs == [msgs[0]] + msgs[1..];
    }
  }

  /** append(const char*): a received chunk counts only up to its first NUL byte. */
  function CString(chunk: string): (r: string)
    ensures r <= chunk
    ensures forall c | c in r :: c != '\0'
    ensures |r| < |chunk| ==> chunk[|r|] == '\0'
  {
    if chunk == "" || chunk[0] == '\0' then "" else [chunk[0]] + CString(chunk[1..])
  }

  /** What append() keeps of each received chunk. */
  function Accepted(chunks: seq<string>): seq<string> {
    if chunks == [] then [] else [CString(chunks[0])] + Accepted(chunks[1..])
  }

  lemma {:induction false} AcceptedLength(chunks: seq<string>)
    ensures |Concat(Accepted(chunks))| <= |Concat(chunks)|
    ensures |Concat(Accepted(chunks))| == |Concat(chunks)| ==> '\0' !in Concat(chunks)
    ensures '\0' !in Concat(chunks) ==> Concat(Accepted(chunks)) == Concat(chunks)
  {
    if chunks != [] {
      AcceptedLength(chunks[1..]);
      var c, rest := chunks[0], Concat(chunks[1..]);
      assert Concat(chunks) == c + rest && Concat(Accepted(chunks)) == CString(c) + Concat(Accepted(chunks[1..]));
      assert CString(c) == c || |CString(c)| < |c|;
      assert |CString(c)| < |c| ==> c[|CString(c)|] in c;
    }
  }

  /** The bytes accepted are the stream exactly when it has no NUL, and then the chunking does not show. */
  lemma ReceivedChunkIndependence(a: seq<string>, b: seq<string>)
    requires Concat(a) == Concat(b)
    ensures Concat(Accepted(a)) == Concat(a) <==> '\0' !in Concat(a)
    ensures '\0' !in Concat(a) ==> DrainChunks("", Accepted(a)) == DrainChunks("", Accepted(b))
  {
    hide Drain, DrainChunks, Concat, Accepted;
    AcceptedLength(a);
    AcceptedLength(b);
    if '\0' !in Concat(a) { ChunkIndependence(Accepted(a), Accepted(b)); }
  }

  /** No byte but NULs comes after a NUL. */
  predicate NulsLast(s: string) {
    forall i, j | 0 <= i < j < |s| && s[i] == '\0' :: s[j] == '\0'
  }

  /** However the stream is cut, the reader sees the same. */
  ghost predicate ChunkingHidden(s: string) {
    forall a, b | Concat(a) == s && Concat(b) == s :: DrainChunks("", Accepted(a)) == DrainChunks("", Accepted(b))
  }

  lemma CStringIs(s: string, n: nat)
    requires n <= |s| && '\0' !in s[..n] && (n < |s| ==> s[n] == '\0')
    ensures CString(s) == s[..n]
  {
    hide CString;
    var r := CString(s);
    assert forall j | 0 <= j < |r| :: r[j] == s[j] && r[j] in r;
    assert forall j | 0 <= j < n :: s[..n][j] == s[j] && s[..n][j] in s[..n];
  }

  lemma CStringEnds(c: string, rest: string)
    ensures '\0' !in c ==> CString(c) == c && CString(c + rest) == c + CString(rest)
    ensures '\0' in c ==> |CString(c)| < |c| && CString(c + rest) == CString(c)
  {
    hide CString;
    var n, m, s := |CString(c)|, |CString(rest)|, c + rest;
    if '\0' !in c {
      CStringIs(c, |c|);
      assert s[..|c| + m] == c + CString(rest);
      CStringIs(s, |c| + m);
    } else {
      assert n == |c| ==> CString(c) == c;
      assert CString(c) == c[..n];
      assert s[..n] == c[..n];
      CStringIs(s, n);
    }
  }

  /** When the NULs come last, every way of cutting the stream accepts what comes before them. */
  lemma {:induction false} AcceptedUpToNuls(chunks: seq<string>)
    requires NulsLast(Concat(chunks))
    ensures Concat(Accepted(chunks)) == CString(Concat(chunks))
  {
    if chunks != [] {
      var c, rest := chunks[0], Concat(chunks[1..]);
      var s := c + rest;
      assert forall i | 0 <= i < |rest| :: rest[i] == s[|c| + i];
      AcceptedUpToNuls(chunks[1..]);
      CStringEnds(c, rest);
      if '\0' in c {
        var k :| 0 <= k < |c| && c[k] == '\0';
        assert s[k] == '\0';
        assert rest != "" ==> s[|c|] == '\0' && rest[0] == '\0';
        assert CString(rest) == "";
      }
      assert Concat(Accepted(chunks)) == CString(c) + Concat(Accepted(chunks[1..]));
    }
  }

  /** More bytes always show, as messages or in the leftover. */
  lemma MoreShows(p: string, x: string)
    requires x != ""
    ensures Drain(p + x) != Drain(p)
  {
    DrainIsStable(p, x);
    var left := Drain(p).1;
    assert Drain(left + x) != ([], left);
  }

  lemma DrainedAtOnce(chunks: seq<string>)
    ensures DrainChunks("", chunks) == Drain(Concat(chunks))
  {
    hide Drain, DrainChunks, Concat;
    DrainNothing();
    ChunkingIsInvisible("", chunks);
    assert "" + Concat(chunks) == Concat(chunks);
    assert [] + DrainChunks("", chunks).0 == DrainChunks("", chunks).0;
  }

  lemma OneCut(c: string, d: string)
    ensures Concat([c]) == c && Concat([c, d]) == c + d
    ensures Concat(Accepted([c])) == CString(c) && Concat(Accepted([c, d])) == CString(c) + CString(d)
  {
    assert [c][1..] == [] && [c, d][1..] == [d];
    assert Accepted([d])[1..] == [] && Accepted([c, d])[1..] == Accepted([d]);
  }

  /** A byte after a NUL is read or not, as the stream is cut right before it or not at all. */
  lemma NulInsideShows(s: string, i: nat, j: nat)
    requires i < j < |s| && s[i] == '\0' && s[j] != '\0'
    ensures !ChunkingHidden(s)
  {
    var c, d := s[..j], s[j..];
    assert c[i] == '\0' && c + d == s && d[0] == s[j];
    CStringEnds(c, d);
    OneCut(c, d);
    OneCut(s, "");
    MoreShows(CString(c), CString(d));
    DrainedAtOnce(Accepted([s]));
    DrainedAtOnce(Accepted([c, d]));
  }

  /**
   * Main result from the socket on: the chunking of a stream cannot be observed iff only NULs come after its first NUL.
   */
  lemma ChunkingHiddenIffNulsLast(s: string)
    ensures ChunkingHidden(s) <==> NulsLast(s)
  {
    if NulsLast(s) {
      forall a, b | Concat(a) == s && Concat(b) == s
        ensures DrainChunks("", Accepted(a)) == DrainChunks("", Accepted(b))
      {
        AcceptedUpToNuls(a);
        AcceptedUpToNuls(b);
        ChunkIndependence(Accepted(a), Accepted(b));
      }
    } else {
      var i, j :| 0 <= i < j < |s| && s[i] == '\0' && s[j] != '\0';
      NulInsideShows(s, i, j);
    }
  }

  /** A stream whose chunking does show: a NUL with a byte after it. */
  lemma NulShowsChunking()
    ensures Concat(["\0b"]) == Concat(["\0", "b"])
    ensures DrainChunks("", Accepted(["\0b"])) == ([], "") && DrainChunks("", Accepted(["\0", "b"])) == ([], "b")
  {
    assert ["\0", "b"][1..] == ["b"];
    assert Accepted(["b"]) == ["b"] by { assert CString("b") == "b"; }
    assert Accepted(["\0b"]) == [""] && Accepted(["\0", "b"]) == [""] + ["b"];
    assert [""] == [""] + [] && ["b"] == ["b"] + [] && "" + "" == "" && "" + "b" == "b";
    ShortChunk("", "", []);
    ShortChunk("", "", ["b"]);
    ShortChunk("", "b", []);
  }

  lemma ShortChunk(buf: string, chunk: string, more: seq<string>)
    requires |buf + chunk| <= 1
    ensures DrainChunks(buf, [chunk] + more) == DrainChunks(buf + chunk, more)
  {
    assert FindCrlf(buf + chunk) == |buf + chunk|;
    assert Drain(buf + chunk) == ([], buf + chunk);
    assert ([chunk] + more)[1..] == more;
    assert [] + DrainChunks(buf + chunk, more).0 == DrainChunks(buf + chunk, more).0;
  }

  /**
   * Extraction written out: the bytes before a CRLF that starts within the first 511; without one, the first 510 of at
   * least 512; otherwise nothing.
   */
  lemma ExtractIs(buf: string)
    ensures forall p | 0 <= p <= 510 && CrlfAt(buf, p) && (forall i | 0 <= i < p :: !CrlfAt(buf, i)) ::
              Extract(buf) == Some((buf[..p], buf[p + 2..]))
    ensures (forall i | 0 <= i <= 510 :: !CrlfAt(buf, i)) ==>
              Extract(buf) == if |buf| >= 512 then Some((buf[..510], buf[510..])) else None
  {
    forall p | 0 <= p <= 510 && CrlfAt(buf, p) && (forall i | 0 <= i < p :: !CrlfAt(buf, i))
      ensures Extract(buf) == Some((buf[..p], buf[p + 2..]))
    {
      FindCrlfIs(buf, p);
    }
    assert FindCrlf(buf) < |buf| ==> CrlfAt(buf, FindCrlf(buf));
  }
}
