/**
 * The outbound byte stream of one client: the pending buffer, send(), and what the peer receives.
 * Cast is the arithmetic of IrcServer::castMsg, Flush that of IrcServer::processClientWrite.
 */
module Outbound {

  /** What one call of send() can answer. Sent(n): the kernel takes n bytes, or all it was offered if that is less. */
  datatype SendResult = Sent(n: nat) | WouldBlock | PeerGone | OtherError

  function Taken(r: SendResult, offered: nat): (n: nat)
    ensures n <= offered
  {
    if r.Sent? then (if r.n <= offered then r.n else offered) else 0
  }

  /** New buffer, whether POLLOUT gets armed, whether the client gets marked for removal. */
  datatype CastResult = CastResult(buf: string, arm: bool, drop: bool)

  function Cast(buf: string, msg: string, r: SendResult): CastResult {
    match r
    case WouldBlock => CastResult(buf + msg, true, false)
    case PeerGone => CastResult(buf, false, true)
    case OtherError => CastResult(buf, false, false)
    case Sent(_) =>
      var toSend := buf + msg;
      var n := Taken(r, |toSend|);
      if n < |msg| then CastResult(buf + toSend[n..], true, false)
      else CastResult(if n <= |buf| then buf[n..] else "", false, false)
  }

  function Flush(buf: string, r: SendResult): string {
    buf[Taken(r, |buf|)..]
  }

  /** A client's outbound link: pending bytes, bytes the peer got, and all messages cast so far. */
  datatype Link = Link(buf: string, wire: string, cast: string)

  datatype LinkEvent = CastMsg(msg: string, r: SendResult) | Writable(r: SendResult)

  function LinkStep(l: Link, e: LinkEvent): Link {
    match e
    case CastMsg(msg, r) =>
      var toSend := l.buf + msg;
      Link(Cast(l.buf, msg, r).buf, l.wire + toSend[..Taken(r, |toSend|)], l.cast + msg)
    case Writable(r) =>
      Link(Flush(l.buf, r), l.wire + l.buf[..Taken(r, |l.buf|)], l.cast)
  }

  function LinkRun(l: Link, es: seq<LinkEvent>): Link {
    if es == [] then l else LinkStep(LinkRun(l, es[..|es| - 1]), es[|es| - 1])
  }

  /** No byte lost, duplicated or reordered: what the peer got, then what is pending, is what was cast. */
  predicate Conserved(l: Link) {
    l.wire + l.buf == l.cast
  }

  /** The guard: send() refused for now, or there was no backlog, or it took everything it was offered. */
  predicate Safe(buf: string, e: LinkEvent) {
    match e
    case Writable(_) => true
    case CastMsg(msg, r) =>
      msg == "" || r.WouldBlock? || (r.Sent? && (buf == "" || Taken(r, |buf + msg|) == |buf + msg|))
  }

  /** Exactly the safe steps conserve the stream. */
  lemma StepConservesIffSafe(l: Link, e: LinkEvent)
    requires Conserved(l)
    ensures Conserved(LinkStep(l, e)) <==> Safe(l.buf, e)
  {
  }

  ghost predicate ConservedThroughout(l: Link, es: seq<LinkEvent>) {
    forall k | 0 <= k <= |es| :: Conserved(LinkRun(l, es[..k]))
  }

  ghost predicate SafeThroughout(l: Link, es: seq<LinkEvent>) {
    forall k | 0 <= k < |es| :: Safe(LinkRun(l, es[..k]).buf, es[k])
  }

  lemma RunUnfolds(l: Link, es: seq<LinkEvent>, k: nat)
    requires k < |es|
    ensures LinkRun(l, es[..k + 1]) == LinkStep(LinkRun(l, es[..k]), es[k])
  {
    assert es[..k + 1][..k] == es[..k];
  }

  /** Main result: over any run the stream stays conserved at every moment iff every cast met the guard. */
  lemma {:induction false} ConservedIffSafe(l: Link, es: seq<LinkEvent>)
    requires Conserved(l)
    ensures ConservedThroughout(l, es) <==> SafeThroughout(l, es)
  {
    if ConservedThroughout(l, es) {
      forall k | 0 <= k < |es| ensures Safe(LinkRun(l, es[..k]).buf, es[k]) {
        RunUnfolds(l, es, k);
        assert Conserved(LinkRun(l, es[..k])) && Conserved(LinkRun(l, es[..k + 1]));
        StepConservesIffSafe(LinkRun(l, es[..k]), es[k]);
      }
    }
    if SafeThroughout(l, es) {
      forall k | 0 <= k <= |es| ensures Conserved(LinkRun(l, es[..k])) {
        SafeRunConserves(l, es, k);
      }
    }
  }

  lemma {:induction false} SafeRunConserves(l: Link, es: seq<LinkEvent>, k: nat)
    requires Conserved(l) && SafeThroughout(l, es) && k <= |es|
    ensures Conserved(LinkRun(l, es[..k]))
  {
    if k > 0 {
      SafeRunConserves(l, es, k - 1);
      RunUnfolds(l, es, k - 1);
      StepConservesIffSafe(LinkRun(l, es[..k - 1]), es[k - 1]);
    }
  }

  /** Witness that the guard is needed: a backlog and a partial send make the peer read "ab" twice. */
  lemma BacklogDuplicates()
    ensures var l := LinkStep(LinkStep(Link("", "", ""), CastMsg("ab", WouldBlock)), CastMsg("cd", Sent(1)));
            l.cast == "abcd" && l.wire + l.buf == "aabbcd" && !Conserved(l)
  {
  }
}
