/** Admission over whole runs: user limits are never exceeded, and every admission under +i uses up a grant. */
module Admission {
  import opened Wrappers
  import opened ServerState
  import opened Acts
  import opened Authority
  import opened Provenance

  /** The instance is there, under +l with this limit. */
  predicate Limited(k: Control, name: string, inst: nat, limit: nat) {
    SameChannel(k, name, inst) && 'l' in k.channels[name].modes && k.channels[name].limit == Some(limit)
  }

  lemma ActRespectsLimit(k: Control, a: Act, name: string, inst: nat, limit: nat)
    requires Inv(k) && Allowed(k, a)
    requires Limited(k, name, inst, limit) && |k.channels[name].participants| <= limit
    ensures Limited(Perform(k, a), name, inst, limit) ==> |Perform(k, a).channels[name].participants| <= limit
  {
    hide Inv;
    ChannelEffect(k, a, name);
    var ch := k.channels[name];
    if a.Rename? { RenameKeepsIdentities(k, a.fd, a.nick, name); }
    if a.SetModes? { ModeBatchKeepsOk(k, a.name, a.plus, a.letters, a.args); }
    if a.Disconnect? || a.Exit? || a.Expel? {
      var gone := if a.Expel? then a.nick else k.clients[a.fd].nick;
      assert |ch.participants - {gone}| <= |ch.participants| by {
        assert (ch.participants - {gone}).Keys == ch.participants.Keys - {gone};
      }
    }
  }

  /** Main result: a channel within its limit stays within it, under any interleaving of anyone's acts. */
  lemma {:induction false} LimitIsNeverExceeded(k: Control, acts: seq<Act>, name: string, inst: nat, limit: nat)
    requires Inv(k) && Legal(k, acts) && Limited(k, name, inst, limit) && |k.channels[name].participants| <= limit
    requires forall i | 0 <= i <= |acts| && Legal(k, acts[..i]) :: Limited(PerformAll(k, acts[..i]), name, inst, limit)
    ensures SameChannel(PerformAll(k, acts), name, inst)
            && |PerformAll(k, acts).channels[name].participants| <= limit
    decreases |acts|
  {
    if acts != [] {
      var i := |acts| - 1;
      var front := acts[..i];
      forall j | 0 <= j <= |front| && Legal(k, front[..j])
        ensures Limited(PerformAll(k, front[..j]), name, inst, limit)
      {
        assert front[..j] == acts[..j];
      }
      LimitIsNeverExceeded(k, front, name, inst, limit);
      LegalRunKeepsInv(k, front);
      assert acts[..|acts|] == acts && front[..|front|] == front && acts[..i] == front;
      ActRespectsLimit(PerformAll(k, front), acts[i], name, inst, limit);
    }
  }

  // ---- invitations ----

  /** A successful JOIN of the existing channel under this nickname. */
  predicate Admits(k: Control, a: Act, name: string, nick: string) {
    a.Enter? && a.name == name && a.fd in k.clients && k.clients[a.fd].nick == nick
  }

  /** Someone invites this nickname. */
  predicate Invites(a: Act, name: string, nick: string) {
    a.Grant? && a.name == name && a.nick == nick
  }

  function Count(b: bool): nat { if b then 1 else 0 }

  function Invited(k: Control, name: string, nick: string): nat {
    Count(name in k.channels && nick in k.channels[name].invited)
  }

  /** The instance is there, under +i. */
  predicate InviteOnly(k: Control, name: string, inst: nat) {
    SameChannel(k, name, inst) && 'i' in k.channels[name].modes
  }

  lemma ActSpendsInvitation(k: Control, a: Act, name: string, inst: nat, nick: string)
    requires Inv(k) && Allowed(k, a) && InviteOnly(k, name, inst) && SameChannel(Perform(k, a), name, inst)
    ensures Count(Admits(k, a, name, nick)) + Invited(Perform(k, a), name, nick)
         <= Invited(k, name, nick) + Count(Invites(a, name, nick))
    ensures Invites(a, name, nick) ==> a.fd in k.clients && IsOp(k, name, inst, PtrOf(k, a.fd))
  {
    hide Inv;
    ChannelEffect(k, a, name);
    if a.SetModes? { ModeBatchKeepsOk(k, a.name, a.plus, a.letters, a.args); }
    if Invites(a, name, nick) { OwnEntries(k, a.fd, name); }
  }

  /** How many acts of the run admitted the nickname, and how many invited it. */
  ghost function Admissions(k: Control, acts: seq<Act>, name: string, nick: string): nat
    requires Legal(k, acts)
    decreases |acts|
  {
    if acts == [] then 0
    else Admissions(k, acts[..|acts| - 1], name, nick)
         + Count(Admits(PerformAll(k, acts[..|acts| - 1]), acts[|acts| - 1], name, nick))
  }

  function Invitations(acts: seq<Act>, name: string, nick: string): nat
    decreases |acts|
  {
    if acts == [] then 0
    else Invitations(acts[..|acts| - 1], name, nick) + Count(Invites(acts[|acts| - 1], name, nick))
  }

  /**
   * Main result: while +i stays set, admissions under a nickname never outnumber the invitations of that nickname
   * (the one pending at the start included), and each of these was sent by an operator (ActSpendsInvitation).
   */
  lemma {:induction false} AdmissionsAreInvited(k: Control, acts: seq<Act>, name: string, inst: nat, nick: string)
    requires Inv(k) && Legal(k, acts)
    requires forall i | 0 <= i <= |acts| && Legal(k, acts[..i]) :: InviteOnly(PerformAll(k, acts[..i]), name, inst)
    ensures Admissions(k, acts, name, nick) + Invited(PerformAll(k, acts), name, nick)
         <= Invited(k, name, nick) + Invitations(acts, name, nick)
    decreases |acts|
  {
    if acts != [] {
      var i := |acts| - 1;
      var front := acts[..i];
      forall j | 0 <= j <= |front| && Legal(k, front[..j]) ensures InviteOnly(PerformAll(k, front[..j]), name, inst) {
        assert front[..j] == acts[..j];
      }
      AdmissionsAreInvited(k, front, name, inst, nick);
      LegalRunKeepsInv(k, front);
      assert acts[..|acts|] == acts && acts[..i] == front;
      ActSpendsInvitation(PerformAll(k, front), acts[i], name, inst, nick);
    }
  }

  // ---- registration ----

  /** Nothing of the handshake is undone; a registered client keeps its user and host. */
  predicate Progress(c: ClientData, d: ClientData) {
    && (c.pass ==> d.pass) && (c.nickDone ==> d.nickDone) && (c.userDone ==> d.userDone)
    && (c.registered ==> d.registered && d.user == c.user && d.host == c.host)
  }

  /** The client object with this identity is connected on fd. */
  predicate SameClient(k: Control, fd: int, id: nat) {
    fd in k.clients && k.clients[fd].id == id
  }

  lemma ActMakesProgress(k: Control, a: Act, fd: int, id: nat)
    requires Inv(k) && Allowed(k, a) && id < k.nextId
    ensures SameClient(Perform(k, a), fd, id) ==>
            SameClient(k, fd, id) && Progress(k.clients[fd], Perform(k, a).clients[fd])
  {
  }

  /** Over a run, a connected client's registration only goes forward, and its prefix follows its nickname. */
  lemma {:induction false} RegistrationIsMonotone(k: Control, acts: seq<Act>, fd: int, id: nat)
    requires Inv(k) && Legal(k, acts) && SameClient(k, fd, id) && SameClient(PerformAll(k, acts), fd, id)
    ensures Progress(k.clients[fd], PerformAll(k, acts).clients[fd])
    ensures var d := PerformAll(k, acts).clients[fd];
            k.clients[fd].registered ==> ValidNick(d.nick) && d.prefix == UserPrefix(d.nick, d.user, d.host)
    decreases |acts|
  {
    LegalRunKeepsInv(k, acts);
    assert ClientOk(PerformAll(k, acts).clients[fd]);
    if acts != [] {
      var front := acts[..|acts| - 1];
      LegalRunKeepsInv(k, front);
      NextIdGrows(k, front);
      ActMakesProgress(PerformAll(k, front), acts[|acts| - 1], fd, id);
      RegistrationIsMonotone(k, front, fd, id);
    }
  }

  // ---- keys ----

  /** The instance is there, under +k with this key. */
  predicate Keyed(k: Control, name: string, inst: nat, key: string) {
    SameChannel(k, name, inst) && 'k' in k.channels[name].modes && k.channels[name].key == key
  }

  /** Main result: over any run, whoever gets into an instance that has a key at that moment has given just this key. */
  lemma AdmissionsHaveKey(k: Control, acts: seq<Act>, i: nat, name: string, inst: nat, key: string)
    requires Legal(k, acts) && i < |acts| && Legal(k, acts[..i]) && Keyed(PerformAll(k, acts[..i]), name, inst, key)
    ensures acts[i].Enter? && acts[i].name == name ==> acts[i].key == key
  {
    PrefixIsLegal(k, acts, i);
    hide Legal, PerformAll;
  }
}
