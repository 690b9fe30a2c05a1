/**
 * JOIN with several channels stops at the first refusal and keeps what it did before: what exactly an error leaves
 * changed.
 */
module JoinErrors {
  import opened Wrappers
  import opened Text
  import opened ServerState
  import opened Commands
  import opened Tokenizing

  function KeyAt(keys: seq<string>, i: nat): string { if i < |keys| then keys[i] else "" }

  function KeysAfter(keys: seq<string>): seq<string> { if keys == [] then [] else keys[1..] }

  /** How many of the channels are entered before one refuses. */
  function Entered(k: Control, fd: int, names: seq<string>, keys: seq<string>): (n: nat)
    requires fd in k.clients
    ensures n <= |names|
    decreases |names|
  {
    if names == [] then 0
    else
      var r := JoinOne(k, fd, names[0], KeyAt(keys, 0));
      if r.error.Some? then 0 else 1 + Entered(r.ctl, fd, names[1..], KeysAfter(keys))
  }

  /** Joining this channel changes nothing: the sender is in it, and no invitation gets used up. */
  predicate Rejoins(k: Control, fd: int, name: string)
    requires fd in k.clients
  {
    name in k.channels && k.clients[fd].nick in k.channels[name].participants && 'i' !in k.channels[name].modes
  }

  /** A channel that does not exist cannot refuse, so a refusal leaves the registry as it was. */
  lemma RefusalChangesNothing(k: Control, fd: int, name: string, key: string)
    requires fd in k.clients
    ensures var r := JoinOne(k, fd, name, key);
            r.ctl.clients == k.clients && (r.error.Some? ==> r.ctl == k && name in k.channels)
  {
    hide JoinNotices;
  }

  lemma {:induction false} JoinKeepsClients(k: Control, fd: int, names: seq<string>, keys: seq<string>)
    requires fd in k.clients
    ensures var r := JoinAll(k, fd, names, keys); r.ctl.clients == k.clients && r.ctl.index == k.index
    decreases |names|
  {
    if names != [] {
      var r := JoinOne(k, fd, names[0], KeyAt(keys, 0));
      RefusalChangesNothing(k, fd, names[0], KeyAt(keys, 0));
      if r.error.None? { JoinKeepsClients(r.ctl, fd, names[1..], KeysAfter(keys)); }
    }
  }

  /**
   * A JOIN does the successful JOIN of the channels before the refusal, and throws what the refusing channel says then.
   */
  lemma {:induction false} JoinStopsAtRefusal(k: Control, fd: int, names: seq<string>, keys: seq<string>)
    requires fd in k.clients
    ensures var n, all := Entered(k, fd, names, keys), JoinAll(k, fd, names, keys);
            var before := JoinAll(k, fd, names[..n], keys);
            && before.error.None? && before.ctl == all.ctl && fd in all.ctl.clients
            && all.error == (if n < |names| then JoinOne(all.ctl, fd, names[n], KeyAt(keys, n)).error else None)
            && (all.error.Some? <==> n < |names|)
    decreases |names|
  {
    hide JoinOne;
    if names != [] {
      var r := JoinOne(k, fd, names[0], KeyAt(keys, 0));
      RefusalChangesNothing(k, fd, names[0], KeyAt(keys, 0));
      var n, rest, more := Entered(k, fd, names, keys), names[1..], KeysAfter(keys);
      if r.error.Some? {
        assert names[..0] == [];
      } else {
        JoinStopsAtRefusal(r.ctl, fd, rest, more);
        assert names[..n][0] == names[0] && names[..n][1..] == rest[..n - 1];
        assert n < |names| ==> rest[n - 1] == names[n] && KeyAt(more, n - 1) == KeyAt(keys, n);
      }
    }
  }

  /** What no JOIN takes back: channels and participants stay, invitations do not come. */
  ghost predicate Grew(m: map<string, ChannelData>, m': map<string, ChannelData>) {
    forall n | n in m ::
      && n in m' && m'[n].modes == m[n].modes && m'[n].invited <= m[n].invited
      && m[n].participants.Keys <= m'[n].participants.Keys
  }

  lemma OneJoinGrows(k: Control, fd: int, name: string, key: string)
    requires fd in k.clients
    ensures Grew(k.channels, JoinOne(k, fd, name, key).ctl.channels)
  {
    hide JoinNotices;
  }

  lemma {:induction false} JoinGrows(k: Control, fd: int, names: seq<string>, keys: seq<string>)
    requires fd in k.clients
    ensures Grew(k.channels, JoinAll(k, fd, names, keys).ctl.channels)
    decreases |names|
  {
    hide JoinOne;
    if names != [] {
      var r := JoinOne(k, fd, names[0], KeyAt(keys, 0));
      OneJoinGrows(k, fd, names[0], KeyAt(keys, 0));
      RefusalChangesNothing(k, fd, names[0], KeyAt(keys, 0));
      if r.error.None? { JoinGrows(r.ctl, fd, names[1..], KeysAfter(keys)); }
    }
  }

  /** One admission: nothing changes for a re-JOIN, and anything else cannot be taken back. */
  lemma AdmissionShows(k: Control, fd: int, name: string, key: string)
    requires fd in k.clients && JoinOne(k, fd, name, key).error.None?
    ensures var k1 := JoinOne(k, fd, name, key).ctl;
            if Rejoins(k, fd, name) then k1 == k
            else forall m: map<string, ChannelData> | Grew(k1.channels, m) :: m != k.channels
  {
    hide JoinNotices;
    var k1, nick := JoinOne(k, fd, name, key).ctl, k.clients[fd].nick;
    if Rejoins(k, fd, name) {
      assert k1.channels[name] == k.channels[name];
      assert k1.channels == k.channels;
    } else {
      assert nick in k1.channels[name].participants;
      assert 'i' in k1.channels[name].modes ==> nick !in k1.channels[name].invited;
      forall m: map<string, ChannelData> | Grew(k1.channels, m) ensures m != k.channels {
        assert name in m && nick in m[name].participants;
      }
    }
  }

  /**
   * Main result: a JOIN leaves all channels as they were iff every channel it gets to before the refusal is one the
   * sender is already in, without +i (under +i a re-JOIN needs an invitation and uses it up).
   */
  lemma {:induction false} JoinKeepsChannelsIff(k: Control, fd: int, names: seq<string>, keys: seq<string>)
    requires fd in k.clients
    ensures JoinAll(k, fd, names, keys).ctl.channels == k.channels <==>
            forall j | 0 <= j < Entered(k, fd, names, keys) :: Rejoins(k, fd, names[j])
    decreases |names|
  {
    hide JoinOne, Rejoins;
    if names != [] {
      var key, rest, more := KeyAt(keys, 0), names[1..], KeysAfter(keys);
      var r := JoinOne(k, fd, names[0], key);
      RefusalChangesNothing(k, fd, names[0], key);
      if r.error.None? {
        AdmissionShows(k, fd, names[0], key);
        JoinGrows(r.ctl, fd, rest, more);
        JoinKeepsChannelsIff(r.ctl, fd, rest, more);
        assert forall j | 1 <= j < |names| :: names[j] == rest[j - 1];
        assert forall j | 0 <= j < |rest| :: rest[j] == names[j + 1];
      }
    }
  }

  /** The JOIN command: refused as a whole, or up to the channels it entered. */
  predicate NothingNew(k: Control, fd: int, p: string)
    requires fd in k.clients
  {
    var names, keys := Select(Fields(p, ""), true), Select(Fields(p, ""), false);
    |names| < |keys| || !AllValidNames(names)
    || forall j | 0 <= j < Entered(k, fd, names, keys) :: Rejoins(k, fd, names[j])
  }

  lemma JoinErrorKeepsChannelsIff(k: Control, fd: int, p: string)
    requires fd in k.clients && Join(k, fd, p).error.Some?
    ensures Join(k, fd, p).ctl.channels == k.channels <==> NothingNew(k, fd, p)
    ensures Join(k, fd, p).ctl.index == k.index
  {
    hide JoinAll, Fields, Select, AllValidNames, Rejoins, Entered;
    var names, keys := Select(Fields(p, ""), true), Select(Fields(p, ""), false);
    JoinKeepsChannelsIff(k, fd, names, keys);
    JoinKeepsClients(k, fd, names, keys);
  }

  // ---- an input ----

  function Someone(id: nat, nick: string): ClientData {
    ClientData(id, nick, "u", "h", "r", true, true, true, true, UserPrefix(nick, "u", "h"))
  }

  /** a is in no channel, b alone in one that has a key. */
  function Keyed(a: string, b: string, name: string): Control {
    Control(3, "p", map[4 := Someone(0, a), 5 := Someone(1, b)],
            map[name := ChannelData(2, "s", "", {'k'}, map[b := Ptr(5, 1)], map[b := Ptr(5, 1)], None, {})],
            map[a := Ptr(4, 0), b := Ptr(5, 1)], 3)
  }

  function KeyedChannel(): Control { Keyed("al", "bo", "#b") }

  lemma TwoFields()
    ensures Fields("#a,#b", "") == ["#a", "#b"]
  {
    var names := ["#a", "#b"];
    assert names[1..] == ["#b"];
    assert JoinWith(names, ',') == "#a,#b";
    FieldsUndoJoin(names, ',');
  }

  lemma NamesAndKeys()
    ensures var t := Fields("#a,#b", ""); Select(t, true) == ["#a", "#b"] && Select(t, false) == []
    ensures AllValidNames(["#a", "#b"])
  {
    TwoFields();
    assert ["#a", "#b"][1..] == ["#b"] && ["#b"][1..] == [];
    assert Select(["#b"], true) == ["#b"] && Select(["#b"], false) == [];
    assert ValidChannelName("#a") && ValidChannelName("#b");
  }

  lemma NewChannelAdmits(k: Control, fd: int, name: string, key: string)
    requires fd in k.clients && name !in k.channels
    ensures var r := JoinOne(k, fd, name, key); r.error.None? && name in r.ctl.channels
  {
    hide JoinNotices;
  }

  lemma KeyIsMissing(k: Control, fd: int, name: string)
    requires fd in k.clients && name in k.channels && 'k' in k.channels[name].modes
    ensures JoinOne(k, fd, name, "").error.Some?
  {
    hide JoinNotices, Reply;
  }

  /** "JOIN #a,#b" throws for want of the key, and "#a" stays. */
  lemma RefusedJoinLeavesNewChannel()
    ensures Inv(KeyedChannel())
    ensures var k, r := KeyedChannel(), Join(KeyedChannel(), 4, "#a,#b");
            r.error.Some? && "#a" !in k.channels && "#a" in r.ctl.channels && !NothingNew(k, 4, "#a,#b")
  {
    KeyedChannelIsValid();
    NamesAndKeys();
    hide Inv, JoinOne, Fields, Select, AllValidNames, NothingNew;
    var k, rest := KeyedChannel(), ["#b"];
    NewChannelAdmits(k, 4, "#a", "");
    OneJoinGrows(k, 4, "#a", "");
    RefusalChangesNothing(k, 4, "#a", "");
    var k1 := JoinOne(k, 4, "#a", "").ctl;
    KeyIsMissing(k1, 4, "#b");
    RefusalChangesNothing(k1, 4, "#b", "");
    assert ["#a", "#b"][1..] == rest && rest[0] == "#b";
    assert JoinAll(k1, 4, rest, []) == JoinOne(k1, 4, "#b", "");
    assert JoinAll(k, 4, ["#a", "#b"], []).ctl == k1;
    JoinErrorKeepsChannelsIff(k, 4, "#a,#b");
  }

  lemma SomeoneIsOk(id: nat, nick: string)
    requires ValidNick(nick)
    ensures ClientOk(Someone(id, nick))
  {
  }

  lemma KeyedIsValid(a: string, b: string, name: string)
    requires ValidNick(a) && ValidNick(b) && a != b
    ensures Inv(Keyed(a, b, name))
  {
    SomeoneIsOk(0, a);
    SomeoneIsOk(1, b);
    hide ClientOk, ValidNick, UserPrefix;
    var k := Keyed(a, b, name);
    assert ChannelOk(k.clients, k.channels[name]);
  }

  lemma KeyedChannelIsValid()
    ensures Inv(KeyedChannel())
  {
    hide Inv;
    KeyedIsValid("al", "bo", "#b");
  }
}
