/** class Channel: membership by nickname, settings, invitations. */
module ChannelObject {
  import opened Wrappers
  import opened Ordering
  import opened ServerState
  import opened ClientObject
  import Acts
  import Commands

  function Ref(c: Client): Ptr { Ptr(c.fd, c.id) }

  function Refs(m: map<string, Client>): map<string, Ptr> { map n | n in m :: Ref(m[n]) }

  /** Every entry is an entry of one of two maps, the same object. */
  ghost predicate Drawn(m: map<string, Client>, before: map<string, Client>, source: map<string, Client>) {
    forall n | n in m :: (n in before && m[n] == before[n]) || (n in source && m[n] == source[n])
  }

  lemma OrderCovers(ch: ChannelData)
    ensures var keys := SortedNames(ch.participants.Keys);
            forall j | 0 <= j < |keys| :: keys[j] in ch.participants
  {
  }

  lemma NamesEnd(k: Control, ch: ChannelData, keys: seq<string>, names: string)
    ensures names + Commands.NamesOf(k, ch, keys[|keys|..]) == names
  {
  }

  lemma NamesStart(k: Control, ch: ChannelData, keys: seq<string>)
    requires forall j | 0 <= j < |keys| :: keys[j] in ch.participants
    ensures "" + Commands.NamesOf(k, ch, keys[0..]) == Commands.NamesOf(k, ch, keys)
  {
  }

  /** One turn of the loop of GetParticipantNameStr. */
  lemma NamesGrow(k: Control, ch: ChannelData, keys: seq<string>, i: nat, before: string, names: string, nick: string)
    requires i < |keys| && forall j | 0 <= j < |keys| :: keys[j] in ch.participants
    requires Live(k.clients, ch.participants[keys[i]]) && k.clients[ch.participants[keys[i]].fd].nick == nick
    requires names == before + (if nick in ch.operators then "@" else "") + nick + (if i + 1 != |keys| then " " else "")
    ensures before + Commands.NamesOf(k, ch, keys[i..]) == names + Commands.NamesOf(k, ch, keys[i + 1..])
  {
  }

  class Channel {
    const id: nat
    const name: string
    var key: string
    var topic: string
    var modes: set<char>
    var participants: map<string, Client>
    var operators: map<string, Client>
    var limit: Option<nat>
    var invited: set<string>

    /** The registry's view of this channel. */
    function Data(): ChannelData
      reads this
    {
      ChannelData(id, key, topic, modes, Refs(participants), Refs(operators), limit, invited)
    }

    constructor (id: nat, name: string)
      ensures this.id == id && this.name == name
      ensures key == "" && topic == "" && modes == {} && participants == map[] && operators == map[]
      ensures limit == None && invited == {}
      ensures Data() == ChannelData(id, "", "", {}, map[], map[], None, {})
    {
      this.id, this.name := id, name;
      key, topic, modes, participants, operators, limit, invited := "", "", {}, map[], map[], None, {};
    }

    predicate IsOperator(nick: string)
      reads this`operators
    {
      nick in operators
    }

    predicate IsParticipant(nick: string)
      reads this`participants
    {
      nick in participants
    }

    method AddParticipant(nick: string, client: Client)
      modifies this`participants
      ensures Data() == old(Data()).(participants := Commands.Insert(old(Data()).participants, nick, Ref(client)))
      ensures participants == if nick in old(participants) then old(participants) else old(participants)[nick := client]
    {
      if nick !in participants {
        participants := participants[nick := client];
      }
    }

    method RemoveInvited(nick: string)
      modifies this`invited
      ensures Data() == old(Data()).(invited := old(Data()).invited - {nick})
    {
      invited := invited - {nick};
    }

    method AddInvited(nick: string)
      modifies this`invited
      ensures Data() == old(Data()).(invited := old(Data()).invited + {nick})
    {
      invited := invited + {nick};
    }

    method AddOperator(nick: string, client: Client)
      modifies this`operators
      ensures Data() == old(Data()).(operators := old(Data()).operators[nick := Ref(client)])
      ensures operators == old(operators)[nick := client]
    {
      operators := operators[nick := client];
    }

    method RemoveParticipant(nick: string)
      modifies this`participants
      ensures Data() == old(Data()).(participants := old(Data()).participants - {nick})
      ensures participants == old(participants) - {nick}
    {
      participants := participants - {nick};
      assert Refs(participants) == Refs(old(participants)) - {nick};
    }

    method RemoveOperator(nick: string)
      modifies this`operators
      ensures Data() == old(Data()).(operators := old(Data()).operators - {nick})
      ensures operators == old(operators) - {nick}
    {
      operators := operators - {nick};
      assert Refs(operators) == Refs(old(operators)) - {nick};
    }

    /** removeClientFromServer's part on one channel, which is also how PART and KICK take someone out. */
    method Purge(nick: string)
      modifies this`participants, this`operators
      ensures Data() == Acts.Purged(old(Data()), nick)
      ensures participants == old(participants) - {nick} && operators == old(operators) - {nick}
    {
      ghost var ch := Data();
      if IsParticipant(nick) {
        RemoveParticipant(nick);
      }
      if IsOperator(nick) {
        RemoveOperator(nick);
      }
      assert nick !in ch.participants ==> ch.participants - {nick} == ch.participants;
      assert nick !in ch.operators ==> ch.operators - {nick} == ch.operators;
      assert nick !in old(participants) ==> old(participants) - {nick} == old(participants);
      assert nick !in old(operators) ==> old(operators) - {nick} == old(operators);
    }

    /** NICK on one channel; keys are plain nicknames, so both entries move. */
    method Rename(oldNick: string, newNick: string, client: Client)
      modifies this`participants, this`operators
      ensures Data() == Commands.Renamed(old(Data()), oldNick, newNick, Ref(client))
      ensures Drawn(participants, old(participants), map[newNick := client])
      ensures Drawn(operators, old(operators), map[newNick := client])
    {
      if IsParticipant(oldNick) {
        RemoveParticipant(oldNick);
        AddParticipant(newNick, client);
        if IsOperator(oldNick) {
          RemoveOperator(oldNick);
          AddOperator(newNick, client);
        }
      }
    }

    /** The participants are connected, under the nicknames the registry shows. */
    ghost predicate NamesReady(k: Control)
      reads this`participants, participants.Values`nickname
    {
      forall n | n in participants ::
        Live(k.clients, Ref(participants[n])) && k.clients[participants[n].fd].nick == participants[n].nickname
    }

    /** The participants' current nicknames, '@' before the operators'. */
    method GetParticipantNameStr(ghost k: Control) returns (names: string)
      requires NamesReady(k)
      ensures names == Commands.NamesLine(k, Data())
    {
      hide SortedNames, Commands.NamesOf;
      names := "";
      var keys := SortedNames(participants.Keys);
      ghost var ch := Data();
      assert ch.participants.Keys == participants.Keys;
      OrderCovers(ch);
      var i := 0;
      NamesStart(k, ch, keys);
      while i < |keys|
        invariant i <= |keys|
        invariant names + Commands.NamesOf(k, ch, keys[i..]) == Commands.NamesOf(k, ch, keys)
      {
        var nickname := participants[keys[i]].nickname;
        ghost var before := names;
        if IsOperator(nickname) {
          names := names + "@";
        }
        names := names + nickname;
        if i + 1 != |keys| {
          names := names + " ";
        }
        NamesGrow(k, ch, keys, i, before, names, nickname);
        i := i + 1;
      }
      NamesEnd(k, ch, keys, names);
    }
  }
}
