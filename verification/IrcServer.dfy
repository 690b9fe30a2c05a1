/** class IrcServer: the maps, the poll table, sending, marking and teardown, in the form the program has them. */
module IrcServerObject {
  import opened Wrappers
  import opened Ordering
  import opened ServerState
  import opened Commands
  import opened Outbound
  import opened PollTable
  import opened ClientObject
  import opened ChannelObject
  import Acts
  import Machine
  import EventLoop

  class IrcServer {
    const fd: int
    const password: string
    var fds: seq<Slot>
    var clients: map<int, Client>
    var channels: map<string, Channel>
    var nickNameClientMap: map<string, Client>
    var toRemove: set<int>
    var created: nat              // objects made so far
    var net: seq<SendResult>      // what send() will answer

    /** Objects stand under their own keys, and whoever the maps hold for a connected client is that very object. */
    ghost predicate Valid()
      reads this`clients, this`channels, this`nickNameClientMap, this`created,
            channels.Values`participants, channels.Values`operators
    {
      && (forall f | f in clients :: clients[f].fd == f && clients[f].id < created)
      && (forall n | n in channels :: channels[n].name == n && MembersOk(channels[n]))
      && EntriesOk(nickNameClientMap)
    }

    ghost predicate EntriesOk(m: map<string, Client>)
      reads this`clients, this`created
    {
      forall n | n in m ::
        m[n].id < created && (m[n].fd in clients && clients[m[n].fd].id == m[n].id ==> clients[m[n].fd] == m[n])
    }

    ghost predicate MembersOk(ch: Channel)
      reads this`clients, this`created, ch`participants, ch`operators
    {
      EntriesOk(ch.participants) && EntriesOk(ch.operators)
    }

    ghost function ClientMap(): map<int, ClientData>
      reads this`clients, clients.Values`nickname, clients.Values`username, clients.Values`realname,
            clients.Values`passDone, clients.Values`nickDone, clients.Values`userDone, clients.Values`registered,
            clients.Values`prefix
    {
      map f | f in clients :: clients[f].Data()
    }

    ghost function BufferMap(): map<int, Buffers>
      reads this`clients, clients.Values`recvBuffer, clients.Values`sendBuffer
    {
      map f | f in clients :: Buffers(clients[f].recvBuffer, clients[f].sendBuffer)
    }

    ghost function ChannelMap(): map<string, ChannelData>
      reads this`channels, channels.Values
    {
      map n | n in channels :: channels[n].Data()
    }

    /** The registry, as a value. */
    ghost function Ctl(): Control
      reads this`clients, this`channels, this`nickNameClientMap, this`created, channels.Values,
            clients.Values`nickname, clients.Values`username, clients.Values`realname,
            clients.Values`passDone, clients.Values`nickDone, clients.Values`userDone, clients.Values`registered,
            clients.Values`prefix
    {
      Control(fd, password, ClientMap(), ChannelMap(), Refs(nickNameClientMap), created)
    }

    /** The I/O side, as a value. */
    ghost function IoState(): Io
      reads this`clients, this`fds, this`toRemove, this`net, clients.Values`recvBuffer, clients.Values`sendBuffer
    {
      Io(fds, BufferMap(), toRemove, net)
    }

    ghost function Value(): Machine.State
      reads this, clients.Values, channels.Values
    {
      Machine.State(Ctl(), IoState())
    }

    constructor (fd: int, password: string)
      ensures Valid() && Value() == Machine.Start(fd, password)
    {
      this.fd, this.password := fd, password;
      fds, clients, channels, nickNameClientMap := [Slot(fd, false)], map[], map[], map[];
      toRemove, created, net := {}, 0, [];
    }

    // ---- how a change of one object shows in the values ----

    twostate lemma OneClientChanged(c: Client)
      requires old(Valid()) && clients == old(clients) && c.fd in clients && clients[c.fd] == c
      requires forall o | o in clients.Values && o != c :: o.Data() == old(o.Data())
      ensures c.fd in old(ClientMap()) && ClientMap() == old(ClientMap())[c.fd := c.Data()]
    {
      assert forall f | f in clients && f != c.fd :: clients[f] != c && clients[f] in clients.Values;
    }

    twostate lemma OneBufferChanged(c: Client)
      requires old(Valid()) && clients == old(clients) && c.fd in clients && clients[c.fd] == c
      requires forall o | o in clients.Values && o != c ::
               o.recvBuffer == old(o.recvBuffer) && o.sendBuffer == old(o.sendBuffer)
      ensures c.fd in old(BufferMap()) && BufferMap() == old(BufferMap())[c.fd := Buffers(c.recvBuffer, c.sendBuffer)]
      ensures c.recvBuffer == old(c.recvBuffer) ==>
              BufferMap() == old(BufferMap())[c.fd := old(BufferMap())[c.fd].(send := c.sendBuffer)]
      ensures c.sendBuffer == old(c.sendBuffer) ==>
              BufferMap() == old(BufferMap())[c.fd := old(BufferMap())[c.fd].(recv := c.recvBuffer)]
    {
      assert forall f | f in clients && f != c.fd :: clients[f] != c && clients[f] in clients.Values;
    }

    twostate lemma ChannelsUntouched()
      requires channels == old(channels) && forall o | o in channels.Values :: unchanged(o)
      ensures ChannelMap() == old(ChannelMap())
    {
      forall n | n in channels ensures channels[n].Data() == old(channels[n].Data()) {
        assert channels[n] in channels.Values;
      }
    }

    /** Bytes moved in or out of one client's receive buffer. */
    twostate lemma OnlyReceived(c: Client)
      requires old(Valid()) && unchanged(this) && c.fd in clients && clients[c.fd] == c
      requires unchanged(c`nickname, c`username, c`realname, c`passDone, c`nickDone, c`userDone, c`registered, c`prefix,
                 c`sendBuffer)
      requires forall o | o in clients.Values && o != c :: unchanged(o)
      requires forall o | o in channels.Values :: unchanged(o)
      ensures Valid() && Ctl() == old(Ctl())
      ensures c.fd in old(IoState()).buffers && IoState() == Received(old(IoState()), c.fd, c.recvBuffer)
    {
      hide ClientMap, BufferMap, ChannelMap;
      OneBufferChanged(c);
      ChannelsUntouched();
      assert ClientMap() == old(ClientMap());
    }

    twostate lemma OneChannelChanged(ch: Channel)
      requires old(Valid()) && ch.name in channels && channels[ch.name] == ch
      requires MembersOk(ch) && clients == old(clients) && channels == old(channels)
      requires nickNameClientMap == old(nickNameClientMap) && created == old(created)
      requires forall o | o in channels.Values && o != ch :: unchanged(o)
      ensures Valid()
      ensures ch.name in old(ChannelMap()) && ChannelMap() == old(ChannelMap())[ch.name := ch.Data()]
    {
      hide EntriesOk;
      forall n | n in channels && n != ch.name
        ensures MembersOk(channels[n]) && channels[n].Data() == old(channels[n].Data())
      {
        assert channels[n] != ch && channels[n] in channels.Values && old(MembersOk(channels[n]));
      }
      hide Channel.Data, MembersOk;
    }

    /** An edit of one client's registration data, and nothing else. */
    twostate lemma ClientEdited(c: Client)
      requires old(Valid()) && unchanged(this) && c.fd in clients && clients[c.fd] == c
      requires forall o | o in clients.Values && o != c :: unchanged(o)
      requires forall o | o in channels.Values :: unchanged(o)
      requires c.recvBuffer == old(c.recvBuffer) && c.sendBuffer == old(c.sendBuffer)
      ensures Valid() && IoState() == old(IoState())
      ensures c.fd in old(Ctl()).clients && Ctl() == old(Ctl()).(clients := old(Ctl()).clients[c.fd := c.Data()])
    {
      hide ClientMap, BufferMap, ChannelMap;
      OneClientChanged(c);
      ChannelsUntouched();
      assert BufferMap() == old(BufferMap());
    }

    /** An edit of one channel, and nothing else. */
    twostate lemma ChannelEdited(ch: Channel)
      requires old(Valid()) && unchanged(this) && ch.name in channels && channels[ch.name] == ch
      requires MembersOk(ch)
      requires forall o | o in clients.Values :: unchanged(o)
      requires forall o | o in channels.Values && o != ch :: unchanged(o)
      ensures Valid() && IoState() == old(IoState())
      ensures ch.name in old(Ctl()).channels
              && Ctl() == old(Ctl()).(channels := old(Ctl()).channels[ch.name := ch.Data()])
    {
      hide ClientMap, BufferMap, ChannelMap, MembersOk;
      OneChannelChanged(ch);
      assert ClientMap() == old(ClientMap()) && BufferMap() == old(BufferMap());
    }

    twostate lemma ClientAdded(new c: Client)
      requires c.fd !in old(clients) && clients == old(clients)[c.fd := c]
      requires forall f | f in old(clients) :: unchanged(old(clients[f]))
      ensures ClientMap() == old(ClientMap())[c.fd := c.Data()]
      ensures BufferMap() == old(BufferMap())[c.fd := Buffers(c.recvBuffer, c.sendBuffer)]
    {
      forall f | f in old(clients)
        ensures clients[f] == old(clients[f]) && clients[f].Data() == old(clients[f].Data())
        ensures clients[f].recvBuffer == old(clients[f].recvBuffer)
                && clients[f].sendBuffer == old(clients[f].sendBuffer)
      {
      }
    }

    /** Clients that come have fresh identities, so nobody gets mistaken for another. */
    twostate lemma EntriesKept(m: map<string, Client>)
      requires old(EntriesOk(m)) && created >= old(created)
      requires forall f | f in clients ::
               clients[f].id >= old(created) || (f in old(clients) && clients[f] == old(clients)[f])
      ensures EntriesOk(m)
    {
    }

    twostate lemma MembersKept()
      requires old(Valid()) && created >= old(created) && channels == old(channels)
      requires forall o: Channel | o in channels.Values :: unchanged(o`participants, o`operators)
      requires forall f | f in clients ::
               clients[f].id >= old(created) || (f in old(clients) && clients[f] == old(clients)[f])
      ensures forall n | n in channels :: channels[n].name == n && MembersOk(channels[n])
    {
      hide EntriesOk;
      forall n | n in channels ensures channels[n].name == n && MembersOk(channels[n]) {
        var ch := channels[n];
        assert ch in channels.Values && old(MembersOk(ch));
        EntriesKept(ch.participants);
        EntriesKept(ch.operators);
      }
    }

    twostate lemma ChannelAdded(new ch: Channel)
      requires old(Valid()) && clients == old(clients) && created >= old(created)
      requires channels == old(channels)[ch.name := ch] && nickNameClientMap == old(nickNameClientMap)
      requires MembersOk(ch)
      requires forall n | n in old(channels) :: unchanged(old(channels[n]))
      ensures Valid() && ChannelMap() == old(ChannelMap())[ch.name := ch.Data()]
    {
      hide EntriesOk;
      forall n | n in old(channels) && n != ch.name
        ensures channels[n].name == n && MembersOk(channels[n]) && channels[n].Data() == old(channels[n].Data())
      {
        var c := channels[n];
        assert c == old(channels[n]) && old(MembersOk(c));
        EntriesKept(c.participants);
        EntriesKept(c.operators);
      }
      EntriesKept(nickNameClientMap);
      hide Channel.Data, MembersOk;
    }

    twostate lemma ClientRemoved(c: Client)
      requires clients == old(clients) - {c.fd}
      requires forall o | o in old(clients.Values) :: unchanged(o)
      ensures ClientMap() == old(ClientMap()) - {c.fd} && BufferMap() == old(BufferMap()) - {c.fd}
    {
      assert forall f | f in clients :: clients[f] in old(clients.Values);
    }

    // ---- the poll table ----

    lemma FirstSlotIs(s: seq<Slot>, clientFd: int, i: nat)
      requires i <= |s| && (forall j | 0 <= j < i :: s[j].fd != clientFd) && (i < |s| ==> s[i].fd == clientFd)
      ensures FirstSlot(s, clientFd) == i
    {
    }

    /** The search that every change of the table starts with. */
    method SlotOf(clientFd: int) returns (i: nat)
      ensures i == FirstSlot(fds, clientFd)
    {
      i := 0;
      while i < |fds| && fds[i].fd != clientFd
        invariant i <= |fds| && forall j | 0 <= j < i :: fds[j].fd != clientFd
      {
        i := i + 1;
      }
      FirstSlotIs(fds, clientFd, i);
    }

    method EnablePollOutEvent(clientFd: int)
      requires Valid()
      modifies this`fds
      ensures Valid() && Ctl() == old(Ctl())
      ensures IoState() == old(IoState()).(fds := SetPollOut(old(fds), clientFd, true))
    {
      hide Valid, Ctl, BufferMap;
      var i := SlotOf(clientFd);
      if i < |fds| {
        fds := fds[i := fds[i].(pollOut := true)];
      }
    }

    method DisablePollOutEvent(clientFd: int)
      requires Valid()
      modifies this`fds
      ensures Valid() && Ctl() == old(Ctl())
      ensures IoState() == old(IoState()).(fds := SetPollOut(old(fds), clientFd, false))
    {
      hide Valid, Ctl, BufferMap;
      var i := SlotOf(clientFd);
      if i < |fds| {
        fds := fds[i := fds[i].(pollOut := false)];
      }
    }

    method VoidSlot(clientFd: int)
      requires Valid()
      modifies this`fds
      ensures Valid() && Ctl() == old(Ctl()) && fds == Void(old(fds), clientFd)
      ensures IoState() == old(IoState()).(fds := Void(old(fds), clientFd))
    {
      hide Valid, Ctl, BufferMap;
      var i := SlotOf(clientFd);
      if i < |fds| {
        fds := fds[i := fds[i].(fd := -1)];
      }
    }

    // ---- sending and marking ----

    /** One call of send(). */
    method Send() returns (r: SendResult)
      requires Valid()
      modifies this`net
      ensures Valid() && Ctl() == old(Ctl()) && r == Answer(old(IoState()))
      ensures IoState() == old(IoState()).(net := AfterAnswer(old(net)))
      ensures r == (if old(net) == [] then WouldBlock else old(net)[0]) && net == AfterAnswer(old(net))
    {
      if net == [] {
        r := WouldBlock;
      } else {
        r := net[0];
        net := net[1..];
      }
    }

    method MarkClientForRemoval(clientFd: int)
      requires Valid()
      modifies this`toRemove, this`fds
      ensures Valid() && Ctl() == old(Ctl()) && IoState() == Mark(old(IoState()), clientFd)
    {
      if clientFd !in clients || clientFd in toRemove {
        return;
      }
      toRemove := toRemove + {clientFd};
      VoidSlot(clientFd);
    }

    /** The message stays in the send buffer, and the client gets polled for writing. */
    method Queue(client: Client, data: string)
      requires Valid() && client.fd in clients && clients[client.fd] == client
      modifies this`fds, client`sendBuffer
      ensures Valid() && Ctl() == old(Ctl())
      ensures var io := old(IoState());
              && client.fd in io.buffers
              && IoState() == io.(fds := SetPollOut(io.fds, client.fd, true),
                                  buffers := io.buffers[client.fd :=
                                      io.buffers[client.fd].(send := io.buffers[client.fd].send + data)])
    {
      hide Valid, Ctl, BufferMap, SetPollOut;
      IsConnected(client.fd);
      client.AppendToSendBuffer(data);
      OneBufferChanged(client);
      EnablePollOutEvent(client.fd);
    }

    /** Bytes the kernel has taken leave the send buffer. */
    method ClearSent(client: Client, count: nat)
      requires Valid() && client.fd in clients && clients[client.fd] == client
      modifies client`sendBuffer
      ensures Valid() && Ctl() == old(Ctl())
      ensures var io := old(IoState());
              && client.fd in io.buffers
              && IoState() == io.(buffers := io.buffers[client.fd := io.buffers[client.fd].(
                                    send := if count <= |io.buffers[client.fd].send| then
                                        io.buffers[client.fd].send[count..] else "")])
    {
      hide Valid, Ctl, BufferMap;
      IsConnected(client.fd);
      client.ClearSendBuffer(count);
      OneBufferChanged(client);
    }

    method CastMsg(clientFd: int, msg: string)
      requires Valid()
      modifies this`fds, this`toRemove, this`net, clients.Values`sendBuffer
      ensures Valid() && Ctl() == old(Ctl()) && IoState() == PollTable.CastMsg(old(IoState()), clientFd, msg)
    {
      hide Valid, Ctl, BufferMap, Mark, SetPollOut, FirstSlot;
      KeysAgree();
      if clientFd !in clients {
        return;
      }
      var client := clients[clientFd];
      IsConnected(clientFd);
      var toSend := client.sendBuffer + msg;
      var r := Send();
      match r {
        case WouldBlock =>
          Queue(client, msg);
        case PeerGone =>
          SameBuffer(IoState(), clientFd);
          MarkClientForRemoval(clientFd);
        case OtherError =>
          SameBuffer(IoState(), clientFd);
        case Sent(_) =>
          var sendLen := Taken(r, |toSend|);
          if sendLen < |msg| {
            Queue(client, toSend[sendLen..]);
          } else {
            ClearSent(client, sendLen);
          }
      }
    }

    lemma SameBuffer(io: Io, clientFd: int)
      requires clientFd in io.buffers
      ensures io.buffers[clientFd := io.buffers[clientFd].(send := io.buffers[clientFd].send)] == io.buffers
    {
    }

    lemma KeysAgree()
      ensures ClientMap().Keys == clients.Keys && BufferMap().Keys == clients.Keys && ChannelMap().Keys == channels.Keys
      ensures Ctl().clients.Keys == clients.Keys && Ctl().channels.Keys == channels.Keys
              && IoState().buffers.Keys == clients.Keys
      ensures IoState().toRemove == toRemove && IoState().fds == fds && IoState().net == net && Ctl().serverFd == fd
    {
    }

    lemma SameFds()
      ensures IoState().buffers.Keys == clients.Keys && IoState().fds == fds
    {
    }

    lemma SameNames()
      ensures Ctl().channels.Keys == channels.Keys
    {
    }

    lemma IsConnected(clientFd: int)
      requires Valid() && clientFd in clients
      ensures clients[clientFd].fd == clientFd && clients[clientFd] in clients.Values
      ensures clientFd in ClientMap() && ClientMap()[clientFd] == clients[clientFd].Data()
      ensures clientFd in BufferMap()
              && BufferMap()[clientFd] == Buffers(clients[clientFd].recvBuffer, clients[clientFd].sendBuffer)
      ensures IoState().buffers == BufferMap()
    {
    }

    /** The registry's view of a connected client. */
    lemma InRegistry(clientFd: int)
      requires Valid() && clientFd in clients
      ensures clients[clientFd].fd == clientFd && clients[clientFd] in clients.Values
      ensures clientFd in Ctl().clients && Ctl().clients[clientFd] == clients[clientFd].Data()
      ensures PtrOf(Ctl(), clientFd) == Ref(clients[clientFd])
      ensures Ctl().password == password
    {
    }

    lemma DrawnIsOk(m: map<string, Client>, before: map<string, Client>, source: map<string, Client>)
      requires EntriesOk(before) && EntriesOk(source) && Drawn(m, before, source)
      ensures EntriesOk(m)
    {
    }

    lemma IsEntry(nick: string, client: Client)
      requires Valid() && client.fd in clients && clients[client.fd] == client
      ensures EntriesOk(map[nick := client])
    {
    }

    lemma IsListed(name: string)
      requires Valid() && name in channels
      ensures channels[name].name == name && channels[name] in channels.Values && MembersOk(channels[name])
      ensures name in ChannelMap() && ChannelMap()[name] == channels[name].Data()
      ensures name in Ctl().channels && Ctl().channels[name] == channels[name].Data()
    {
    }

    /**
     * One object per client: a participant, its operator entry and its index entry are the object in the client map.
     */
    lemma SameObjects(ch: Channel, n: string)
      requires Valid() && Inv(Ctl()) && ch.name in channels && channels[ch.name] == ch && n in ch.participants
      ensures var client := ch.participants[n];
              && client.fd in clients && client == clients[client.fd] && client.nickname == n
              && n in nickNameClientMap && client == nickNameClientMap[n]
              && (n in ch.operators ==> client == ch.operators[n])
    {
      var d := Ctl().channels[ch.name];
      assert ChannelOk(Ctl().clients, d) && Holds(Ctl().clients, n, d.participants[n]);
      IndexFindsParticipants(Ctl(), ch.name, n);
      assert n in Refs(nickNameClientMap) && (n in ch.operators ==> d.operators[n] == d.participants[n]);
    }

    /** Every nickname in use is indexed with the very object that uses it. */
    lemma IndexHoldsClients(f: int)
      requires Valid() && Inv(Ctl()) && f in clients && clients[f].nickname != ""
      ensures clients[f].nickname in nickNameClientMap && nickNameClientMap[clients[f].nickname] == clients[f]
    {
      assert Ctl().clients[f] == clients[f].Data();
      assert clients[f].nickname in Refs(nickNameClientMap);
    }

    /** What +o needs: its lookup always hits. */
    lemma ParticipantsAreIndexed(ch: Channel)
      requires Valid() && Inv(Ctl()) && ch.name in channels && channels[ch.name] == ch
      ensures forall n | n in ch.participants :: n in nickNameClientMap
      ensures Ctl().index == Refs(nickNameClientMap)
    {
      IsListed(ch.name);
      forall n | n in ch.participants ensures n in nickNameClientMap {
        assert n in Ctl().channels[ch.name].participants;
        IndexFindsParticipants(Ctl(), ch.name, n);
        assert n in Refs(nickNameClientMap);
      }
    }

    lemma NamesAreCurrent(ch: Channel)
      requires Valid() && Inv(Ctl()) && ch.name in channels && channels[ch.name] == ch
      ensures ch.NamesReady(Ctl()) && ('l' in ch.modes ==> ch.limit.Some?)
    {
      var d := Ctl().channels[ch.name];
      assert ChannelOk(Ctl().clients, d);
      forall n | n in ch.participants
        ensures Live(Ctl().clients, Ref(ch.participants[n]))
        ensures Ctl().clients[ch.participants[n].fd].nick == ch.participants[n].nickname
      {
        assert Holds(Ctl().clients, n, d.participants[n]);
      }
    }

    /** To a channel's participants (except one), or to everyone when there is no channel. */
    method BroadcastMsg(message: string, channel: Channel?, senderFd: int)
      requires Valid()
      modifies this`fds, this`toRemove, this`net, clients.Values`sendBuffer
      ensures Valid() && Ctl() == old(Ctl())
      ensures IoState() == Deliver(old(IoState()),
                if channel != null then Broadcast(channel.Data(), message, senderFd)
                else TellFds(SortedFds(clients.Keys), message))
    {
      if channel != null {
        BroadcastToChannel(message, channel, senderFd);
      } else {
        BroadcastToAll(message);
      }
    }

    method BroadcastToChannel(message: string, channel: Channel, senderFd: int)
      requires Valid()
      modifies this`fds, this`toRemove, this`net, clients.Values`sendBuffer
      ensures Valid() && Ctl() == old(Ctl())
      ensures IoState() == Deliver(old(IoState()), Broadcast(channel.Data(), message, senderFd))
    {
      hide Valid, Ctl, IoState, SortedNames, TellMembers, Deliver, PollTable.CastMsg;
      var names := SortedNames(channel.participants.Keys);
      ghost var ch := channel.Data();
      assert ch.participants.Keys == channel.participants.Keys;
      OrderCovers(ch);
      var i := 0;
      while i < |names|
        invariant i <= |names| && Valid() && Ctl() == old(Ctl())
        invariant Deliver(IoState(), TellMembers(ch, names[i..], message, senderFd))
               == Deliver(old(IoState()), TellMembers(ch, names[0..], message, senderFd))
      {
        var receiver := channel.participants[names[i]];
        TellOneMember(IoState(), ch, names, i, message, senderFd);
        if senderFd == -1 || receiver.fd != senderFd {
          CastMsg(receiver.fd, message);
        }
        i := i + 1;
      }
      TellNoMember(IoState(), ch, names, message, senderFd);
    }

    lemma TellOneMember(io: Io, ch: ChannelData, names: seq<string>, i: nat, msg: string, except: int)
      requires i < |names| && forall j | 0 <= j < |names| :: names[j] in ch.participants
      ensures var f := ch.participants[names[i]].fd;
              Deliver(io, TellMembers(ch, names[i..], msg, except)) ==
              Deliver(if except != -1 && f == except then io else PollTable.CastMsg(io, f, msg),
                      TellMembers(ch, names[i + 1..], msg, except))
    {
      hide PollTable.CastMsg;
      var f := ch.participants[names[i]].fd;
      var rest := TellMembers(ch, names[i + 1..], msg, except);
      assert names[i..][0] == names[i] && names[i..][1..] == names[i + 1..];
      if except != -1 && f == except {
        assert TellMembers(ch, names[i..], msg, except) == rest;
      } else {
        var all := [Tell(f, msg)] + rest;
        assert TellMembers(ch, names[i..], msg, except) == all && all[0] == Tell(f, msg) && all[1..] == rest;
      }
    }

    lemma TellNoMember(io: Io, ch: ChannelData, names: seq<string>, msg: string, except: int)
      requires forall j | 0 <= j < |names| :: names[j] in ch.participants
      ensures Deliver(io, TellMembers(ch, names[|names|..], msg, except)) == io
      ensures names[0..] == names
    {
    }

    method BroadcastToAll(message: string)
      requires Valid()
      modifies this`fds, this`toRemove, this`net, clients.Values`sendBuffer
      ensures Valid() && Ctl() == old(Ctl())
      ensures IoState() == Deliver(old(IoState()), TellFds(SortedFds(clients.Keys), message))
    {
      hide Valid, Ctl, IoState, SortedFds, TellFds, Deliver, PollTable.CastMsg;
      var all := SortedFds(clients.Keys);
      var i := 0;
      while i < |all|
        invariant i <= |all| && Valid() && Ctl() == old(Ctl())
        invariant Deliver(IoState(), TellFds(all[i..], message)) == Deliver(old(IoState()), TellFds(all[0..], message))
      {
        TellOneFd(IoState(), all, i, message);
        CastMsg(all[i], message);
        i := i + 1;
      }
      TellNoFd(IoState(), all, message);
    }

    lemma TellOneFd(io: Io, all: seq<int>, i: nat, msg: string)
      requires i < |all|
      ensures Deliver(io, TellFds(all[i..], msg))
              == Deliver(PollTable.CastMsg(io, all[i], msg), TellFds(all[i + 1..], msg))
    {
    }

    lemma TellNoFd(io: Io, all: seq<int>, msg: string)
      ensures Deliver(io, TellFds(all[|all|..], msg)) == io && all[0..] == all
    {
    }

    // ---- lookups ----

    method GetClient(clientFd: int) returns (client: Client?)
      ensures client != null <==> clientFd in clients
      ensures client != null ==> client == clients[clientFd]
    {
      client := if clientFd in clients then clients[clientFd] else null;
    }

    /** The linear scan over all clients. */
    method GetClientByNick(nickname: string) returns (client: Client?)
      requires Valid()
      ensures match FindNick(Ctl().clients, nickname)
              case None => client == null
              case Some(f) => f in clients && client == clients[f]
    {
      hide SortedFds, Valid, BufferMap, ChannelMap, FindNickIn;
      KeysAgree();
      var all := SortedFds(clients.Keys);
      var i := 0;
      assert all[0..] == all;
      while i < |all|
        invariant i <= |all|
        invariant forall j | i <= j < |all| :: all[j] in clients
        invariant FindNickIn(ClientMap(), all, nickname) == FindNickIn(ClientMap(), all[i..], nickname)
      {
        ScanOne(ClientMap(), all, i, nickname);
        IsConnected(all[i]);
        if clients[all[i]].nickname == nickname {
          return clients[all[i]];
        }
        i := i + 1;
      }
      ScanNone(ClientMap(), all, nickname);
      return null;
    }

    lemma ScanOne(m: map<int, ClientData>, all: seq<int>, i: nat, nick: string)
      requires i < |all| && forall j | i <= j < |all| :: all[j] in m
      ensures FindNickIn(m, all[i..], nick) == if m[all[i]].nick == nick then Some(all[i])
              else FindNickIn(m, all[i + 1..], nick)
    {
    }

    lemma ScanNone(m: map<int, ClientData>, all: seq<int>, nick: string)
      ensures FindNickIn(m, all[|all|..], nick) == None
    {
    }

    // ---- bookkeeping of the maps ----

    method UpdateClients(client: Client)
      requires Valid() && client.fd in clients && clients[client.fd] == client
      modifies this`clients
      ensures Valid() && clients == old(clients) && Value() == old(Value())
    {
      var others := clients - {client.fd};
      clients := others[client.fd := client];
    }

    method UpdateNickNameClientMap(oldNick: string, newNick: string, client: Client)
      requires Valid() && client.fd in clients && clients[client.fd] == client
      modifies this`nickNameClientMap
      ensures Valid() && IoState() == old(IoState())
      ensures Ctl() == old(Ctl()).(index := (old(Ctl()).index - {oldNick})[newNick := Ref(client)])
    {
      hide ClientMap, ChannelMap, BufferMap;
      var others := nickNameClientMap - {oldNick};
      nickNameClientMap := others[newNick := client];
    }

    method AddClientByNickname(nickname: string, client: Client)
      requires Valid() && client.fd in clients && clients[client.fd] == client
      modifies this`nickNameClientMap
      ensures Valid() && IoState() == old(IoState())
      ensures Ctl() == old(Ctl()).(index := old(Ctl()).index[nickname := Ref(client)])
    {
      hide ClientMap, ChannelMap, BufferMap;
      nickNameClientMap := nickNameClientMap[nickname := client];
    }

    method SetChannels(channelName: string, key: string, mode: Option<char>)
      requires Valid()
      modifies this`channels, this`created
      ensures Valid() && channelName in channels && fresh(channels[channelName])
      ensures channels == old(channels)[channelName := channels[channelName]] && IoState() == old(IoState())
      ensures channels[channelName].participants == map[] && channels[channelName].operators == map[]
      ensures var k := old(Ctl());
              Ctl() == k.(nextId := k.nextId + 1, channels := k.channels[channelName := ChannelData(
                k.nextId, key, "", match mode case None => {} case Some(m) => {m}, map[], map[], None, {})])
    {
      hide ClientMap, BufferMap, ChannelMap;
      var ch := NewChannel(channelName, key, mode);
      created := created + 1;
      channels := channels[channelName := ch];
      ChannelAdded(ch);
    }

    method NewChannel(channelName: string, key: string, mode: Option<char>) returns (ch: Channel)
      ensures fresh(ch) && ch.name == channelName && ch.participants == map[] && ch.operators == map[]
      ensures ch.Data() == ChannelData(
                created, key, "", match mode case None => {} case Some(m) => {m}, map[], map[], None, {})
    {
      ch := new Channel(created, channelName);
      if key != "" {
        ch.key := key;
      }
      if mode.Some? {
        ch.modes := ch.modes + {mode.value};
      }
    }

    method RemoveChannel(channelName: string)
      requires Valid()
      modifies this`channels
      ensures Valid() && channels == old(channels) - {channelName} && IoState() == old(IoState())
      ensures Ctl() == old(Ctl()).(channels := old(Ctl()).channels - {channelName})
    {
      hide ClientMap, BufferMap;
      channels := channels - {channelName};
    }

    method RenameInChannel(ch: Channel, oldNick: string, newNick: string, client: Client)
      requires Valid() && ch.name in channels && channels[ch.name] == ch
      requires client.fd in clients && clients[client.fd] == client
      modifies ch`participants, ch`operators
      ensures Valid() && IoState() == old(IoState()) && ch.name in old(Ctl()).channels
      ensures var k := old(Ctl());
              Ctl() == k.(
                channels := k.channels[ch.name := Renamed(k.channels[ch.name], oldNick, newNick, Ref(client))])
    {
      hide Valid, Ctl, IoState, Renamed, Drawn, EntriesOk;
      IsListed(ch.name);
      InRegistry(client.fd);
      ghost var participants, operators, source := ch.participants, ch.operators, map[newNick := client];
      IsEntry(newNick, client);
      ch.Rename(oldNick, newNick, client);
      DrawnIsOk(ch.participants, participants, source);
      DrawnIsOk(ch.operators, operators, source);
      ChannelEdited(ch);
    }

    // ---- arrivals ----

    /** acceptClient once accept() has given a descriptor: false when the server is full. */
    method AcceptClient(clientFd: int, host: string) returns (ok: bool)
      requires Valid() && clientFd !in clients
      modifies this`fds, this`clients, this`created
      ensures Valid()
      ensures ok <==> |old(fds)| - 1 < MAX_CLIENTS
      ensures Value() == Machine.Admit(old(Value()), clientFd, host)
      ensures channels == old(channels) && fresh(clients.Values - old(clients.Values))
    {
      hide Valid, Ctl, BufferMap;
      if |fds| - 1 >= MAX_CLIENTS {
        return false;
      }
      fds := fds + [Slot(clientFd, false)];
      AddClient(clientFd, host);
      return true;
    }

    method AddClient(clientFd: int, host: string)
      requires Valid() && clientFd !in clients
      modifies this`clients, this`created
      ensures Valid() && fresh(clients.Values - old(clients.Values))
      ensures Ctl() == Acts.Connected(old(Ctl()), clientFd, host)
      ensures IoState() == old(IoState()).(buffers := old(IoState()).buffers[clientFd := Buffers("", "")])
    {
      hide ClientMap, BufferMap, ChannelMap, EntriesOk, MembersOk;
      var newClient := new Client(clientFd, created, host);
      created := created + 1;
      clients := clients[clientFd := newClient];
      ClientAdded(newClient);
      MembersKept();
      EntriesKept(nickNameClientMap);
    }

    // ---- teardown ----

    /** The only place a client object goes: out of every channel, both maps, and the table. */
    method RemoveClientFromServer(client: Client)
      requires Valid() && client.fd in clients && clients[client.fd] == client
      modifies this`clients, this`nickNameClientMap, this`fds, channels.Values`participants, channels.Values`operators
      ensures Valid() && channels == old(channels) && clients == old(clients) - {client.fd}
      ensures Ctl() == Acts.Disconnected(old(Ctl()), client.fd)
      ensures IoState() == old(IoState()).(buffers := old(IoState()).buffers - {client.fd},
                                               fds := Void(old(fds), client.fd))
    {
      hide Valid, Void, Ctl, IoState, Acts.Purged;
      InRegistry(client.fd);
      var nick := client.nickname;
      PurgeChannels(nick);
      ForgetClient(client);
      VoidSlot(client.fd);
    }

    /** Out of both maps; the object goes with the first. */
    method ForgetClient(client: Client)
      requires Valid() && client.fd in clients && clients[client.fd] == client
      modifies this`clients, this`nickNameClientMap
      ensures Valid() && clients == old(clients) - {client.fd}
      ensures Ctl() == old(Ctl()).(clients := old(Ctl()).clients - {client.fd},
                                       index := old(Ctl()).index - {client.nickname})
      ensures IoState() == old(IoState()).(buffers := old(IoState()).buffers - {client.fd})
    {
      hide ClientMap, BufferMap, ChannelMap, MembersOk;
      clients := clients - {client.fd};
      MembersKept();
      nickNameClientMap := nickNameClientMap - {client.nickname};
      ClientRemoved(client);
      assert Refs(nickNameClientMap) == Refs(old(nickNameClientMap)) - {client.nickname};
    }

    method PurgeChannel(ch: Channel, nick: string)
      requires Valid() && ch.name in channels && channels[ch.name] == ch
      modifies ch`participants, ch`operators
      ensures Valid()
      ensures ch.name in old(ChannelMap())
              && ChannelMap() == old(ChannelMap())[ch.name := Acts.Purged(old(ChannelMap())[ch.name], nick)]
    {
      ch.Purge(nick);
      OneChannelChanged(ch);
    }

    method PurgeChannels(nick: string)
      requires Valid()
      modifies channels.Values`participants, channels.Values`operators
      ensures Valid() && IoState() == old(IoState())
      ensures Ctl() == old(Ctl()).(
              channels := map n | n in old(Ctl()).channels :: Acts.Purged(old(Ctl()).channels[n], nick))
    {
      hide Valid, ClientMap, BufferMap, ChannelMap, Acts.Purged;
      PurgeEach(nick);
    }

    method PurgeEach(nick: string)
      requires Valid()
      modifies channels.Values`participants, channels.Values`operators
      ensures Valid() && ChannelMap() == map n | n in old(ChannelMap()) :: Acts.Purged(old(ChannelMap())[n], nick)
    {
      hide Valid, SortedNames, ChannelMap, Acts.Purged;
      KeysAgree();
      var names := SortedNames(channels.Keys);
      ghost var before := ChannelMap();
      var i := 0;
      while i < |names|
        invariant i <= |names| && Valid() && ChannelMap() == PartlyPurged(before, names[..i], nick)
      {
        PurgedMore(before, names, i, nick);
        IsListed(names[i]);
        PurgeChannel(channels[names[i]], nick);
        i := i + 1;
      }
      assert names[..i] == names;
    }

    lemma PurgedMore(m: map<string, ChannelData>, names: seq<string>, i: nat, nick: string)
      requires i < |names| && names[i] in m
      ensures var p := PartlyPurged(m, names[..i], nick);
              p[names[i] := Acts.Purged(p[names[i]], nick)] == PartlyPurged(m, names[..i + 1], nick)
    {
      assert names[..i + 1] == names[..i] + [names[i]];
      PurgedTwice(m[names[i]], nick);
    }

    ghost function PartlyPurged(m: map<string, ChannelData>, done: seq<string>, nick: string)
      : map<string, ChannelData>
    {
      map n | n in m :: if n in done then Acts.Purged(m[n], nick) else m[n]
    }

    lemma PurgedTwice(ch: ChannelData, nick: string)
      ensures Acts.Purged(Acts.Purged(ch, nick), nick) == Acts.Purged(ch, nick)
    {
    }

    /** cleanupMarkedClients, the only caller of RemoveClientFromServer. */
    method CleanupMarkedClients()
      requires Valid() && Machine.StateInv(Value())
      modifies this`clients, this`nickNameClientMap, this`fds, this`toRemove,
               channels.Values`participants, channels.Values`operators
      ensures Valid() && channels == old(channels)
      ensures Value() == Machine.Clean(old(Value()))
    {
      hide Compact, Valid, Ctl, IoState, Machine.StateInv, Machine.TearDown;
      KeysAgree();
      TearDownMarked();
      Compress();
    }

    /** Nobody is marked any more, and the -1 slots go. */
    method Compress()
      requires Valid()
      modifies this`fds, this`toRemove
      ensures Valid() && Ctl() == old(Ctl())
      ensures IoState() == old(IoState()).(fds := Compact(old(IoState()).fds), toRemove := {})
    {
      hide Compact, Valid, Ctl, BufferMap;
      toRemove := {};
      CompactFds();
    }

    method TearDownMarked()
      requires Valid() && Machine.StateInv(Value())
      modifies this`clients, this`nickNameClientMap, this`fds, channels.Values`participants, channels.Values`operators
      ensures Valid() && channels == old(channels)
      ensures Ctl() == Machine.TearDown(old(Ctl()), SortedFds(toRemove))
      ensures IoState() == old(IoState()).(buffers := old(IoState()).buffers - toRemove)
    {
      hide SortedFds, Valid, Void, ClientMap, BufferMap, ChannelMap, Machine.TearDown, Machine.StateInv,
           Acts.Disconnected;
      hide FirstOf;
      var marked := SortedFds(toRemove);
      ghost var k, io := Ctl(), IoState();
      MarkedHaveNoSlot();
      Untouched(k, io, marked);
      var i := 0;
      while i < |marked|
        invariant i <= |marked| && Valid() && channels == old(channels) && fds == old(fds)
        invariant Machine.TearDown(Ctl(), marked[i..]) == Machine.TearDown(k, marked)
        invariant IoState() == io.(buffers := io.buffers - FirstOf(marked, i))
      {
        TearDownOne(Ctl(), io.buffers, marked, i);
        TearDownClient(marked[i]);
        i := i + 1;
      }
      AllTornDown(Ctl(), toRemove);
    }

    /** A marked client has no slot any more, so its teardown leaves the table alone. */
    method TearDownClient(clientFd: int)
      requires Valid() && Void(fds, clientFd) == fds
      modifies this`clients, this`nickNameClientMap, this`fds, channels.Values`participants, channels.Values`operators
      ensures Valid() && channels == old(channels) && fds == old(fds)
      ensures Ctl() == if clientFd in old(Ctl()).clients then Acts.Disconnected(old(Ctl()), clientFd) else old(Ctl())
      ensures IoState() == old(IoState()).(buffers := old(IoState()).buffers - {clientFd})
    {
      hide Valid, Void, ClientMap, BufferMap, ChannelMap, Acts.Disconnected;
      KeysAgree();
      var client := GetClient(clientFd);
      if client != null {
        IsConnected(clientFd);
        RemoveClientFromServer(client);
      } else {
        assert IoState().buffers - {clientFd} == IoState().buffers;
      }
    }

    ghost function FirstOf(s: seq<int>, n: nat): set<int>
      requires n <= |s|
    {
      set j | 0 <= j < n :: s[j]
    }

    lemma MarkedHaveNoSlot()
      requires Machine.StateInv(Value())
      ensures forall f | f in toRemove :: Void(fds, f) == fds
    {
      TableMeans(IoState(), fd);
    }

    lemma Untouched(k: Control, io: Io, marked: seq<int>)
      ensures marked[0..] == marked && io.buffers - FirstOf(marked, 0) == io.buffers
    {
    }

    lemma TearDownOne(k: Control, buffers: map<int, Buffers>, marked: seq<int>, i: nat)
      requires i < |marked|
      ensures Machine.TearDown(k, marked[i..]) ==
              Machine.TearDown(if marked[i] in k.clients then Acts.Disconnected(k, marked[i]) else k, marked[i + 1..])
      ensures buffers - FirstOf(marked, i + 1) == (buffers - FirstOf(marked, i)) - {marked[i]}
    {
    }

    lemma AllTornDown(k: Control, all: set<int>)
      ensures var marked := SortedFds(all);
              Machine.TearDown(k, marked[|marked|..]) == k && FirstOf(marked, |marked|) == all
    {
    }

    /** Erases the -1 slots in place. */
    method CompactFds()
      modifies this`fds
      ensures fds == Compact(old(fds))
    {
      var i := 0;
      while i < |fds|
        invariant i <= |fds| && fds[..i] + Compact(fds[i..]) == Compact(old(fds))
        decreases |fds| - i
      {
        CompactOne(fds, i);
        if fds[i].fd == -1 {
          fds := fds[..i] + fds[i + 1..];
        } else {
          i := i + 1;
        }
      }
    }

    lemma CompactOne(s: seq<Slot>, i: nat)
      requires i < |s|
      ensures s[i].fd == -1 ==>
                s[..i] + Compact(s[i..]) == (s[..i] + s[i + 1..])[..i] + Compact((s[..i] + s[i + 1..])[i..])
      ensures s[i].fd != -1 ==> s[..i] + Compact(s[i..]) == s[..i + 1] + Compact(s[i + 1..])
    {
    }

    // ---- writing, timeouts ----

    /** Offers the pending bytes to send(); false when the connection is beyond repair. */
    method SendPending(client: Client) returns (ok: bool)
      requires Valid() && client.fd in clients && clients[client.fd] == client
      modifies this`net, client`sendBuffer
      ensures Valid() && Ctl() == old(Ctl())
      ensures var io, r, f := old(IoState()), Answer(old(IoState())), client.fd;
              && f in io.buffers && ok == !(r.PeerGone? || r.OtherError?)
              && IoState() == io.(net := AfterAnswer(io.net),
                                  buffers := io.buffers[f := io.buffers[f].(send := Flush(io.buffers[f].send, r))])
    {
      hide Valid, Ctl, BufferMap;
      IsConnected(client.fd);
      SameBuffer(IoState(), client.fd);
      var r := Send();
      if r.Sent? {
        ClearSent(client, Taken(r, |client.sendBuffer|));
      } else {
        assert Flush(client.sendBuffer, r) == client.sendBuffer;
      }
      return !(r.PeerGone? || r.OtherError?);
    }

    /** processClientWrite; false asks for the client's removal. */
    method ProcessClientWrite(clientFd: int) returns (ok: bool)
      requires Valid()
      modifies this`fds, this`net, clients.Values`sendBuffer
      ensures Valid() && Ctl() == old(Ctl())
      ensures clientFd !in old(IoState()).buffers ==> !ok && IoState() == old(IoState())
      ensures clientFd in old(IoState()).buffers ==> (IoState(), ok) == FlushOut(old(IoState()), clientFd)
    {
      hide Valid, Ctl, IoState, ClientMap, BufferMap, Flush, FlushOut, SetPollOut;
      SameFds();
      var client := GetClient(clientFd);
      if client == null {
        return false;
      }
      IsConnected(clientFd);
      FlushInSteps(IoState(), clientFd);
      if client.sendBuffer != "" {
        ok := SendPending(client);
        IsConnected(clientFd);
        if !ok {
          return false;
        }
      }
      if client.sendBuffer == "" {
        DisablePollOutEvent(clientFd);
      }
      return true;
    }

    lemma FlushInSteps(io: Io, f: int)
      requires f in io.buffers
      ensures var buf, r := io.buffers[f].send, Answer(io);
              var io1 := io.(net := AfterAnswer(io.net),
                             buffers := io.buffers[f := io.buffers[f].(send := Flush(buf, r))]);
              FlushOut(io, f) ==
              if buf == "" then (io.(fds := SetPollOut(io.fds, f, false)), true)
              else if r.PeerGone? || r.OtherError? then (io1, false)
              else if Flush(buf, r) == "" then (io1.(fds := SetPollOut(io1.fds, f, false)), true)
              else (io1, true)
    {
    }

    /** Everyone in the given order is marked: what checkPingTimeOut does with the clients it collected. */
    method MarkClients(timedOut: seq<int>)
      requires Valid() && Machine.StateInv(Value())
      modifies this`toRemove, this`fds
      ensures Valid() && Value() == EventLoop.MarkAll(old(Value()), timedOut)
    {
      hide Valid, ClientMap, ChannelMap, BufferMap, Mark, Machine.StateInv;
      var i := 0;
      MarkNone(Value(), timedOut);
      while i < |timedOut|
        invariant i <= |timedOut| && Valid() && Machine.StateInv(Value())
        invariant EventLoop.MarkAll(Value(), timedOut[i..]) == EventLoop.MarkAll(old(Value()), timedOut)
      {
        MarkOne(Value(), timedOut, i);
        MarkClientForRemoval(timedOut[i]);
        i := i + 1;
      }
      MarkNone(Value(), timedOut);
    }

    lemma MarkOne(s: Machine.State, marked: seq<int>, i: nat)
      requires Machine.StateInv(s) && i < |marked|
      ensures Machine.StateInv(s.(io := Mark(s.io, marked[i])))
      ensures EventLoop.MarkAll(s, marked[i..]) == EventLoop.MarkAll(s.(io := Mark(s.io, marked[i])), marked[i + 1..])
    {
      hide Mark, Machine.StateInv;
      ghost var one := EventLoop.MarkState(s, marked[i]);
      assert marked[i..][0] == marked[i] && marked[i..][1..] == marked[i + 1..];
    }

    lemma MarkNone(s: Machine.State, marked: seq<int>)
      requires Machine.StateInv(s)
      ensures EventLoop.MarkAll(s, marked[|marked|..]) == s && marked[0..] == marked
    {
    }
  }
}
