/**
 * The server's registry as a value: the client map, the channel map and the nickname index,
 * with the invariant that ties them together.
 */
module ServerState {
  import opened Wrappers
  import opened Text
  import opened Ordering

  const MAX_CLIENTS := 20
  const NICK_MAX_LEN := 20
  const USERNAME_MAX_LEN := 100
  const REALNAME_MAX_LEN := 100
  const PASSWORD_MAX_LEN := 10

  /** A Client*: the descriptor of the object it was created for, and that object's own identity. */
  datatype Ptr = Ptr(fd: int, id: nat)

  datatype ClientData = ClientData(
    id: nat, nick: string, user: string, host: string, realname: string,
    pass: bool, nickDone: bool, userDone: bool, registered: bool, prefix: string)

  /** id tells apart channels that carry the same name at different times; limit is unset until +l. */
  datatype ChannelData = ChannelData(
    id: nat, key: string, topic: string, modes: set<char>,
    participants: map<string, Ptr>, operators: map<string, Ptr>,
    limit: Option<nat>, invited: set<string>)

  /** nextId numbers the objects created so far (addresses are not reused while anything points at them). */
  datatype Control = Control(
    serverFd: int, password: string,
    clients: map<int, ClientData>, channels: map<string, ChannelData>,
    index: map<string, Ptr>, nextId: nat)

  function PtrOf(k: Control, fd: int): Ptr
    requires fd in k.clients
  {
    Ptr(fd, k.clients[fd].id)
  }

  /** The pointer does not dangle. */
  predicate Live(clients: map<int, ClientData>, p: Ptr) {
    p.fd in clients && clients[p.fd].id == p.id
  }

  predicate ValidNick(nick: string) {
    0 < |nick| <= NICK_MAX_LEN && forall c | c in nick :: IsAlnum(c)
  }

  function UserPrefix(nick: string, user: string, host: string): string {
    ":" + nick + "!" + user + "@" + host
  }

  // ---- the invariant ----

  /** Registration flags and cached prefix of one client are in step. */
  predicate ClientOk(c: ClientData) {
    && (c.nickDone <==> c.nick != "")
    && (c.nick != "" ==> ValidNick(c.nick))
    && (c.nickDone || c.userDone ==> c.pass)
    && (c.registered ==> c.nickDone && c.userDone && c.prefix == UserPrefix(c.nick, c.user, c.host))
  }

  /** A channel map entry names a live, registered client by its current nickname. */
  predicate Holds(clients: map<int, ClientData>, nick: string, p: Ptr) {
    Live(clients, p) && clients[p.fd].nick == nick && clients[p.fd].registered
  }

  predicate SettingsOk(ch: ChannelData) {
    && ('k' in ch.modes <==> ch.key != "")
    && ('l' in ch.modes ==> ch.limit.Some?)
  }

  predicate MembersOk(clients: map<int, ClientData>, ch: ChannelData) {
    && (forall n | n in ch.participants :: Holds(clients, n, ch.participants[n]))
    && (forall n | n in ch.operators :: n in ch.participants && ch.operators[n] == ch.participants[n])
  }

  predicate ChannelOk(clients: map<int, ClientData>, ch: ChannelData) {
    MembersOk(clients, ch) && SettingsOk(ch)
  }

  predicate NicksUnique(clients: map<int, ClientData>) {
    forall f, g | f in clients && g in clients && clients[f].nick == clients[g].nick != "" :: f == g
  }

  predicate IdsOk(k: Control) {
    && (forall f, g | f in k.clients && g in k.clients && k.clients[f].id == k.clients[g].id :: f == g)
    && (forall f | f in k.clients :: k.clients[f].id < k.nextId)
    && (forall a, b | a in k.channels && b in k.channels && k.channels[a].id == k.channels[b].id :: a == b)
    && (forall a | a in k.channels :: k.channels[a].id < k.nextId)
  }

  /** The nickname index gives, for every nickname in use, the client that uses it. It may hold stale entries too. */
  predicate IndexOk(k: Control) {
    forall f | f in k.clients && k.clients[f].nick != "" ::
      k.clients[f].nick in k.index && k.index[k.clients[f].nick] == PtrOf(k, f)
  }

  predicate FdsOk(k: Control) {
    k.serverFd >= 0 && forall f | f in k.clients :: f >= 0 && f != k.serverFd
  }

  predicate Inv(k: Control) {
    && FdsOk(k) && IdsOk(k) && IndexOk(k) && NicksUnique(k.clients)
    && (forall f | f in k.clients :: ClientOk(k.clients[f]))
    && (forall n | n in k.channels :: ChannelOk(k.clients, k.channels[n]))
  }

  // ---- lookups ----

  /** IrcServer::getClient(nickname): the first client, in descriptor order, with that nickname. */
  function FindNick(clients: map<int, ClientData>, nick: string): (r: Option<int>)
    ensures r.Some? ==> r.value in clients && clients[r.value].nick == nick
    ensures r.None? ==> forall f | f in clients :: clients[f].nick != nick
  {
    FindNickIn(clients, SortedFds(clients.Keys), nick)
  }

  function FindNickIn(clients: map<int, ClientData>, fds: seq<int>, nick: string): (r: Option<int>)
    requires forall i | 0 <= i < |fds| :: fds[i] in clients
    ensures r.Some? ==> r.value in fds && r.value in clients && clients[r.value].nick == nick
    ensures r.None? ==> forall f | f in fds :: clients[f].nick != nick
  {
    if fds == [] then None
    else if clients[fds[0]].nick == nick then Some(fds[0])
    else FindNickIn(clients, fds[1..], nick)
  }

  /** The index refines the scan: for every nickname some client has, both name the same client. */
  lemma IndexRefinesScan(k: Control, nick: string)
    requires Inv(k) && nick != ""
    ensures match FindNick(k.clients, nick)
            case Some(fd) => nick in k.index && k.index[nick] == PtrOf(k, fd)
                             && forall f | f in k.clients && k.clients[f].nick == nick :: f == fd
            case None => nick !in k.index || !Holds(k.clients, nick, k.index[nick])
  {
  }

  /** The lookup behind MODE +o never misses: a participant's index entry is the participant entry itself. */
  lemma IndexFindsParticipants(k: Control, name: string, nick: string)
    requires Inv(k) && name in k.channels && nick in k.channels[name].participants
    ensures nick in k.index && k.index[nick] == k.channels[name].participants[nick]
  {
  }

  /** A client appears in a channel at most once. */
  lemma ParticipantsAreDistinct(k: Control, name: string, a: string, b: string)
    requires Inv(k) && name in k.channels
    requires a in k.channels[name].participants && b in k.channels[name].participants
    requires k.channels[name].participants[a] == k.channels[name].participants[b]
    ensures a == b
  {
  }
}
