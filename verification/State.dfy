/** The server state as a value: the two maps of the server, with every client
    and channel as a record. The classes in Server.dfy are described by it. */
module IrcState {
  import opened Seqs

  /** Where a relayed line says it comes from. */
  datatype Origin = ServerOrigin | NickOrigin(nick: string) | UserOrigin(nick: string, user: string, host: string)

  datatype Verb =
    | PASS | NICK | USER | PRIVMSG | QUIT | PART | JOIN | KICK | MODE | TOPIC | INVITE
    | LIST | PING | WHOIS | WHO | UNKNOWN | NOTHING

  /** One line in a client's output buffer, before it is written out as text. */
  datatype Reply =
    | Numeric(code: nat, params: seq<string>)
    | Relay(origin: Origin, verb: Verb, params: seq<string>)
    | ModeIs(nick: string, channel: string, flags: string, key: Option<string>, limit: Option<nat>)
    | NameList(nick: string, channel: string, entries: seq<(bool, string)>)
    | Usage(verb: Verb)
    | Pong(token: string)
    | Welcome(nick: string, user: string, host: string)

  datatype ClientRec = ClientRec(
    fd: int, nick: string, user: string, host: string, server: string, realname: string,
    passOk: bool, nickOk: bool, userOk: bool,
    chans: seq<string>, out: seq<Reply>, held: string, partial: bool)
  {
    predicate Registered() {
      passOk && nickOk && userOk
    }

    function Say(line: Reply): ClientRec {
      this.(out := out + [line])
    }

    /** The prefix of lines relayed on behalf of this client. */
    function Prefix(): Origin {
      UserOrigin(nick, user, server)
    }
  }

  function NewClient(fd: int): ClientRec {
    ClientRec(fd, "*", "", "", "", "", false, false, false, [], [], "", false)
  }

  /** Client::resetClient: only the fragment buffer is left as it was. */
  function Wiped(c: ClientRec): ClientRec {
    ClientRec(-1, "", "", "", "", "", false, false, false, [], [], c.held, c.partial)
  }

  datatype ChannelRec = ChannelRec(
    name: string, operators: seq<int>, members: seq<int>, invites: seq<int>,
    topic: string, key: string,
    inviteOn: bool, topicOn: bool, keyOn: bool, limitOn: bool, limit: nat)

  /** A channel is constructed with its creator as operator, not yet as member. */
  function NewChannel(name: string, creator: int): ChannelRec {
    ChannelRec(name, [creator], [], [], "", "", false, false, false, false, 0)
  }

  /** Channel::setMode: a sign that is neither + nor - changes nothing. */
  function WithMode(c: ChannelRec, mode: char, sign: char, fd: int): ChannelRec {
    if sign != '+' && sign != '-' then c
    else if mode == 'i' then c.(inviteOn := sign == '+')
    else if mode == 't' then c.(topicOn := sign == '+')
    else if mode == 'l' then c.(limitOn := sign == '+')
    else if mode == 'k' then c.(keyOn := sign == '+')
    else if mode == 'o' then c.(operators := if sign == '+' then Add(c.operators, fd) else Drop(c.operators, fd))
    else c
  }

  datatype State = State(password: string, clients: map<int, ClientRec>, channels: map<string, ChannelRec>)

  function Initial(password: string): State {
    State(password, map[], map[])
  }

  // ---- reading -------------------------------------------------------------

  function Who(s: State, fd: int): ClientRec {
    if fd in s.clients then s.clients[fd] else NewClient(-1)
  }

  function ChannelAt(s: State, n: string): ChannelRec {
    if n in s.channels then s.channels[n] else NewChannel("", -1)
  }

  predicate IsMember(s: State, fd: int, n: string) {
    n in s.channels && fd in s.channels[n].members
  }

  predicate IsOperator(s: State, fd: int, n: string) {
    n in s.channels && fd in s.channels[n].operators
  }

  /** The client an iteration over the client map finds first under a nickname. */
  function Find(clients: map<int, ClientRec>, nick: string): (r: Option<int>)
    ensures r.Some? ==> r.value in clients && clients[r.value].nick == nick
    ensures r.Some? ==> forall g | g in clients && clients[g].nick == nick :: r.value <= g
    ensures r.None? ==> forall g | g in clients :: clients[g].nick != nick
  {
    var hits := set g | g in clients && clients[g].nick == nick;
    assert forall g | g in clients && clients[g].nick == nick :: g in hits;
    if hits == {} then None else Some(Least(hits))
  }

  /** Find sees nothing of a client but its nickname. */
  lemma FindAgrees(a: map<int, ClientRec>, b: map<int, ClientRec>, nick: string)
    requires a.Keys == b.Keys && forall g | g in a :: a[g].nick == b[g].nick
    ensures Find(a, nick) == Find(b, nick)
  {
    var x, y := Find(a, nick), Find(b, nick);
    if x.Some? {
      assert x.value in b && b[x.value].nick == nick;
    }
    if y.Some? {
      assert y.value in a && a[y.value].nick == nick;
    }
  }

  // ---- changing ------------------------------------------------------------

  function PutClient(s: State, fd: int, c: ClientRec): State {
    s.(clients := s.clients[fd := c])
  }

  function PutChannel(s: State, n: string, c: ChannelRec): State {
    s.(channels := s.channels[n := c])
  }

  function EraseClient(s: State, fd: int): State {
    s.(clients := s.clients - {fd})
  }

  function EraseChannel(s: State, n: string): State {
    s.(channels := s.channels - {n})
  }

  function Say(s: State, fd: int, line: Reply): State {
    PutClient(s, fd, Who(s, fd).Say(line))
  }

  /** Every client in the group gets the line once. */
  function Tell(s: State, group: seq<int>, line: Reply): State {
    s.(clients := map g | g in s.clients :: if g in group then s.clients[g].Say(line) else s.clients[g])
  }

  /** fd becomes a member of an existing channel. */
  function Enter(s: State, fd: int, n: string): State {
    var s1 := PutClient(s, fd, Who(s, fd).(chans := Who(s, fd).chans + [n]));
    PutChannel(s1, n, ChannelAt(s, n).(members := ChannelAt(s, n).members + [fd]))
  }

  /** fd creates a channel: its operator and its only member. */
  function Create(s: State, fd: int, n: string): State {
    Enter(PutChannel(s, n, NewChannel(n, fd)), fd, n)
  }

  function WithoutFd(c: ChannelRec, fd: int): ChannelRec {
    c.(members := Drop(c.members, fd), operators := Drop(c.operators, fd))
  }

  /** fd is taken out of both copies of the membership. */
  function Leave(s: State, fd: int, n: string): State {
    var s1 := PutChannel(s, n, WithoutFd(ChannelAt(s, n), fd));
    PutClient(s1, fd, Who(s, fd).(chans := Drop(Who(s, fd).chans, n)))
  }

  // ---- nicknames -----------------------------------------------------------

  predicate IsAlnum(c: char) {
    '0' <= c <= '9' || 'a' <= c <= 'z' || 'A' <= c <= 'Z'
  }

  predicate IsSpecial(c: char) {
    c == '_' || c == '|' || c == '[' || c == ']' || c == '{' || c == '}' || c == '\\'
  }

  /** The first character only must not be a digit; the others are restricted. */
  predicate ValidNick(nick: string) {
    && 0 < |nick| <= 9
    && !('0' <= nick[0] <= '9')
    && forall i | 1 <= i < |nick| :: IsAlnum(nick[i]) || IsSpecial(nick[i])
  }

  // ---- the invariant -------------------------------------------------------

  ghost predicate ChannelOk(s: State, n: string)
    requires n in s.channels
  {
    var c := s.channels[n];
    && c.name == n
    && NoDup(c.members) && NoDup(c.operators) && NoDup(c.invites)
    && (forall g | g in c.operators :: g in c.members)
    && (forall g | g in c.members :: g in s.clients && n in s.clients[g].chans)
    && (!c.keyOn ==> c.key == "")
    && (!c.limitOn ==> c.limit == 0)
  }

  ghost predicate ClientOk(s: State, g: int)
    requires g in s.clients
  {
    var c := s.clients[g];
    && 0 <= g && (c.fd == g || c.fd == -1)
    && NoDup(c.chans)
    && (forall n | n in c.chans :: IsMember(s, g, n))
    && (c.chans != [] ==> c.Registered())
    && (c.nickOk || c.userOk ==> c.passOk)
    && (if c.nickOk then ValidNick(c.nick) else c.nick == "*")
  }

  ghost predicate UniqueNicks(clients: map<int, ClientRec>) {
    forall f, g | f in clients && g in clients && f != g && clients[f].nick == clients[g].nick ::
      clients[f].nick == "*" && !(clients[f].nickOk && clients[g].nickOk)
  }

  /** What every reachable state satisfies. */
  ghost predicate Inv(s: State) {
    && (forall n | n in s.channels :: ChannelOk(s, n))
    && (forall g | g in s.clients :: ClientOk(s, g))
    && UniqueNicks(s.clients)
  }

  /** A nickname other than `*` belongs to one client, whatever the key order. */
  lemma FindIsUnique(s: State, g: int)
    requires Inv(s) && g in s.clients && s.clients[g].nick != "*"
    ensures Find(s.clients, s.clients[g].nick) == Some(g)
  {
  }

  // ---- what keeps the invariant --------------------------------------------

  /** Only output and half-received input differ. */
  ghost predicate Quiet(c: ClientRec, d: ClientRec) {
    d == c.(out := d.out, held := d.held, partial := d.partial)
  }

  ghost predicate OnlyOutput(s: State, t: State) {
    && t.password == s.password && t.channels == s.channels && t.clients.Keys == s.clients.Keys
    && forall g | g in s.clients :: Quiet(s.clients[g], t.clients[g])
  }

  lemma OutputKeepsInv(s: State, t: State)
    requires Inv(s) && OnlyOutput(s, t)
    ensures Inv(t) && Shrinks(s, t) && SamePass(s, t) && EmptiesNone(s, t)
  {
    forall n | n in t.channels ensures ChannelOk(t, n) {
      assert ChannelOk(s, n);
    }
    forall g | g in t.clients ensures ClientOk(t, g) {
      assert ClientOk(s, g) && Quiet(s.clients[g], t.clients[g]);
      forall n | n in t.clients[g].chans ensures IsMember(t, g, n) {
        assert IsMember(s, g, n);
      }
    }
  }

  lemma SayIsOutput(s: State, fd: int, line: Reply)
    requires fd in s.clients
    ensures OnlyOutput(s, Say(s, fd, line))
  {
  }

  lemma TellIsOutput(s: State, group: seq<int>, line: Reply)
    ensures OnlyOutput(s, Tell(s, group, line))
  {
  }

  lemma SayKeepsInv(s: State, fd: int, line: Reply)
    requires Inv(s) && fd in s.clients
    ensures var t := Say(s, fd, line);
            OnlyOutput(s, t) && Inv(t) && Shrinks(s, t) && SamePass(s, t) && EmptiesNone(s, t)
  {
    SayIsOutput(s, fd, line);
    OutputKeepsInv(s, Say(s, fd, line));
  }

  lemma SayTwiceKeepsInv(s: State, fd: int, first: Reply, second: Reply)
    requires Inv(s) && fd in s.clients
    ensures var t := Say(Say(s, fd, first), fd, second);
            OnlyOutput(s, t) && Inv(t) && Shrinks(s, t) && SamePass(s, t) && EmptiesNone(s, t)
  {
    SayIsOutput(s, fd, first);
    SayIsOutput(Say(s, fd, first), fd, second);
    OutputTwice(s, Say(s, fd, first), Say(Say(s, fd, first), fd, second));
    OutputKeepsInv(s, Say(Say(s, fd, first), fd, second));
  }

  lemma TellKeepsInv(s: State, group: seq<int>, line: Reply)
    requires Inv(s)
    ensures var t := Tell(s, group, line);
            OnlyOutput(s, t) && Inv(t) && Shrinks(s, t) && SamePass(s, t) && EmptiesNone(s, t)
  {
    TellIsOutput(s, group, line);
    OutputKeepsInv(s, Tell(s, group, line));
  }

  lemma OutputTwice(s: State, t: State, u: State)
    requires OnlyOutput(s, t) && OnlyOutput(t, u)
    ensures OnlyOutput(s, u)
  {
    forall g | g in s.clients ensures Quiet(s.clients[g], u.clients[g]) {
      assert Quiet(s.clients[g], t.clients[g]) && Quiet(t.clients[g], u.clients[g]);
    }
  }

  /** A client changes, but not in the channels it lists. */
  lemma ClientKeepsInv(s: State, fd: int, c: ClientRec)
    requires Inv(s) && fd in s.clients && c.chans == s.clients[fd].chans
    requires c.fd == s.clients[fd].fd && (c.chans != [] ==> c.Registered())
    requires c.nickOk || c.userOk ==> c.passOk
    requires if c.nickOk then ValidNick(c.nick) else c.nick == "*"
    requires UniqueNicks(s.clients[fd := c])
    ensures Inv(PutClient(s, fd, c))
  {
    var t := PutClient(s, fd, c);
    forall n | n in t.channels ensures ChannelOk(t, n) {
      assert ChannelOk(s, n);
    }
    forall g | g in t.clients ensures ClientOk(t, g) {
      assert ClientOk(s, g);
      forall n | n in t.clients[g].chans ensures IsMember(t, g, n) {
        assert IsMember(s, g, n);
      }
    }
  }

  /** A channel changes, but not in its members. */
  lemma ChannelKeepsInv(s: State, n: string, c: ChannelRec)
    requires Inv(s) && n in s.channels
    requires c.name == n && c.members == s.channels[n].members
    requires NoDup(c.operators) && NoDup(c.invites) && forall g | g in c.operators :: g in c.members
    requires (!c.keyOn ==> c.key == "") && (!c.limitOn ==> c.limit == 0)
    ensures Inv(PutChannel(s, n, c))
  {
    var t := PutChannel(s, n, c);
    assert ChannelOk(s, n);
    forall m | m in t.channels ensures ChannelOk(t, m) {
      assert ChannelOk(s, m);
    }
    forall g | g in t.clients ensures ClientOk(t, g) {
      assert ClientOk(s, g);
      forall m | m in t.clients[g].chans ensures IsMember(t, g, m) {
        assert IsMember(s, g, m);
      }
    }
  }

  lemma EnterKeepsInv(s: State, fd: int, n: string)
    requires Inv(s) && fd in s.clients && s.clients[fd].Registered()
    requires n in s.channels && !IsMember(s, fd, n)
    ensures Inv(Enter(s, fd, n))
  {
    var t := Enter(s, fd, n);
    assert ChannelOk(s, n) && ClientOk(s, fd);
    forall m | m in t.channels ensures ChannelOk(t, m) {
      assert ChannelOk(s, m);
    }
    forall g | g in t.clients ensures ClientOk(t, g) {
      assert ClientOk(s, g);
      forall m | m in t.clients[g].chans ensures IsMember(t, g, m) {
        assert m == n || IsMember(s, g, m);
      }
    }
  }

  lemma CreateKeepsInv(s: State, fd: int, n: string)
    requires Inv(s) && fd in s.clients && s.clients[fd].Registered() && n !in s.channels
    ensures Inv(Create(s, fd, n))
  {
    var t := Create(s, fd, n);
    assert ClientOk(s, fd);
    assert forall m | m in s.clients[fd].chans :: IsMember(s, fd, m);
    assert n !in s.clients[fd].chans;
    assert t.channels[n].members == [fd] && t.channels[n].operators == [fd];
    forall m | m in t.channels ensures ChannelOk(t, m) {
      if m != n {
        assert ChannelOk(s, m);
      }
    }
    forall g | g in t.clients ensures ClientOk(t, g) {
      assert ClientOk(s, g);
      forall m | m in t.clients[g].chans ensures IsMember(t, g, m) {
        assert m == n || IsMember(s, g, m);
      }
    }
  }

  /** Leaving takes away one pair of the membership relation and of the
      operator relation, and no other. */
  lemma LeaveEffect(s: State, fd: int, n: string)
    requires Inv(s) && fd in s.clients && n in s.channels
    ensures forall g, m :: IsMember(Leave(s, fd, n), g, m) <==> IsMember(s, g, m) && !(g == fd && m == n)
    ensures forall g, m :: IsOperator(Leave(s, fd, n), g, m) <==> IsOperator(s, g, m) && !(g == fd && m == n)
    ensures NoDup(Drop(s.channels[n].members, fd)) && NoDup(Drop(s.channels[n].operators, fd))
  {
    assert ChannelOk(s, n);
    DropNoDup(s.channels[n].members, fd);
    DropNoDup(s.channels[n].operators, fd);
  }

  lemma LeaveKeepsInv(s: State, fd: int, n: string)
    requires Inv(s) && fd in s.clients && n in s.channels
    ensures Inv(Leave(s, fd, n))
  {
    var t := Leave(s, fd, n);
    LeaveEffect(s, fd, n);
    DropNoDup(s.clients[fd].chans, n);
    forall m | m in t.channels ensures ChannelOk(t, m) {
      assert ChannelOk(s, m);
      forall g | g in t.channels[m].members ensures g in t.clients && m in t.clients[g].chans {
        assert IsMember(t, g, m);
      }
      forall g | g in t.channels[m].operators ensures g in t.channels[m].members {
        assert IsOperator(t, g, m) && IsOperator(s, g, m) && IsMember(s, g, m);
        assert IsMember(t, g, m);
      }
    }
    forall g | g in t.clients ensures ClientOk(t, g) {
      assert ClientOk(s, g);
      forall m | m in t.clients[g].chans ensures IsMember(t, g, m) {
        assert IsMember(s, g, m);
      }
    }
  }

  /** A channel without members may be deleted. */
  lemma EraseChannelKeepsInv(s: State, n: string)
    requires Inv(s) && n in s.channels && s.channels[n].members == []
    ensures Inv(EraseChannel(s, n))
    ensures forall g, m :: IsMember(EraseChannel(s, n), g, m) <==> IsMember(s, g, m)
    ensures forall g, m :: IsOperator(EraseChannel(s, n), g, m) <==> IsOperator(s, g, m)
  {
    var t := EraseChannel(s, n);
    assert ChannelOk(s, n);
    forall m | m in t.channels ensures ChannelOk(t, m) {
      assert ChannelOk(s, m);
    }
    forall g | g in t.clients ensures ClientOk(t, g) {
      assert ClientOk(s, g);
      forall m | m in t.clients[g].chans ensures IsMember(t, g, m) {
        assert IsMember(s, g, m);
      }
    }
  }

  /** A client without channels may be erased: no descriptor is left dangling. */
  lemma EraseClientKeepsInv(s: State, fd: int)
    requires Inv(s) && fd in s.clients && s.clients[fd].chans == []
    ensures Inv(EraseClient(s, fd))
  {
    var t := EraseClient(s, fd);
    assert ClientOk(s, fd);
    forall m | m in t.channels ensures ChannelOk(t, m) {
      assert ChannelOk(s, m);
    }
    forall g | g in t.clients ensures ClientOk(t, g) {
      assert ClientOk(s, g);
      forall m | m in t.clients[g].chans ensures IsMember(t, g, m) {
        assert IsMember(s, g, m);
      }
    }
  }

  /** A fresh client arrives at an unused descriptor. */
  lemma InsertKeepsInv(s: State, fd: int, c: ClientRec)
    requires Inv(s) && 0 <= fd && fd !in s.clients
    requires Quiet(NewClient(fd), c) || Quiet(NewClient(-1), c)
    ensures Inv(PutClient(s, fd, c))
  {
    var t := PutClient(s, fd, c);
    forall m | m in t.channels ensures ChannelOk(t, m) {
      assert ChannelOk(s, m);
    }
    forall g | g in t.clients ensures ClientOk(t, g) {
      if g != fd {
        assert ClientOk(s, g);
        forall m | m in t.clients[g].chans ensures IsMember(t, g, m) {
          assert IsMember(s, g, m);
        }
      }
    }
  }

  // ---- what a step may do to a channel -------------------------------------

  /** Topic, key, flags and limit are the same. */
  ghost predicate SameSettings(c: ChannelRec, d: ChannelRec) {
    d == c.(members := d.members, operators := d.operators, invites := d.invites)
  }

  /** No channel appears, gains a member or an operator, or has a setting changed. */
  ghost predicate Shrinks(s: State, t: State) {
    && t.password == s.password
    && t.channels.Keys <= s.channels.Keys
    && forall n | n in t.channels ::
         && SameSettings(s.channels[n], t.channels[n])
         && |t.channels[n].members| <= |s.channels[n].members|
         && forall g | g in t.channels[n].operators :: g in s.channels[n].operators
  }

  /** Nobody appears, and the password flag of those who stay is as before. */
  ghost predicate SamePass(s: State, t: State) {
    && t.clients.Keys <= s.clients.Keys
    && forall g | g in t.clients :: t.clients[g].passOk == s.clients[g].passOk
  }

  /** No channel is without members, unless it was so before. */
  ghost predicate EmptiesNone(s: State, t: State) {
    forall n | n in t.channels && t.channels[n].members == [] :: n in s.channels && s.channels[n].members == []
  }

  lemma ShrinksTwice(s: State, t: State, u: State)
    requires Shrinks(s, t) && Shrinks(t, u)
    ensures Shrinks(s, u)
  {
    forall n | n in u.channels
      ensures SameSettings(s.channels[n], u.channels[n])
      ensures |u.channels[n].members| <= |s.channels[n].members|
      ensures forall g | g in u.channels[n].operators :: g in s.channels[n].operators
    {
      assert n in t.channels;
      assert SameSettings(s.channels[n], t.channels[n]) && SameSettings(t.channels[n], u.channels[n]);
    }
  }

  lemma LeaveShrinks(s: State, fd: int, n: string)
    requires Inv(s) && fd in s.clients && n in s.channels
    ensures Shrinks(s, Leave(s, fd, n)) && SamePass(s, Leave(s, fd, n))
  {
    assert ChannelOk(s, n);
    DropNoDup(s.channels[n].members, fd);
    DropNoDup(s.channels[n].operators, fd);
  }

  /** The members of a channel are told, then one of them is taken out of it. */
  function Depart(s: State, target: int, n: string, line: Reply): State {
    Leave(Tell(s, ChannelAt(s, n).members, line), target, n)
  }

  lemma DepartEffect(s: State, target: int, n: string, line: Reply)
    requires Inv(s) && IsMember(s, target, n)
    ensures var t := Depart(s, target, n, line);
      && Inv(t) && Shrinks(s, t) && SamePass(s, t)
      && (forall g, m :: IsMember(t, g, m) <==> IsMember(s, g, m) && !(g == target && m == n))
      && (forall g, m :: IsOperator(t, g, m) <==> IsOperator(s, g, m) && !(g == target && m == n))
  {
    assert ChannelOk(s, n);
    var m := Tell(s, s.channels[n].members, line);
    TellKeepsInv(s, s.channels[n].members, line);
    LeaveKeepsInv(m, target, n);
    LeaveEffect(m, target, n);
    LeaveShrinks(m, target, n);
  }

  /** Whoever was a member, the one who goes included, is told once; nobody else is. */
  lemma DepartTells(s: State, target: int, n: string, line: Reply)
    requires Inv(s) && IsMember(s, target, n)
    ensures var t := Depart(s, target, n, line);
      && t.clients.Keys == s.clients.Keys
      && forall g | g in s.clients ::
           t.clients[g].out == if IsMember(s, g, n) then s.clients[g].out + [line] else s.clients[g].out
  {
    assert ChannelOk(s, n);
  }

  /** A channel that lost its last member is deleted. */
  function Prune(s: State, n: string): State {
    if ChannelAt(s, n).members == [] then EraseChannel(s, n) else s
  }

  lemma PruneEffect(s: State, n: string)
    requires Inv(s) && n in s.channels
    ensures Inv(Prune(s, n)) && Shrinks(s, Prune(s, n))
    ensures forall g, m :: IsMember(Prune(s, n), g, m) <==> IsMember(s, g, m)
    ensures forall g, m :: IsOperator(Prune(s, n), g, m) <==> IsOperator(s, g, m)
  {
    if s.channels[n].members == [] {
      EraseChannelKeepsInv(s, n);
    }
  }

  lemma DepartAndPrune(s: State, target: int, n: string, line: Reply)
    requires Inv(s) && IsMember(s, target, n)
    ensures var t := Prune(Depart(s, target, n, line), n);
      && Inv(t) && target in t.clients && Shrinks(s, t) && SamePass(s, t) && EmptiesNone(s, t)
      && (forall g, m :: IsMember(t, g, m) <==> IsMember(s, g, m) && !(g == target && m == n))
      && (forall g, m :: IsOperator(t, g, m) <==> IsOperator(s, g, m) && !(g == target && m == n))
  {
    assert ChannelOk(s, n);
    var l := Depart(s, target, n, line);
    DepartEffect(s, target, n, line);
    PruneEffect(l, n);
    ShrinksTwice(s, l, Prune(l, n));
  }
}
