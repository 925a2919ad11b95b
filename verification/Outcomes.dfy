/** Every command by what can be seen of it: the state afterwards is written out with the
    records, the codes and the lines as they are, and when each of them is due. */
module Outcomes {
  import opened Seqs
  import opened IrcState
  import opened Wire
  import PassSpec
  import UserSpec
  import NickSpec
  import PartSpec
  import KickSpec
  import QuitSpec
  import JoinSpec
  import ModeSpec
  import TopicSpec
  import InviteSpec
  import PrivmsgSpec
  import Protocol

  /** Nothing happens but that fd is written these lines. */
  ghost predicate Wrote(s: State, t: State, fd: int, lines: seq<Reply>)
    requires fd in s.clients
  {
    t == s.(clients := s.clients[fd := s.clients[fd].(out := s.clients[fd].out + lines)])
  }

  /** The prefix of a line from this client. */
  function Sender(c: ClientRec): Origin {
    UserOrigin(c.nick, c.user, c.server)
  }

  lemma WroteOne(s: State, fd: int, line: Reply)
    requires fd in s.clients
    ensures Wrote(s, Say(s, fd, line), fd, [line])
  {
  }

  lemma WroteTwo(s: State, fd: int, first: Reply, second: Reply)
    requires fd in s.clients
    ensures Wrote(s, Say(Say(s, fd, first), fd, second), fd, [first, second])
  {
    var c := s.clients[fd];
    assert c.out + [first] + [second] == c.out + [first, second];
    assert Say(Say(s, fd, first), fd, second).clients == s.clients[fd := c.(out := c.out + [first, second])];
  }

  // ---- signing up ----------------------------------------------------------

  /** PASS: which answer is due when. */
  lemma PassOutcome(s: State, fd: int, cmd: seq<string>)
    requires fd in s.clients
    ensures var c, t := s.clients[fd], PassSpec.Pass(s, fd, cmd);
      if c.passOk then Wrote(s, t, fd, [Numeric(462, [])])
      else if |cmd| < 2 then Wrote(s, t, fd, [Numeric(461, []), Usage(PASS)])
      else if cmd[1] == s.password then t == s.(clients := s.clients[fd := c.(passOk := true)])
      else t == s.(clients := s.clients - {fd})
  {
    WroteOne(s, fd, Numeric(462, []));
    WroteTwo(s, fd, Numeric(461, []), Usage(PASS));
  }

  /** USER: a second one is refused, one before PASS costs the connection; the fifth
      parameter may go on only behind a colon. */
  lemma UserOutcome(s: State, fd: int, cmd: seq<string>)
    requires fd in s.clients
    ensures var c, t := s.clients[fd], UserSpec.User(s, fd, cmd);
      if c.userOk then Wrote(s, t, fd, [Numeric(462, [])])
      else if !c.passOk then t == s.(clients := s.clients - {fd})
      else if |cmd| < 5 || (|cmd| > 5 && (cmd[4] == "" || cmd[4][0] != ':'))
      then Wrote(s, t, fd, [Numeric(461, []), Usage(USER)])
      else t == s.(clients := s.clients[fd := c.(user := cmd[1], host := cmd[2], server := cmd[3],
                                                 realname := JoinWords(cmd[4..]), userOk := true)])
  {
    WroteOne(s, fd, Numeric(462, []));
    WroteTwo(s, fd, Numeric(461, []), Usage(USER));
  }

  // ---- nicknames -----------------------------------------------------------

  /** Which nicknames are valid: one to nine characters, the first no digit, the others
      letters, digits or one of the seven special ones. */
  lemma ValidNickIff(nick: string)
    ensures ValidNick(nick) <==>
      && 1 <= |nick| <= 9 && nick[0] !in "0123456789"
      && forall i | 1 <= i < |nick| ::
           'a' <= nick[i] <= 'z' || 'A' <= nick[i] <= 'Z' || '0' <= nick[i] <= '9' || nick[i] in "_|[]{}\\"
  {
  }

  predicate Taken(s: State, nick: string) {
    exists g | g in s.clients :: s.clients[g].nick == nick
  }

  /** The request with k underscores is the first one that nobody has. */
  ghost predicate FirstFree(s: State, nick: string, k: nat) {
    !Taken(s, nick + Repeat('_', k)) && forall j: nat | j < k :: Taken(s, nick + Repeat('_', j))
  }

  lemma FirstFreeIs(s: State, nick: string, k: nat)
    requires FirstFree(s, nick, k)
    ensures NickSpec.FreshNick(s.clients, nick) == nick + Repeat('_', k)
  {
    var m := NickSpec.FewestUnderscores(s.clients, nick);
    assert Taken(s, nick + Repeat('_', m)) <==> NickSpec.InUse(s.clients, nick + Repeat('_', m));
    assert Taken(s, nick + Repeat('_', k)) <==> NickSpec.InUse(s.clients, nick + Repeat('_', k));
  }

  /** The state after a change of nickname: the client is called so, nobody else changes,
      and the one line that may be written names the nickname before and the one after. */
  ghost predicate Renamed(s: State, t: State, fd: int, nick: string)
    requires fd in s.clients
  {
    var c := s.clients[fd];
    && t.password == s.password && t.channels == s.channels && t.clients.Keys == s.clients.Keys
    && t.clients[fd] == c.(nick := nick, nickOk := true, out := t.clients[fd].out)
    && (forall g | g in s.clients && g != fd :: t.clients[g] == s.clients[g].(out := t.clients[g].out))
    && (forall g | g in s.clients :: t.clients[g].out == s.clients[g].out
          || t.clients[g].out == s.clients[g].out + [Relay(Sender(c), NICK, [nick])])
    && (c.chans == [] ==>
          forall g | g in s.clients :: t.clients[g].out
            == if g == fd then c.out + [Relay(Sender(c), NICK, [nick])] else s.clients[g].out)
  }

  lemma RenameOutcome(s: State, fd: int, nick: string)
    requires fd in s.clients
    ensures Renamed(s, NickSpec.Rename(NickSpec.Announce(s, fd, nick), fd, nick), fd, nick)
  {
  }

  /** NICK: with a password given and a parameter, the client is called what was asked
      for, with the fewest underscores that make it unused, if that is valid. Otherwise no
      nickname changes. */
  lemma NickOutcome(s: State, fd: int, cmd: seq<string>, k: nat)
    requires fd in s.clients && (|cmd| >= 2 ==> FirstFree(s, cmd[1], k))
    ensures var c, t := s.clients[fd], NickSpec.Nick(s, fd, cmd);
      if !c.passOk then t == s.(clients := s.clients - {fd})
      else if |cmd| < 2 then Wrote(s, t, fd, [Numeric(431, [])])
      else if !ValidNick(cmd[1] + Repeat('_', k)) then Wrote(s, t, fd, [Numeric(432, []), Usage(NICK)])
      else Renamed(s, t, fd, cmd[1] + Repeat('_', k))
  {
    if s.clients[fd].passOk {
      if |cmd| < 2 {
        WroteOne(s, fd, Numeric(431, []));
      } else {
        FirstFreeIs(s, cmd[1], k);
        WroteTwo(s, fd, Numeric(432, []), Usage(NICK));
        RenameOutcome(s, fd, cmd[1] + Repeat('_', k));
      }
    }
  }

  /** The members of the channels in order. */
  function Roll(s: State, chans: seq<string>): seq<int>
    decreases |chans|
  {
    if chans == [] then []
    else (if chans[0] in s.channels then s.channels[chans[0]].members else []) + Roll(s, chans[1..])
  }

  lemma {:induction false} RollIs(s: State, chans: seq<string>)
    ensures NickSpec.Visit(s, chans) == Roll(s, chans)
    decreases |chans|
  {
    if chans != [] {
      var front, last := chans[..|chans| - 1], chans[|chans| - 1];
      RollIs(s, front);
      RollLast(s, front, last);
      assert chans == front + [last];
    }
  }

  lemma {:induction false} RollLast(s: State, front: seq<string>, last: string)
    ensures Roll(s, front + [last]) == Roll(s, front) + ChannelAt(s, last).members
    decreases |front|
  {
    if front != [] {
      RollLast(s, front[1..], last);
      assert (front + [last])[1..] == front[1..] + [last];
    } else {
      assert Roll(s, [last][1..]) == [];
    }
  }

  /** Nobody further up the roll stores the same descriptor as g. */
  ghost predicate FirstOfItsKind(s: State, roll: seq<int>, g: int)
    requires g in s.clients
  {
    exists i | 0 <= i < |roll| :: roll[i] == g
      && forall j | 0 <= j < i && roll[j] in s.clients :: s.clients[roll[j]].fd != s.clients[g].fd
  }

  lemma KindIs(s: State, fd: int, g: int)
    requires Inv(s) && fd in s.clients && g in s.clients
    ensures var visit := NickSpec.Visit(s, s.clients[fd].chans);
      NickSpec.MetFirst(s, visit, g) <==> FirstOfItsKind(s, visit, g)
  {
    NickSpec.VisitIsShared(s, fd);
    var visit := NickSpec.Visit(s, s.clients[fd].chans);
    forall j | 0 <= j < |visit| ensures visit[j] in s.clients {
      assert visit[j] in visit && NickSpec.Shares(s, fd, visit[j]);
    }
  }

  /** With channels the line reaches the first client of each stored descriptor on the
      roll of these channels, and nobody else; so it reaches everybody who shares a
      channel exactly when their stored descriptors differ. */
  lemma NickReaches(s: State, fd: int, cmd: seq<string>, k: nat)
    requires Inv(s) && fd in s.clients && s.clients[fd].chans != [] && s.clients[fd].passOk && |cmd| >= 2
    requires FirstFree(s, cmd[1], k) && ValidNick(cmd[1] + Repeat('_', k))
    ensures var t, line := NickSpec.Nick(s, fd, cmd), Relay(Sender(s.clients[fd]), NICK, [cmd[1] + Repeat('_', k)]);
      && t.clients.Keys == s.clients.Keys
      && (forall g | g in s.clients :: t.clients[g].out
            == s.clients[g].out + if FirstOfItsKind(s, Roll(s, s.clients[fd].chans), g) then [line] else [])
      && ((forall g | g in s.clients && NickSpec.Shares(s, fd, g) :: t.clients[g].out == s.clients[g].out + [line])
          <==> forall g, h | g in s.clients && h in s.clients && NickSpec.Shares(s, fd, g)
                             && NickSpec.Shares(s, fd, h) && g != h :: s.clients[g].fd != s.clients[h].fd)
  {
    FirstFreeIs(s, cmd[1], k);
    NickSpec.NickOnce(s, fd, cmd);
    RollIs(s, s.clients[fd].chans);
    var t, line := NickSpec.Nick(s, fd, cmd), Relay(Sender(s.clients[fd]), NICK, [cmd[1] + Repeat('_', k)]);
    forall g | g in s.clients
      ensures t.clients[g].out
           == s.clients[g].out + if FirstOfItsKind(s, Roll(s, s.clients[fd].chans), g) then [line] else []
    {
      NickSpec.NickTells(s, fd, cmd, g);
      KindIs(s, fd, g);
    }
  }

  // ---- JOIN ----------------------------------------------------------------

  /** A name that may be a channel's. */
  predicate NamesChannel(name: string) {
    name != "" && (name[0] == '#' || name[0] == '&')
  }

  /** Why an existing channel does not let fd in, in the order in which the reasons are
      tried, or nothing if it does. */
  function Bar(c: ChannelRec, fd: int, nick: string, name: string, key: Option<string>): seq<Reply> {
    if fd in c.members then [Numeric(443, [nick, nick, name])]
    else if c.keyOn && key != Some(c.key) then [Numeric(475, [nick, name])]
    else if c.inviteOn && fd !in c.invites then [Numeric(473, [nick, name])]
    else if c.limitOn && |c.members| >= c.limit then [Numeric(471, [nick, name])]
    else []
  }

  /** One name of a JOIN that is not let in. */
  lemma JoinRefused(s: State, fd: int, name: string, key: Option<string>)
    requires fd in s.clients
    ensures var c, t := s.clients[fd], JoinSpec.JoinOne(s, fd, name, key);
      && (!NamesChannel(name) ==> Wrote(s, t, fd, [Numeric(403, [c.nick, name])]))
      && (NamesChannel(name) && name in s.channels && Bar(s.channels[name], fd, c.nick, name, key) != [] ==>
            Wrote(s, t, fd, Bar(s.channels[name], fd, c.nick, name, key)))
  {
    if !NamesChannel(name) {
      WroteOne(s, fd, Numeric(403, [s.clients[fd].nick, name]));
    } else if name in s.channels && Bar(s.channels[name], fd, s.clients[fd].nick, name, key) != [] {
      WroteOne(s, fd, Bar(s.channels[name], fd, s.clients[fd].nick, name, key)[0]);
    }
  }

  /** An outsider is let into an existing channel exactly when it has the key that +k
      asks for, the invitation that +i asks for, and the place that +l asks for. */
  lemma LetInIff(s: State, fd: int, name: string, key: Option<string>)
    requires Inv(s) && fd in s.clients && s.clients[fd].Registered()
    requires NamesChannel(name) && name in s.channels && !IsMember(s, fd, name)
    ensures var c, t := s.channels[name], JoinSpec.JoinOne(s, fd, name, key);
      IsMember(t, fd, name) <==>
        && (c.keyOn ==> key == Some(c.key))
        && (c.inviteOn ==> fd in c.invites)
        && (c.limitOn ==> |c.members| < c.limit)
  {
    JoinSpec.JoinOneEffect(s, fd, name, key);
  }

  /** A channel that nobody has founded: fd is its operator and its only member, and all
      its modes are off. */
  function Founded(name: string, fd: int): ChannelRec {
    ChannelRec(name, [fd], [fd], [], "", "", false, false, false, false, 0)
  }

  lemma JoinChannels(s: State, fd: int, name: string, key: Option<string>)
    requires Inv(s) && fd in s.clients && s.clients[fd].Registered() && NamesChannel(name)
    ensures var t := JoinSpec.JoinOne(s, fd, name, key);
      && (name !in s.channels ==> t.channels == s.channels[name := Founded(name, fd)])
      && (name in s.channels && Bar(s.channels[name], fd, s.clients[fd].nick, name, key) == [] ==>
            t.channels == s.channels[name := s.channels[name].(members := s.channels[name].members + [fd])])
  {
    JoinSpec.JoinOneEffect(s, fd, name, key);
    assert [] + [fd] == [fd];
  }

  /** The members before, each with whether it is marked as operator, and the newcomer. */
  function Listed(s: State, fd: int, name: string): seq<(bool, string)>
    requires fd in s.clients
  {
    var c := if name in s.channels then s.channels[name] else Founded(name, fd).(members := []);
    seq(|c.members|, i requires 0 <= i < |c.members| =>
      if c.members[i] in s.clients
      then (s.clients[c.members[i]].fd in c.operators, s.clients[c.members[i]].nick) else (false, "*"))
    + [(s.clients[fd].fd in c.operators, s.clients[fd].nick)]
  }

  /** Whoever is let in: the lines that everybody gets, and the two changes to the newcomer. */
  lemma JoinOutcome(s: State, fd: int, name: string, key: Option<string>)
    requires Inv(s) && fd in s.clients && s.clients[fd].Registered() && NamesChannel(name)
    requires name in s.channels ==> Bar(s.channels[name], fd, s.clients[fd].nick, name, key) == []
    ensures var me, t := s.clients[fd], JoinSpec.JoinOne(s, fd, name, key);
      var topic, line := if name in s.channels then s.channels[name].topic else "", Relay(Sender(me), JOIN, [name, ""]);
      && t.password == s.password && t.clients.Keys == s.clients.Keys
      && (forall g | g in s.clients && g != fd :: t.clients[g] == s.clients[g].(
            out := s.clients[g].out + if IsMember(s, g, name) then [line] else []))
      && t.clients[fd] == me.(chans := me.chans + [name], out := me.out + [line]
           + ((if topic == "" then [] else [Numeric(332, [me.nick, name, topic[1..]])])
              + [NameList(me.nick, name, Listed(s, fd, name)), Numeric(366, [me.nick, name])]))
  {
    JoinSpec.JoinTells(s, fd, name, key);
    ListedIs(s, fd, name);
  }

  lemma ListedIs(s: State, fd: int, name: string)
    requires Inv(s) && fd in s.clients && !IsMember(s, fd, name)
    ensures Listed(s, fd, name)
         == JoinSpec.NameEntries(s, name) + [(name !in s.channels && s.clients[fd].fd == fd, s.clients[fd].nick)]
  {
    assert ClientOk(s, fd);
    if name in s.channels {
      assert ChannelOk(s, name);
      assert forall g | g in s.channels[name].operators :: g in s.channels[name].members;
      assert forall g | g in s.channels[name].members :: g in s.clients && ClientOk(s, g);
      assert forall i | 0 <= i < |s.channels[name].members| :: s.channels[name].members[i] in s.channels[name].members;
    }
  }

  lemma JoinTooShort(s: State, fd: int, cmd: seq<string>)
    requires fd in s.clients && |cmd| < 2
    ensures Wrote(s, JoinSpec.Join(s, fd, cmd), fd, [Numeric(461, [])])
  {
    WroteOne(s, fd, Numeric(461, []));
  }

  /** One JOIN after the other, each with its key as long as there are keys. */
  function Each(s: State, fd: int, names: seq<string>, keys: seq<string>): State
    decreases |names|
  {
    if names == [] then s
    else Each(JoinSpec.Join(s, fd, if keys == [] then ["JOIN", names[0]] else ["JOIN", names[0], keys[0]]), fd,
              names[1..], if keys == [] then [] else keys[1..])
  }

  lemma {:induction false} SinglesAreEach(s: State, fd: int, names: seq<string>, keys: seq<string>,
                                          pairs: seq<Option<string>>)
    requires |pairs| == |names|
    requires forall i | 0 <= i < |names| :: pairs[i] == if i < |keys| then Some(keys[i]) else None
    ensures JoinSpec.Singles(s, fd, names, pairs) == Each(s, fd, names, keys)
    decreases |names|
  {
    if names != [] {
      SinglesAreEach(JoinSpec.Join(s, fd, JoinSpec.SingleCommand(names[0], pairs[0])), fd, names[1..],
                     if keys == [] then [] else keys[1..], pairs[1..]);
    }
  }

  /** One channel: the name may have a comma behind it, the key is the whole parameter. */
  lemma JoinSingle(s: State, fd: int, cmd: seq<string>)
    requires |cmd| >= 2 && (',' !in cmd[1] || |Split(cmd[1], ',')| == 1)
    ensures JoinSpec.Join(s, fd, cmd)
         == JoinSpec.JoinOne(s, fd, if ',' in cmd[1] then Split(cmd[1], ',')[0] else cmd[1],
                             if |cmd| == 2 then None else Some(cmd[2]))
  {
    var names, keys := JoinSpec.Names(cmd), JoinSpec.Paired(cmd);
    assert |names| == 1 && names[1..] == [] && keys[1..] == [];
    var t := JoinSpec.JoinOne(s, fd, names[0], keys[0]);
    assert JoinSpec.JoinAll(t, fd, names[1..], keys[1..], JoinSpec.Keys(cmd) == []) == t;
  }

  /** A list of channels and a list of keys are worked through in step, each channel with
      the key in the same place. */
  lemma JoinListOutcome(s: State, fd: int, cmd: seq<string>)
    requires Inv(s) && fd in s.clients && s.clients[fd].Registered()
    requires |cmd| >= 3 && ',' in cmd[1] && |Split(cmd[1], ',')| > 1
    ensures JoinSpec.Join(s, fd, cmd)
         == Each(s, fd, Split(cmd[1], ','), if cmd[2] == "" then [""] else Split(cmd[2], ','))
  {
    JoinSpec.ListIsSingles(s, fd, cmd);
    SinglesAreEach(s, fd, Split(cmd[1], ','), if cmd[2] == "" then [""] else Split(cmd[2], ','), JoinSpec.Paired(cmd));
  }

  /** One JOIN without a key after the other, until a channel asks for one. */
  function UntilKeyed(s: State, fd: int, names: seq<string>): State
    decreases |names|
  {
    if names == [] then s
    else
      var t := JoinSpec.Join(s, fd, ["JOIN", names[0]]);
      if NamesChannel(names[0]) && names[0] in s.channels && !IsMember(s, fd, names[0]) && s.channels[names[0]].keyOn
      then t else UntilKeyed(t, fd, names[1..])
  }

  lemma {:induction false} UntilKeyedIs(s: State, fd: int, names: seq<string>, keys: seq<Option<string>>)
    requires |keys| == |names| && (forall k | k in keys :: k == None) && forall n | n in names :: ',' !in n
    ensures JoinSpec.JoinAll(s, fd, names, keys, true) == UntilKeyed(s, fd, names)
    decreases |names|
  {
    if names != [] {
      JoinSingle(s, fd, ["JOIN", names[0]]);
      assert names[0] in names && keys[0] in keys;
      assert (forall k | k in keys[1..] :: k in keys) && forall n | n in names[1..] :: n in names;
      UntilKeyedIs(JoinSpec.JoinOne(s, fd, names[0], None), fd, names[1..], keys[1..]);
    }
  }

  /** A list of channels without keys ends at the first one that asks for a key. */
  lemma JoinKeylessOutcome(s: State, fd: int, cmd: seq<string>)
    requires |cmd| == 2 && ',' in cmd[1] && |Split(cmd[1], ',')| > 1
    ensures JoinSpec.Join(s, fd, cmd) == UntilKeyed(s, fd, Split(cmd[1], ','))
  {
    SplitRejoins(cmd[1], ',');
    UntilKeyedIs(s, fd, Split(cmd[1], ','), JoinSpec.Paired(cmd));
  }

  // ---- leaving -------------------------------------------------------------

  lemma PartTooShort(s: State, fd: int, cmd: seq<string>)
    requires fd in s.clients && |cmd| < 2
    ensures Wrote(s, PartSpec.Part(s, fd, cmd), fd, [Numeric(461, [])])
  {
    WroteOne(s, fd, Numeric(461, []));
  }

  lemma KickTooShort(s: State, fd: int, cmd: seq<string>)
    requires fd in s.clients && |cmd| < 3
    ensures Wrote(s, KickSpec.Kick(s, fd, cmd), fd, [Numeric(461, [])])
  {
    WroteOne(s, fd, Numeric(461, []));
  }

  function WithoutOne(c: ChannelRec, fd: int): ChannelRec {
    c.(members := Drop(c.members, fd), operators := Drop(c.operators, fd))
  }

  /** QUIT: the client goes; its channels lose it and nothing else, and those it was alone
      in go with it; the others get its reason once for each channel in common. */
  lemma QuitOutcome(s: State, fd: int, cmd: seq<string>)
    requires Inv(s) && fd in s.clients
    ensures var c, t := s.clients[fd], QuitSpec.Quit(s, fd, cmd);
      && t.password == s.password && t.clients.Keys == s.clients.Keys - {fd}
      && (forall n :: n in t.channels <==> n in s.channels && s.channels[n].members != [fd])
      && (forall n | n in t.channels :: t.channels[n] == WithoutOne(s.channels[n], fd))
      && forall g | g in t.clients :: t.clients[g] == s.clients[g].(out := s.clients[g].out
           + Repeat(Relay(Sender(c), QUIT, [ChannelMessage(1, cmd)]),
                    |set n | n in c.chans && IsMember(s, g, n)|))
  {
    forall n | n in s.channels ensures QuitSpec.Alone(s.channels[n], fd) <==> s.channels[n].members == [fd] {
      assert ChannelOk(s, n);
      QuitSpec.AloneMeans(s.channels[n], fd);
    }
    var t := QuitSpec.Quit(s, fd, cmd);
    forall g | g in t.clients
      ensures t.clients[g] == s.clients[g].(out := s.clients[g].out
           + Repeat(Relay(Sender(s.clients[fd]), QUIT, [ChannelMessage(1, cmd)]),
                    |set n | n in s.clients[fd].chans && IsMember(s, g, n)|))
    {
      QuitSpec.QuitLines(s, fd, cmd, g);
    }
  }

  /** A lost connection: the channels it was in lose it, its invitation included, and stay;
      nobody is told. */
  lemma DisconnectOutcome(s: State, fd: int)
    requires Inv(s) && fd in s.clients
    ensures var t := QuitSpec.Disconnect(s, fd);
      && t.password == s.password && t.clients == s.clients - {fd} && t.channels.Keys == s.channels.Keys
      && forall n | n in s.channels :: t.channels[n]
           == if IsMember(s, fd, n)
              then WithoutOne(s.channels[n], fd).(invites := Drop(s.channels[n].invites, fd)) else s.channels[n]
  {
    assert ClientOk(s, fd);
    forall n | n in s.channels ensures n in s.clients[fd].chans <==> IsMember(s, fd, n) {
      assert ChannelOk(s, n);
    }
  }

  // ---- TOPIC ---------------------------------------------------------------

  /** The new topic, read off the words. */
  function Title(cmd: seq<string>): string
    requires |cmd| > 2
  {
    var joined := JoinWords(cmd[2..]);
    if cmd[2] == ":" then "" else if joined != "" && joined[0] == ':' then joined[1..] else joined
  }

  lemma TopicOutcome(s: State, fd: int, cmd: seq<string>)
    requires Inv(s) && fd in s.clients
    ensures var me, t := s.clients[fd].nick, TopicSpec.Topic(s, fd, cmd);
      if |cmd| < 2 then Wrote(s, t, fd, [Numeric(461, [])])
      else if cmd[1] !in s.channels then Wrote(s, t, fd, [Numeric(403, [me, cmd[1]])])
      else
        var c := s.channels[cmd[1]];
        if fd !in c.members then Wrote(s, t, fd, [Numeric(442, [me, cmd[1]])])
        else if |cmd| == 2 && c.topic == "" then Wrote(s, t, fd, [Numeric(331, [me, cmd[1]])])
        else if |cmd| == 2 then Wrote(s, t, fd, [Numeric(332, [me, cmd[1], c.topic])])
        else if c.topicOn && fd !in c.operators then Wrote(s, t, fd, [Numeric(482, [me, cmd[1]])])
        else
          && t.password == s.password && t.clients.Keys == s.clients.Keys
          && t.channels == s.channels[cmd[1] := c.(topic := Title(cmd))]
          && forall g | g in s.clients :: t.clients[g] == s.clients[g].(out := s.clients[g].out
               + if g in c.members then [Relay(ServerOrigin, TOPIC, [cmd[1], Title(cmd)])] else [])
  {
    WroteOne(s, fd, TopicSpec.Answer(s, fd, cmd));
  }

  // ---- INVITE --------------------------------------------------------------

  /** The answers that refuse an INVITE, in the order in which they are tried. */
  function Declined(s: State, fd: int, cmd: seq<string>): seq<Reply>
    requires fd in s.clients
  {
    var me := s.clients[fd];
    if |cmd| < 3 then [Numeric(461, [])]
    else if Find(s.clients, cmd[1]).None? then [Numeric(401, [me.nick, cmd[1]])]
    else if cmd[2] !in s.channels then [Numeric(403, [me.nick, cmd[2]])]
    else
      var c := s.channels[cmd[2]];
      if me.fd !in c.members then [Numeric(442, [me.nick, cmd[2]])]
      else if me.fd !in c.operators then [Numeric(482, [me.nick, cmd[2]])]
      else if s.clients[Find(s.clients, cmd[1]).value].fd in c.members then [Numeric(443, [me.nick, cmd[1], cmd[2]])]
      else []
  }

  /** INVITE: the target is told by whom and where to, the issuer that it was done, and the
      target's stored descriptor is written down. */
  lemma InviteOutcome(s: State, fd: int, cmd: seq<string>)
    requires Inv(s) && fd in s.clients
    ensures var me, t := s.clients[fd], InviteSpec.Invite(s, fd, cmd);
      if Declined(s, fd, cmd) != [] then Wrote(s, t, fd, Declined(s, fd, cmd))
      else
        var g, n := Find(s.clients, cmd[1]).value, cmd[2];
        && g != fd && t.password == s.password
        && t.channels == s.channels[n := s.channels[n].(invites := Add(s.channels[n].invites, s.clients[g].fd))]
        && t.clients == s.clients[
             g := s.clients[g].(
               out := s.clients[g].out + [Relay(NickOrigin(me.nick), INVITE, [s.clients[g].nick, n])])][
             fd := me.(out := me.out + [Numeric(341, [me.nick, cmd[1], n])])]
  {
    if Declined(s, fd, cmd) != [] {
      WroteOne(s, fd, Declined(s, fd, cmd)[0]);
    }
  }

  // ---- PRIVMSG -------------------------------------------------------------

  /** What g is written for the targets: in a channel of the sender's everybody else gets
      the text, a nickname gets it with the sender's nickname in the place of its own, and
      a channel the sender is not in ends the command. */
  function Mail(s: State, fd: int, g: int, targets: seq<string>, text: string): seq<Reply>
    requires fd in s.clients
  {
    if targets == [] then []
    else
      var me, target := s.clients[fd], targets[0];
      if NamesChannel(target) && !IsMember(s, fd, target)
      then if g == fd then [Numeric(404, [me.nick, target])] else []
      else
        (if NamesChannel(target)
         then if IsMember(s, g, target) && g != fd then [Relay(Sender(me), PRIVMSG, [target, text])] else []
         else if Find(s.clients, target) == Some(g) then [Relay(Sender(me), PRIVMSG, [me.nick, text])] else [])
        + Mail(s, fd, g, targets[1..], text)
  }

  /** Only output has been written. */
  ghost predicate OnlyMail(s: State, t: State) {
    && t.password == s.password && t.channels == s.channels && t.clients.Keys == s.clients.Keys
    && forall g | g in s.clients :: t.clients[g] == s.clients[g].(out := t.clients[g].out)
  }

  lemma MailAgrees(s: State, t: State, fd: int, g: int, targets: seq<string>, text: string)
    requires OnlyMail(s, t) && fd in s.clients
    ensures Mail(t, fd, g, targets, text) == Mail(s, fd, g, targets, text)
  {
    if targets != [] {
      FindAgrees(s.clients, t.clients, targets[0]);
      MailAgrees(s, t, fd, g, targets[1..], text);
    }
  }

  /** The channels a client lists are the ones it is in. */
  lemma ListsItsChannels(s: State, fd: int, n: string)
    requires Inv(s) && fd in s.clients
    ensures n in s.clients[fd].chans <==> IsMember(s, fd, n)
    ensures n in s.channels ==> NoDup(s.channels[n].members)
  {
    assert ClientOk(s, fd);
    if n in s.channels {
      assert ChannelOk(s, n);
    }
  }

  /** What the first target brings g. */
  function FirstMail(s: State, fd: int, g: int, target: string, text: string): seq<Reply>
    requires fd in s.clients
  {
    var me := s.clients[fd];
    if NamesChannel(target) && !IsMember(s, fd, target) then if g == fd then [Numeric(404, [me.nick, target])] else []
    else if NamesChannel(target)
    then if IsMember(s, g, target) && g != fd then [Relay(Sender(me), PRIVMSG, [target, text])] else []
    else if Find(s.clients, target) == Some(g) then [Relay(Sender(me), PRIVMSG, [me.nick, text])] else []
  }

  lemma SendOneOutcome(s: State, fd: int, target: string, text: string)
    requires Inv(s) && fd in s.clients
    ensures var (t, more) := PrivmsgSpec.SendOne(s, fd, target, text);
      && OnlyMail(s, t) && more == !(NamesChannel(target) && !IsMember(s, fd, target))
      && forall g | g in s.clients :: t.clients[g].out == s.clients[g].out + FirstMail(s, fd, g, target, text)
  {
    ListsItsChannels(s, fd, target);
    if NamesChannel(target) {
      if IsMember(s, fd, target) {
        ToChannel(s, fd, target, text);
      } else {
        WroteOne(s, fd, Numeric(404, [s.clients[fd].nick, target]));
      }
    } else if Find(s.clients, target).Some? {
      WroteOne(s, Find(s.clients, target).value, Relay(Sender(s.clients[fd]), PRIVMSG, [s.clients[fd].nick, text]));
    }
  }

  lemma ToChannel(s: State, fd: int, target: string, text: string)
    requires Inv(s) && fd in s.clients && NamesChannel(target) && IsMember(s, fd, target)
    requires target in s.clients[fd].chans
    ensures var (t, more) := PrivmsgSpec.SendOne(s, fd, target, text);
      && OnlyMail(s, t) && more
      && forall g | g in s.clients :: t.clients[g].out == s.clients[g].out + FirstMail(s, fd, g, target, text)
  {
    ListsItsChannels(s, fd, target);
    DropNoDup(s.channels[target].members, fd);
  }

  lemma MailIs(s: State, fd: int, g: int, targets: seq<string>, text: string)
    requires fd in s.clients && targets != []
    ensures Mail(s, fd, g, targets, text) == FirstMail(s, fd, g, targets[0], text)
      + if NamesChannel(targets[0]) && !IsMember(s, fd, targets[0]) then [] else Mail(s, fd, g, targets[1..], text)
  {
  }

  lemma {:induction false} SendAllOutcome(s: State, fd: int, targets: seq<string>, text: string, g: int)
    requires Inv(s) && fd in s.clients && g in s.clients
    ensures var t := PrivmsgSpec.SendAll(s, fd, targets, text);
      OnlyMail(s, t) && t.clients[g].out == s.clients[g].out + Mail(s, fd, g, targets, text)
    decreases |targets|
  {
    if targets == [] {
      assert s.clients[g].out + [] == s.clients[g].out;
    } else {
      var (m, more) := PrivmsgSpec.SendOne(s, fd, targets[0], text);
      SendOneOutcome(s, fd, targets[0], text);
      MailIs(s, fd, g, targets, text);
      if more {
        MailKeepsInv(s, m);
        SendAllOutcome(m, fd, targets[1..], text, g);
        MailAgrees(s, m, fd, g, targets[1..], text);
        Regrouped(s.clients[g].out, FirstMail(s, fd, g, targets[0], text), Mail(s, fd, g, targets[1..], text));
      } else {
        assert FirstMail(s, fd, g, targets[0], text) + [] == FirstMail(s, fd, g, targets[0], text);
      }
    }
  }

  lemma MailKeepsInv(s: State, t: State)
    requires Inv(s) && OnlyMail(s, t)
    ensures Inv(t)
  {
    forall g | g in s.clients ensures Quiet(s.clients[g], t.clients[g]) {
    }
    OutputKeepsInv(s, t);
  }

  /** PRIVMSG works through all of its targets, up to a channel the sender is not in. */
  lemma PrivmsgOutcome(s: State, fd: int, cmd: seq<string>, g: int)
    requires Inv(s) && fd in s.clients && g in s.clients
    ensures var t := PrivmsgSpec.Privmsg(s, fd, cmd);
      if |cmd| < 3 then Wrote(s, t, fd, [Numeric(461, [])])
      else
        && OnlyMail(s, t)
        && t.clients[g].out == s.clients[g].out + Mail(s, fd, g, Split(cmd[1], ','), ChannelMessage(2, cmd))
  {
    if |cmd| < 3 {
      WroteOne(s, fd, Numeric(461, []));
    } else {
      SendAllOutcome(s, fd, Split(cmd[1], ','), ChannelMessage(2, cmd), g);
    }
  }

  // ---- MODE ----------------------------------------------------------------

  /** MODE when it changes nothing: a question is answered with the flags t, i, l, k in
      this order, the key for an operator only, and the limit. What it changes otherwise
      is said by ModeReference.ModeIsItsOrders. */
  lemma ModeAnswers(s: State, fd: int, cmd: seq<string>)
    requires fd in s.clients
    ensures var me, t := s.clients[fd].nick, ModeSpec.Mode(s, fd, cmd);
      if |cmd| < 2 then Wrote(s, t, fd, [Numeric(461, [])])
      else if me == cmd[1] then t == s
      else if cmd[1] !in s.channels then Wrote(s, t, fd, [Numeric(403, [me, cmd[1]])])
      else
        var c := s.channels[cmd[1]];
        if |cmd| == 2 then Wrote(s, t, fd, [ModeIs(me, cmd[1],
          (if c.topicOn then "t" else "") + (if c.inviteOn then "i" else "") + (if c.limitOn then "l" else "")
            + (if c.keyOn then "k" else ""),
          if !c.keyOn then None else Some(if fd in c.operators then c.key else "<key>"),
          if c.limitOn then Some(c.limit) else None)])
        else if |cmd[2]| == 1 then t == s
        else fd !in c.operators ==> Wrote(s, t, fd, [Numeric(482, [me, cmd[1]])])
  {
    WroteOne(s, fd, Numeric(461, []));
    if |cmd| >= 2 {
      WroteOne(s, fd, Numeric(403, [s.clients[fd].nick, cmd[1]]));
      WroteOne(s, fd, Numeric(482, [s.clients[fd].nick, cmd[1]]));
      WroteOne(s, fd, ModeSpec.Describe(s, fd, cmd[1]));
    }
  }

  function Pow10(n: nat): nat {
    if n == 0 then 1 else 10 * Pow10(n - 1)
  }

  lemma TenTimes(d: int, p: int, n: int)
    ensures 10 * (d * p + n) == d * (10 * p) + 10 * n
  {
  }

  /** A number is read the usual way: the first digit weighs most. */
  lemma {:induction false} NumberIs(d: char, w: string)
    requires '0' <= d <= '9' && ModeSpec.AllDigits(w)
    ensures ModeSpec.AllDigits([d] + w)
    ensures ModeSpec.Decimal([d] + w) == (d as int - '0' as int) * Pow10(|w|) + ModeSpec.Decimal(w)
  {
    if w == "" {
      assert [d] + w == [d] && [d][..0] == "";
    } else {
      var front, last := w[..|w| - 1], w[|w| - 1];
      NumberIs(d, front);
      assert front + [last] == w;
      NumberStep(front, last);
      assert [d] + front + [last] == [d] + w;
      NumberStep([d] + front, last);
      NumberGrows(d as int - '0' as int, |front|, ModeSpec.Decimal(front), last as int - '0' as int);
    }
  }

  /** A number is made of the ten digits, and no digits are nought. */
  lemma DigitsIff(w: string)
    ensures ModeSpec.AllDigits(w) <==> forall c | c in w :: c in "0123456789"
    ensures ModeSpec.Decimal("") == 0
  {
    if forall c | c in w :: c in "0123456789" {
      forall i | 0 <= i < |w| ensures '0' <= w[i] <= '9' {
        assert w[i] in w;
      }
    }
  }

  lemma NumberGrows(d: int, k: nat, n: int, e: int)
    ensures 10 * (d * Pow10(k) + n) + e == d * Pow10(k + 1) + (10 * n + e)
  {
    TenTimes(d, Pow10(k), n);
  }

  lemma NumberStep(front: string, last: char)
    requires ModeSpec.AllDigits(front) && '0' <= last <= '9'
    ensures ModeSpec.AllDigits(front + [last])
    ensures ModeSpec.Decimal(front + [last]) == 10 * ModeSpec.Decimal(front) + (last as int - '0' as int)
  {
    assert (front + [last])[..|front|] == front;
  }

  // ---- which word is which command -----------------------------------------

  /** The verb of every word. */
  function Meaning(word: string): Verb {
    if word == "PASS" then PASS else if word == "NICK" then NICK else if word == "USER" then USER
    else if word == "PRIVMSG" then PRIVMSG else if word == "QUIT" then QUIT else if word == "PART" then PART
    else if word == "JOIN" then JOIN else if word == "KICK" then KICK else if word == "MODE" then MODE
    else if word == "TOPIC" then TOPIC else if word == "INVITE" then INVITE else if word == "LIST" then LIST
    else if word == "PING" then PING else if word == "WHOIS" then WHOIS else if word == "WHO" then WHO
    else UNKNOWN
  }

  lemma VerbOfKnown(word: string, k: nat)
    requires k < |Protocol.COMMANDS| && Protocol.COMMANDS[k].0 == word
    ensures Protocol.VerbOf(word) == Protocol.COMMANDS[k].1
  {
    Protocol.Vocabulary(k);
  }

  lemma VerbIs(word: string)
    ensures Protocol.VerbOf(word) == Meaning(word)
  {
    if word == "USER" { VerbOfKnown(word, 0); }
    else if word == "NICK" { VerbOfKnown(word, 1); }
    else if word == "PASS" { VerbOfKnown(word, 2); }
    else if word == "PRIVMSG" { VerbOfKnown(word, 3); }
    else if word == "QUIT" { VerbOfKnown(word, 4); }
    else if word == "PART" { VerbOfKnown(word, 5); }
    else if word == "JOIN" { VerbOfKnown(word, 6); }
    else if word == "KICK" { VerbOfKnown(word, 7); }
    else if word == "MODE" { VerbOfKnown(word, 8); }
    else if word == "TOPIC" { VerbOfKnown(word, 9); }
    else if word == "INVITE" { VerbOfKnown(word, 10); }
    else if word == "LIST" { VerbOfKnown(word, 11); }
    else if word == "PING" { VerbOfKnown(word, 12); }
    else if word == "WHOIS" { VerbOfKnown(word, 13); }
    else if word == "WHO" { VerbOfKnown(word, 14); }
    else { Protocol.LookupNone(word, Protocol.COMMANDS); }
  }

  /** The words of a registered client are executed by the first of them, */
  lemma FirstWordDecides(s: State, fd: int, cmd: seq<string>)
    requires fd in s.clients && s.clients[fd].Registered() && cmd != []
    ensures Protocol.Execute(s, fd, cmd) == Protocol.SignIn(s, fd, Meaning(cmd[0]), cmd)
  {
    VerbIs(cmd[0]);
  }

  /** each verb by its own command: about the client itself, */
  lemma OwnVerbs(s: State, fd: int, cmd: seq<string>)
    ensures Protocol.SignIn(s, fd, PASS, cmd) == PassSpec.Pass(s, fd, cmd)
    ensures Protocol.SignIn(s, fd, NICK, cmd) == NickSpec.Nick(s, fd, cmd)
    ensures Protocol.SignIn(s, fd, USER, cmd) == UserSpec.User(s, fd, cmd)
  {
  }

  /** about who is in which channel, */
  lemma MembershipVerbs(s: State, fd: int, cmd: seq<string>)
    ensures Protocol.SignIn(s, fd, QUIT, cmd) == QuitSpec.Quit(s, fd, cmd)
    ensures Protocol.SignIn(s, fd, PART, cmd) == PartSpec.Part(s, fd, cmd)
    ensures Protocol.SignIn(s, fd, KICK, cmd) == KickSpec.Kick(s, fd, cmd)
  {
  }

  lemma VerbJoin(s: State, fd: int, cmd: seq<string>)
    ensures Protocol.SignIn(s, fd, JOIN, cmd) == JoinSpec.Join(s, fd, cmd)
  {
  }

  /** about channels and messages, */
  lemma ChannelVerbs(s: State, fd: int, cmd: seq<string>)
    ensures Protocol.SignIn(s, fd, PRIVMSG, cmd) == PrivmsgSpec.Privmsg(s, fd, cmd)
    ensures Protocol.SignIn(s, fd, MODE, cmd) == ModeSpec.Mode(s, fd, cmd)
    ensures Protocol.SignIn(s, fd, TOPIC, cmd) == TopicSpec.Topic(s, fd, cmd)
    ensures Protocol.SignIn(s, fd, INVITE, cmd) == InviteSpec.Invite(s, fd, cmd)
  {
  }

  /** or at once: LIST sends what waits, WHO and WHOIS do nothing, and anything else is
      answered as unknown. */
  lemma VerbsAnswer(s: State, fd: int, cmd: seq<string>)
    requires fd in s.clients && cmd != []
    ensures Protocol.SignIn(s, fd, LIST, cmd) == s.(clients := s.clients[fd := s.clients[fd].(out := [])])
    ensures Protocol.SignIn(s, fd, WHO, cmd) == s && Protocol.SignIn(s, fd, WHOIS, cmd) == s
    ensures Wrote(s, Protocol.SignIn(s, fd, UNKNOWN, cmd), fd, [Numeric(421, [s.clients[fd].nick, cmd[0]])])
  {
    WroteOne(s, fd, Numeric(421, [s.clients[fd].nick, cmd[0]]));
  }

  /** PING is answered with its token. */
  lemma VerbPing(s: State, fd: int, cmd: seq<string>)
    requires fd in s.clients
    ensures Wrote(s, Protocol.SignIn(s, fd, PING, cmd), fd,
                  if |cmd| < 2 then [Numeric(461, []), Usage(PING)] else [Pong(cmd[1])])
  {
    PingOutcome(s, fd, cmd);
  }

  lemma PingOutcome(s: State, fd: int, cmd: seq<string>)
    requires fd in s.clients
    ensures Wrote(s, Protocol.Ping(s, fd, cmd), fd,
                  if |cmd| < 2 then [Numeric(461, []), Usage(PING)] else [Pong(cmd[1])])
  {
    if |cmd| >= 2 {
      WroteOne(s, fd, Pong(cmd[1]));
    } else {
      WroteTwo(s, fd, Numeric(461, []), Usage(PING));
    }
  }

  /** A line without a word does nothing. */
  lemma NoWord(s: State, fd: int)
    requires fd in s.clients
    ensures Protocol.Execute(s, fd, []) == s
  {
  }

  /** A client that is complete now is greeted. */
  function Greeted(s: State, fd: int): State {
    if fd in s.clients && s.clients[fd].passOk && s.clients[fd].nickOk && s.clients[fd].userOk
    then s.(clients := s.clients[fd := s.clients[fd].(out := s.clients[fd].out
              + [Welcome(s.clients[fd].nick, s.clients[fd].user, s.clients[fd].host)])])
    else s
  }

  lemma GreetIs(s: State, fd: int)
    ensures Protocol.Greet(s, fd) == Greeted(s, fd)
  {
  }

  lemma WordEnrols(s: State, fd: int, cmd: seq<string>)
    requires fd in s.clients && !s.clients[fd].Registered() && cmd != []
    ensures Protocol.Execute(s, fd, cmd) == Greeted(Protocol.Enrol(s, fd, Meaning(cmd[0]), cmd), fd)
  {
    VerbIs(cmd[0]);
    GreetIs(Protocol.Enrol(s, fd, Meaning(cmd[0]), cmd), fd);
  }

  lemma EnrolIs(s: State, fd: int, cmd: seq<string>)
    requires cmd != []
    ensures Protocol.Enrol(s, fd, Meaning(cmd[0]), cmd)
         == if cmd[0] == "PASS" then PassSpec.Pass(s, fd, cmd) else if cmd[0] == "NICK" then NickSpec.Nick(s, fd, cmd)
            else if cmd[0] == "USER" then UserSpec.User(s, fd, cmd) else s.(clients := s.clients - {fd})
  {
  }

  /** Before that, PASS, NICK and USER are executed, and any other word costs the connection. */
  lemma SigningUpOutcome(s: State, fd: int, cmd: seq<string>)
    requires fd in s.clients && !s.clients[fd].Registered()
    ensures var t := Protocol.Execute(s, fd, cmd);
      && (cmd == [] ==> t == s)
      && (cmd != [] && cmd[0] == "PASS" ==> t == Greeted(PassSpec.Pass(s, fd, cmd), fd))
      && (cmd != [] && cmd[0] == "NICK" ==> t == Greeted(NickSpec.Nick(s, fd, cmd), fd))
      && (cmd != [] && cmd[0] == "USER" ==> t == Greeted(UserSpec.User(s, fd, cmd), fd))
      && (cmd != [] && cmd[0] !in {"PASS", "NICK", "USER"} ==> t == s.(clients := s.clients - {fd}))
  {
    if cmd == [] {
      NoWord(s, fd);
    } else {
      WordEnrols(s, fd, cmd);
      EnrolIs(s, fd, cmd);
    }
  }

  /** A client has completed the sign-up with all three. */
  lemma CompleteIff(c: ClientRec)
    ensures c.Registered() <==> c.passOk && c.nickOk && c.userOk
  {
  }

  // ---- events --------------------------------------------------------------

  /** Containing a text is having it between two others. */
  lemma ContainsIff(s: string, t: string)
    ensures Contains(s, t) <==> exists a: string, b: string :: s == a + t + b
  {
    if Contains(s, t) {
      var i :| 0 <= i <= |s| - |t| && t <= s[i..];
      assert s == s[..i] + t + s[i + |t|..];
    }
    if a: string, b: string :| s == a + t + b {
      assert t <= s[|a|..];
    }
  }

  function Blank(fd: int): ClientRec {
    ClientRec(fd, "*", "", "", "", "", false, false, false, [], [], "", false)
  }

  /** A new connection gets a blank client, unless the descriptor has one; a lost one is
      disconnected, and if it was a read that failed, a blank client without descriptor
      and with a fragment pending takes its place; a flush empties what waits. */
  lemma ConnectionOutcome(s: State, fd: int)
    ensures Protocol.Step(s, Protocol.Accept(fd))
         == if fd in s.clients then s else s.(clients := s.clients[fd := Blank(fd)])
    ensures Protocol.Step(s, Protocol.Hangup(fd)) == if fd in s.clients then QuitSpec.Disconnect(s, fd) else s
    ensures Protocol.Step(s, Protocol.Closed(fd))
         == var t := QuitSpec.Disconnect(s, fd); t.(clients := t.clients[fd := Blank(-1).(partial := true)])
    ensures var t := Protocol.Step(s, Protocol.Flush);
      && t == s.(clients := t.clients) && t.clients.Keys == s.clients.Keys
      && forall g | g in s.clients :: t.clients[g] == s.clients[g].(out := [])
  {
  }

  /** A message is ignored, kept, or executed with what was kept in front of it. */
  lemma MessageOutcome(s: State, fd: int, text: string)
    requires fd in s.clients && !(Contains(text, "PASS") && Contains(text, "NICK") && Contains(text, "USER"))
    ensures var c, t := s.clients[fd], Protocol.Step(s, Protocol.Message(fd, text));
      && (Contains(text, "CAP LS") ==> t == s)
      && (!Contains(text, "CAP LS") && '\n' !in text ==>
            t == s.(clients := s.clients[fd := c.(held := c.held + text, partial := true)]))
      && (!Contains(text, "CAP LS") && '\n' in text && c.partial ==>
            t == Protocol.Execute(s.(clients := s.clients[fd := c.(held := "", partial := false)]), fd,
                                  Words(c.held + text)))
      && (!Contains(text, "CAP LS") && '\n' in text && !c.partial ==> t == Protocol.Execute(s, fd, Words(text)))
  {
    assert s.clients[fd := s.clients[fd]] == s.clients;
  }

  // ---- words ---------------------------------------------------------------

  /** The words are the pieces between the spaces without the line ends behind them, and
      the small letters of the first one are capitals. */
  lemma WordsAre(text: string, i: nat)
    requires i < |Split(text, ' ')|
    ensures |Words(text)| == |Split(text, ' ')|
    ensures var piece, word := Split(text, ' ')[i], Words(text)[i];
      && |word| <= |piece|
      && (forall k | |word| <= k < |piece| :: piece[k] == '\r' || piece[k] == '\n')
      && (word != "" ==> piece[|word| - 1] != '\r' && piece[|word| - 1] != '\n')
      && forall k | 0 <= k < |word| ::
           word[k] as int == piece[k] as int - if i == 0 && 'a' <= piece[k] <= 'z' then 32 else 0
  {
    var pieces := Split(text, ' ');
    StripAllAt(pieces[1..]);
    StripIs(pieces[i]);
  }

  lemma {:induction false} StripIs(w: string)
    ensures var v := StripEol(w);
      && v <= w && (forall k | |v| <= k < |w| :: w[k] == '\r' || w[k] == '\n')
      && (v != "" ==> v[|v| - 1] != '\r' && v[|v| - 1] != '\n')
  {
    if w != "" && IsEol(w[|w| - 1]) {
      StripIs(w[..|w| - 1]);
    }
  }

  /** An empty text has no pieces. */
  lemma NoPieces(d: char)
    ensures Split("", d) == []
  {
  }

  /** The reason that is relayed: the words behind the others without a colon in front,
      and NO REASON if that leaves nothing. */
  lemma ReasonIs(index: nat, words: seq<string>)
    requires index <= |words|
    ensures var joined, reason := JoinWords(words[index..]), ChannelMessage(index, words);
      && (joined == "" || joined == ":" ==> reason == "NO REASON")
      && (|joined| > 1 && joined[0] == ':' ==> [':'] + reason == joined)
      && (joined != "" && joined[0] != ':' ==> reason == joined)
    ensures index == |words| ==> ChannelMessage(index, words) == "NO REASON"
  {
    assert words[|words|..] == [];
  }

  // ---- which commands stay inside their lists ------------------------------

  /** A channel the sender is not in ends a PRIVMSG. */
  predicate Closing(s: State, fd: int, target: string) {
    NamesChannel(target) && !IsMember(s, fd, target)
  }

  predicate Ownerless(s: State, target: string) {
    !NamesChannel(target) && !Taken(s, target)
  }

  /** A nickname that nobody has stands behind a channel that ends the command. */
  ghost predicate OwnersReached(s: State, fd: int, targets: seq<string>) {
    forall i | 0 <= i < |targets| && Ownerless(s, targets[i]) :: exists j | 0 <= j < i :: Closing(s, fd, targets[j])
  }

  lemma OwnersMore(s: State, fd: int, targets: seq<string>)
    requires targets != []
    ensures OwnersReached(s, fd, targets) <==>
      !Ownerless(s, targets[0]) && (Closing(s, fd, targets[0]) || OwnersReached(s, fd, targets[1..]))
  {
    var rest := targets[1..];
    if OwnersReached(s, fd, targets) && !Closing(s, fd, targets[0]) {
      forall i | 0 <= i < |rest| && Ownerless(s, rest[i]) ensures exists j | 0 <= j < i :: Closing(s, fd, rest[j]) {
        assert targets[i + 1] == rest[i];
        var j :| 0 <= j < i + 1 && Closing(s, fd, targets[j]);
        assert rest[j - 1] == targets[j];
      }
    }
    if OwnersReached(s, fd, rest) && !Ownerless(s, targets[0]) {
      forall i | 0 <= i < |targets| && Ownerless(s, targets[i])
        ensures exists j | 0 <= j < i :: Closing(s, fd, targets[j])
      {
        assert rest[i - 1] == targets[i];
        var j :| 0 <= j < i - 1 && Closing(s, fd, rest[j]);
        assert targets[j + 1] == rest[j];
      }
    }
  }

  /** PRIVMSG stays inside the client map exactly when every nickname that is reached has
      an owner. */
  lemma {:induction false} KnownIff(s: State, fd: int, targets: seq<string>)
    requires Inv(s) && fd in s.clients
    ensures PrivmsgSpec.AllKnown(s, fd, targets) <==> OwnersReached(s, fd, targets)
    decreases |targets|
  {
    if targets != [] {
      KnownIff(s, fd, targets[1..]);
      OwnersMore(s, fd, targets);
      ListsItsChannels(s, fd, targets[0]);
    }
  }

  lemma JoinDefinedIff(cmd: seq<string>)
    requires |cmd| >= 2
    ensures JoinSpec.JoinDefined(cmd) <==>
      (|cmd| >= 3 && ',' in cmd[1] && |Split(cmd[1], ',')| > 1 ==>
        forall i | |if cmd[2] == "" then [""] else Split(cmd[2], ',')| <= i < |Split(cmd[1], ',')| ::
          !NamesChannel(Split(cmd[1], ',')[i]))
  {
    if cmd[1] != "" {
      SplitRejoins(cmd[1], ',');
    }
  }

  /** A registered client must bring nicknames for its KICK, keys for its JOIN and known
      receivers for its PRIVMSG, each as far as they are reached; the rest may be anything. */
  lemma DefinedIff(s: State, fd: int, cmd: seq<string>)
    requires Inv(s) && fd in s.clients && s.clients[fd].Registered() && cmd != []
    ensures Protocol.CommandDefined(s, fd, cmd) <==>
      match Meaning(cmd[0])
      case KICK => |cmd| >= 3 ==>
        var names, nicks := Split(cmd[1], ','), Split(cmd[2], ',');
        || (exists n | n in names && n in s.channels :: fd !in s.channels[n].operators)
        || |names| <= |nicks| || KickSpec.Reach(s, fd, names, nicks) < |nicks|
      case JOIN => |cmd| >= 3 && ',' in cmd[1] && |Split(cmd[1], ',')| > 1 ==>
        forall i | |if cmd[2] == "" then [""] else Split(cmd[2], ',')| <= i < |Split(cmd[1], ',')| ::
          !NamesChannel(Split(cmd[1], ',')[i])
      case PRIVMSG => |cmd| >= 3 ==> OwnersReached(s, fd, Split(cmd[1], ','))
      case _ => true
  {
    VerbIs(cmd[0]);
    if Meaning(cmd[0]) == KICK && |cmd| >= 3 {
      var names, nicks := Split(cmd[1], ','), Split(cmd[2], ',');
      KickSpec.DefinedIff(s, fd, names, nicks, cmd[3..]);
      KickSpec.FirstForeignMeans(s, fd, names);
    } else if Meaning(cmd[0]) == JOIN && |cmd| >= 2 {
      JoinDefinedIff(cmd);
    } else if Meaning(cmd[0]) == PRIVMSG && |cmd| >= 3 {
      KnownIff(s, fd, Split(cmd[1], ','));
    }
  }
}
