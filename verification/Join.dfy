/** JOIN: a list of channels, each with the key at the same place in a second list. */
module JoinSpec {
  import opened Seqs
  import opened IrcState
  import opened Wire

  predicate IsChannelName(name: string) {
    name != "" && (name[0] == '#' || name[0] == '&')
  }

  function Names(cmd: seq<string>): seq<string>
    requires |cmd| >= 2
  {
    if ',' in cmd[1] then Split(cmd[1], ',') else [cmd[1]]
  }

  /** The key list is cut at commas only when there are several channels. */
  function Keys(cmd: seq<string>): seq<string>
    requires |cmd| >= 2
  {
    if |Names(cmd)| > 1 then
      if |cmd| < 3 then [] else if cmd[2] == "" then [""] else Split(cmd[2], ',')
    else if |cmd| < 3 then [""]
    else [cmd[2]]
  }

  /** Each channel's key, if the command has a parameter for keys at all. */
  function Paired(cmd: seq<string>): (keys: seq<Option<string>>)
    requires |cmd| >= 2
    ensures |keys| == |Names(cmd)|
  {
    seq(|Names(cmd)|, i requires 0 <= i < |Names(cmd)| =>
      if |cmd| >= 3 && i < |Keys(cmd)| then Some(Keys(cmd)[i]) else None)
  }

  /** With several channels the keys are what stands between the commas; with one
      channel the whole parameter is its key, commas included. */
  lemma KeysArePieces(cmd: seq<string>)
    requires |cmd| >= 3
    ensures var keys, text := Keys(cmd), cmd[2];
      if ',' in cmd[1] && |Split(cmd[1], ',')| > 1 then
        && keys != [] && (forall k | k in keys :: ',' !in k)
        && Glue(keys, ',') == WithoutLast(text, ',')
      else keys == [text]
  {
    if cmd[2] != "" {
      SplitRejoins(cmd[2], ',');
    }
  }

  function NameEntries(s: State, n: string): seq<(bool, string)> {
    var c := ChannelAt(s, n);
    seq(|c.members|, i requires 0 <= i < |c.members| =>
      (Who(s, c.members[i]).fd in c.operators, Who(s, c.members[i]).nick))
  }

  function SayTopic(s: State, fd: int, n: string): State {
    var topic := ChannelAt(s, n).topic;
    if topic == "" then s else Say(s, fd, Numeric(332, [Who(s, fd).nick, n, topic[1..]]))
  }

  function SayNames(s: State, fd: int, n: string): State {
    Say(Say(s, fd, NameList(Who(s, fd).nick, n, NameEntries(s, n))), fd, Numeric(366, [Who(s, fd).nick, n]))
  }

  function TellJoin(s: State, fd: int, n: string): State {
    Tell(s, ChannelAt(s, n).members, Relay(Who(s, fd).Prefix(), JOIN, [n, ""]))
  }

  function EnterAndTell(s: State, fd: int, n: string): State {
    SayNames(SayTopic(TellJoin(Enter(s, fd, n), fd, n), fd, n), fd, n)
  }

  function CreateAndTell(s: State, fd: int, n: string): State {
    SayNames(TellJoin(Create(s, fd, n), fd, n), fd, n)
  }

  /** Why fd with this key may not enter the channel, or 0. */
  function Refusal(c: ChannelRec, fd: int, key: Option<string>): nat {
    if fd in c.members then 443
    else if c.keyOn && key != Some(c.key) then 475
    else if c.inviteOn && fd !in c.invites then 473
    else if c.limitOn && |c.members| >= c.limit then 471
    else 0
  }

  function RefusalLine(s: State, fd: int, name: string, code: nat): Reply {
    Numeric(code, if code == 443 then [Who(s, fd).nick, Who(s, fd).nick, name] else [Who(s, fd).nick, name])
  }

  function JoinOne(s: State, fd: int, name: string, key: Option<string>): State {
    if !IsChannelName(name) then Say(s, fd, RefusalLine(s, fd, name, 403))
    else if name !in s.channels then CreateAndTell(s, fd, name)
    else
      var code := Refusal(s.channels[name], fd, key);
      if code == 0 then EnterAndTell(s, fd, name) else Say(s, fd, RefusalLine(s, fd, name, code))
  }

  /** A channel that asks for a key ends a command that lists several channels and
      no keys at all. */
  predicate Blocks(s: State, fd: int, name: string) {
    IsChannelName(name) && name in s.channels && fd !in s.channels[name].members && s.channels[name].keyOn
  }

  function JoinAll(s: State, fd: int, names: seq<string>, keys: seq<Option<string>>, keyless: bool): State
    requires |names| == |keys|
    decreases |names|
  {
    if names == [] then s
    else
      var t := JoinOne(s, fd, names[0], keys[0]);
      if keyless && Blocks(s, fd, names[0]) then t else JoinAll(t, fd, names[1..], keys[1..], keyless)
  }

  function Join(s: State, fd: int, cmd: seq<string>): State {
    if |cmd| < 2 then Say(s, fd, Numeric(461, []))
    else JoinAll(s, fd, Names(cmd), Paired(cmd), Keys(cmd) == [])
  }

  /** No key is read past the end of the list: beyond it there are only words that
      are not channel names. */
  predicate JoinDefined(cmd: seq<string>) {
    |cmd| < 3 || forall i | |Keys(cmd)| <= i < |Names(cmd)| :: !IsChannelName(Names(cmd)[i])
  }

  // ---- who gets in ---------------------------------------------------------

  /** The gates of a channel, read off the state before the command. */
  predicate Admits(s: State, fd: int, name: string, key: Option<string>) {
    IsChannelName(name) && (name !in s.channels || Refusal(s.channels[name], fd, key) == 0)
  }

  /** What a channel looks like after fd was let in. */
  function Joined(s: State, fd: int, n: string): ChannelRec {
    var c := if n in s.channels then s.channels[n] else NewChannel(n, fd);
    c.(members := c.members + [fd])
  }

  /** The clients are the same, and fd is one of the registered ones. */
  ghost predicate KeepsClients(s: State, t: State, fd: int) {
    && t.password == s.password && SamePass(s, t) && t.clients.Keys == s.clients.Keys
    && fd in t.clients && t.clients[fd].Registered()
  }

  lemma OutputKeepsClients(s: State, m: State, t: State, fd: int)
    requires KeepsClients(s, m, fd) && OnlyOutput(m, t)
    ensures KeepsClients(s, t, fd) && t.channels == m.channels
  {
    assert Quiet(m.clients[fd], t.clients[fd]);
  }

  lemma SayNamesEffect(s: State, fd: int, n: string)
    requires Inv(s) && fd in s.clients
    ensures Inv(SayNames(s, fd, n)) && OnlyOutput(s, SayNames(s, fd, n))
  {
    var m := Say(s, fd, NameList(Who(s, fd).nick, n, NameEntries(s, n)));
    SayKeepsInv(s, fd, NameList(Who(s, fd).nick, n, NameEntries(s, n)));
    SayKeepsInv(m, fd, Numeric(366, [Who(s, fd).nick, n]));
    OutputTwice(s, m, SayNames(s, fd, n));
  }

  lemma CreateAndTellEffect(s: State, fd: int, n: string)
    requires Inv(s) && fd in s.clients && s.clients[fd].Registered() && n !in s.channels
    ensures var t := CreateAndTell(s, fd, n);
      Inv(t) && KeepsClients(s, t, fd) && t.channels == s.channels[n := Joined(s, fd, n)]
  {
    var t0, t := Create(s, fd, n), CreateAndTell(s, fd, n);
    CreateKeepsInv(s, fd, n);
    TellKeepsInv(t0, ChannelAt(t0, n).members, Relay(Who(t0, fd).Prefix(), JOIN, [n, ""]));
    SayNamesEffect(TellJoin(t0, fd, n), fd, n);
    OutputTwice(t0, TellJoin(t0, fd, n), t);
    OutputKeepsClients(s, t0, t, fd);
  }

  lemma SayTopicEffect(s: State, fd: int, n: string)
    requires Inv(s) && fd in s.clients
    ensures Inv(SayTopic(s, fd, n)) && OnlyOutput(s, SayTopic(s, fd, n))
  {
    if ChannelAt(s, n).topic != "" {
      SayKeepsInv(s, fd, Numeric(332, [Who(s, fd).nick, n, ChannelAt(s, n).topic[1..]]));
    }
  }

  lemma EnterAndTellEffect(s: State, fd: int, n: string)
    requires Inv(s) && fd in s.clients && s.clients[fd].Registered() && n in s.channels && !IsMember(s, fd, n)
    ensures var t := EnterAndTell(s, fd, n);
      Inv(t) && KeepsClients(s, t, fd) && t.channels == s.channels[n := Joined(s, fd, n)]
  {
    var t0, t := Enter(s, fd, n), EnterAndTell(s, fd, n);
    EnterKeepsInv(s, fd, n);
    var t1 := TellJoin(t0, fd, n);
    TellKeepsInv(t0, ChannelAt(t0, n).members, Relay(Who(t0, fd).Prefix(), JOIN, [n, ""]));
    var t2 := SayTopic(t1, fd, n);
    SayTopicEffect(t1, fd, n);
    SayNamesEffect(t2, fd, n);
    OutputTwice(t0, t1, t2);
    OutputTwice(t0, t2, t);
    OutputKeepsClients(s, t0, t, fd);
  }

  /** One channel: it is entered exactly when its gates admit the client, and no
      other channel changes. */
  lemma JoinOneEffect(s: State, fd: int, name: string, key: Option<string>)
    requires Inv(s) && fd in s.clients && s.clients[fd].Registered()
    ensures var t := JoinOne(s, fd, name, key);
      && Inv(t) && KeepsClients(s, t, fd)
      && t.channels == if Admits(s, fd, name, key) then s.channels[name := Joined(s, fd, name)] else s.channels
  {
    if !Admits(s, fd, name, key) {
      var code := if IsChannelName(name) then Refusal(s.channels[name], fd, key) else 403;
      SayKeepsInv(s, fd, RefusalLine(s, fd, name, code));
      OutputKeepsClients(s, s, JoinOne(s, fd, name, key), fd);
    } else if name !in s.channels {
      CreateAndTellEffect(s, fd, name);
    } else {
      EnterAndTellEffect(s, fd, name);
    }
  }

  /** How many of the channels are looked at. */
  function Reach(s: State, fd: int, names: seq<string>, keyless: bool): (k: nat)
    ensures k <= |names|
  {
    if names == [] || (keyless && Blocks(s, fd, names[0])) then 0 else 1 + Reach(s, fd, names[1..], keyless)
  }

  /** Some entry of the lists gets fd into n, by the state before the command. */
  ghost predicate LetIn(s: State, fd: int, names: seq<string>, keys: seq<Option<string>>, reach: nat, n: string)
    requires |names| == |keys|
  {
    exists i | 0 <= i < |names| && i < reach :: names[i] == n && Admits(s, fd, n, keys[i])
  }

  ghost predicate Keyless(keys: seq<Option<string>>) {
    forall i | 0 <= i < |keys| :: keys[i] == None
  }

  lemma BlocksAgrees(s: State, fd: int, name: string, key: Option<string>)
    requires Inv(s) && fd in s.clients && s.clients[fd].Registered() && key == None
    ensures forall n :: Blocks(JoinOne(s, fd, name, key), fd, n) <==> Blocks(s, fd, n)
  {
    JoinOneEffect(s, fd, name, key);
  }

  lemma {:induction false} ReachAgrees(s: State, t: State, fd: int, names: seq<string>, keyless: bool)
    requires keyless ==> forall n :: Blocks(s, fd, n) <==> Blocks(t, fd, n)
    ensures Reach(s, fd, names, keyless) == Reach(t, fd, names, keyless)
  {
    if names != [] {
      ReachAgrees(s, t, fd, names[1..], keyless);
    }
  }

  /** Later entries are admitted as they would have been at first, except into the
      channel that was just joined. */
  lemma LetInSplits(s: State, t: State, fd: int, names: seq<string>, keys: seq<Option<string>>, reach: nat, n: string)
    requires names != [] && |names| == |keys|
    requires t.channels == if Admits(s, fd, names[0], keys[0])
                           then s.channels[names[0] := Joined(s, fd, names[0])] else s.channels
    ensures LetIn(s, fd, names, keys, reach + 1, n)
       <==> (n == names[0] && Admits(s, fd, n, keys[0])) || LetIn(t, fd, names[1..], keys[1..], reach, n)
    ensures n == names[0] && Admits(s, fd, n, keys[0]) ==> !LetIn(t, fd, names[1..], keys[1..], reach, n)
  {
    var rest, keys' := names[1..], keys[1..];
    if LetIn(t, fd, rest, keys', reach, n) {
      var i :| 0 <= i < |rest| && i < reach && rest[i] == n && Admits(t, fd, n, keys'[i]);
      assert names[i + 1] == n && Admits(s, fd, n, keys[i + 1]);
    }
    if LetIn(s, fd, names, keys, reach + 1, n) && !(n == names[0] && Admits(s, fd, n, keys[0])) {
      var i :| 0 <= i < |names| && i < reach + 1 && names[i] == n && Admits(s, fd, n, keys[i]);
      assert i > 0 && rest[i - 1] == n && Admits(t, fd, n, keys'[i - 1]);
    }
  }

  /** The channels after the command, each given by the state before it. */
  ghost predicate JoinedBy(s: State, t: State, fd: int, names: seq<string>, keys: seq<Option<string>>, reach: nat)
    requires |names| == |keys|
  {
    forall n ::
      && (n in t.channels <==> n in s.channels || LetIn(s, fd, names, keys, reach, n))
      && (n in t.channels ==>
            t.channels[n] == if LetIn(s, fd, names, keys, reach, n) then Joined(s, fd, n) else s.channels[n])
  }

  lemma JoinedByStep(
    s: State, m: State, t: State, fd: int, names: seq<string>, keys: seq<Option<string>>, k: nat)
    requires names != [] && |names| == |keys|
    requires m.channels == if Admits(s, fd, names[0], keys[0])
                           then s.channels[names[0] := Joined(s, fd, names[0])] else s.channels
    requires JoinedBy(m, t, fd, names[1..], keys[1..], k)
    ensures JoinedBy(s, t, fd, names, keys, k + 1)
  {
    forall n
      ensures n in t.channels <==> n in s.channels || LetIn(s, fd, names, keys, k + 1, n)
      ensures n in t.channels ==>
            t.channels[n] == if LetIn(s, fd, names, keys, k + 1, n) then Joined(s, fd, n) else s.channels[n]
    {
      LetInSplits(s, m, fd, names, keys, k, n);
    }
  }

  lemma KeepsClientsTwice(s: State, m: State, t: State, fd: int)
    requires KeepsClients(s, m, fd) && KeepsClients(m, t, fd)
    ensures KeepsClients(s, t, fd)
  {
  }

  lemma NobodyJoined(s: State, t: State, fd: int, names: seq<string>, keys: seq<Option<string>>)
    requires |names| == |keys| && t.channels == s.channels
    ensures JoinedBy(s, t, fd, names, keys, 0)
  {
  }

  lemma {:induction false} JoinAllEffect(s: State, fd: int, names: seq<string>, keys: seq<Option<string>>,
                                         keyless: bool)
    requires Inv(s) && fd in s.clients && s.clients[fd].Registered()
    requires |names| == |keys| && (keyless ==> Keyless(keys))
    ensures var t := JoinAll(s, fd, names, keys, keyless);
      && Inv(t) && KeepsClients(s, t, fd)
      && JoinedBy(s, t, fd, names, keys, Reach(s, fd, names, keyless))
    decreases |names|
  {
    if names == [] {
      NobodyJoined(s, s, fd, names, keys);
    } else {
      var m := JoinOne(s, fd, names[0], keys[0]);
      JoinOneEffect(s, fd, names[0], keys[0]);
      if keyless && Blocks(s, fd, names[0]) {
        NobodyJoined(s, m, fd, names, keys);
      } else {
        JoinAllEffect(m, fd, names[1..], keys[1..], keyless);
        if keyless {
          BlocksAgrees(s, fd, names[0], keys[0]);
        }
        ReachAgrees(s, m, fd, names[1..], keyless);
        var t := JoinAll(m, fd, names[1..], keys[1..], keyless);
        JoinedByStep(s, m, t, fd, names, keys, Reach(m, fd, names[1..], keyless));
        KeepsClientsTwice(s, m, t, fd);
        assert Reach(s, fd, names, keyless) == Reach(m, fd, names[1..], keyless) + 1;
      }
    }
  }

  /** Some entry of the command lets fd into n. */
  ghost predicate Enters(s: State, fd: int, cmd: seq<string>, n: string) {
    |cmd| >= 2 && LetIn(s, fd, Names(cmd), Paired(cmd), Reach(s, fd, Names(cmd), Keys(cmd) == []), n)
  }

  lemma KeylessMeans(cmd: seq<string>)
    requires |cmd| >= 2 && Keys(cmd) == []
    ensures |cmd| == 2 && |Names(cmd)| > 1 && Keyless(Paired(cmd))
  {
  }

  /** JOIN as a whole: the issuer's pairs with the channels that admit it are added
      to the membership, and with the channels that did not exist to the operators.
      A channel that existed keeps its settings. */
  lemma JoinAdds(s: State, fd: int, cmd: seq<string>)
    requires Inv(s) && fd in s.clients && s.clients[fd].Registered()
    ensures var t := Join(s, fd, cmd);
      && Inv(t) && KeepsClients(s, t, fd) && EmptiesNone(s, t)
      && (forall n :: n in t.channels <==> n in s.channels || Enters(s, fd, cmd, n))
      && (forall n | n in t.channels ::
            t.channels[n] == if Enters(s, fd, cmd, n) then Joined(s, fd, n) else s.channels[n])
  {
    if |cmd| < 2 {
      SayKeepsInv(s, fd, Numeric(461, []));
      OutputKeepsClients(s, s, Join(s, fd, cmd), fd);
    } else {
      if Keys(cmd) == [] {
        KeylessMeans(cmd);
      }
      JoinAllEffect(s, fd, Names(cmd), Paired(cmd), Keys(cmd) == []);
    }
  }

  /** Who got into a channel that existed had its key, its invitation and a place. */
  lemma Admission(s: State, fd: int, cmd: seq<string>, n: string)
    requires Inv(s) && fd in s.clients && s.clients[fd].Registered()
    requires n in s.channels && !IsMember(s, fd, n) && IsMember(Join(s, fd, cmd), fd, n)
    ensures var c := s.channels[n];
      && |cmd| >= 2
      && (c.keyOn ==> exists i | 0 <= i < |Names(cmd)| :: Names(cmd)[i] == n && Paired(cmd)[i] == Some(c.key))
      && (c.inviteOn ==> fd in c.invites)
      && (c.limitOn ==> |c.members| < c.limit)
  {
    JoinAdds(s, fd, cmd);
    assert Enters(s, fd, cmd, n);
  }

  /** The topic and the list reach the newcomer alone. */
  lemma Informed(m: State, fd: int, n: string)
    requires fd in m.clients
    ensures var t := SayNames(SayTopic(m, fd, n), fd, n);
      && t.clients.Keys == m.clients.Keys
      && (forall g | g in m.clients && g != fd :: t.clients[g] == m.clients[g])
      && t.clients[fd] == m.clients[fd].(out := m.clients[fd].out + (TopicLines(m, fd, n)
           + [NameList(m.clients[fd].nick, n, NameEntries(m, n)), Numeric(366, [m.clients[fd].nick, n])]))
  {
    var t := SayTopic(m, fd, n);
    assert NameEntries(t, n) == NameEntries(m, n);
    Regrouped(m.clients[fd].out, TopicLines(m, fd, n),
              [NameList(m.clients[fd].nick, n, NameEntries(m, n)), Numeric(366, [m.clients[fd].nick, n])]);
  }

  /** Who hears of it: each member of the channel once, and the newcomer, who then
      gets the topic if there is one and the list of all members, itself last. */
  lemma JoinTells(s: State, fd: int, name: string, key: Option<string>)
    requires Inv(s) && fd in s.clients && s.clients[fd].Registered() && Admits(s, fd, name, key)
    ensures var t, line := JoinOne(s, fd, name, key), Relay(s.clients[fd].Prefix(), JOIN, [name, ""]);
      && t.clients.Keys == s.clients.Keys
      && (forall g | g in s.clients && g != fd :: t.clients[g] == s.clients[g].(
            out := s.clients[g].out + if IsMember(s, g, name) then [line] else []))
      && t.clients[fd] == s.clients[fd].(
           chans := s.clients[fd].chans + [name], out := s.clients[fd].out + [line] + Briefing(s, fd, name))
  {
    if name in s.channels {
      assert ChannelOk(s, name);
    }
    var c := if name in s.channels then s.channels[name] else NewChannel(name, fd);
    var m := TellJoin(Enter(PutChannel(s, name, c), fd, name), fd, name);
    JoinOneIs(s, fd, name, key, c);
    EntriesAfter(s, fd, name, c, m);
    EnterTells(s, fd, name, c);
    Informed(m, fd, name);
  }

  lemma JoinOneIs(s: State, fd: int, name: string, key: Option<string>, c: ChannelRec)
    requires Admits(s, fd, name, key) && c == if name in s.channels then s.channels[name] else NewChannel(name, fd)
    ensures JoinOne(s, fd, name, key)
         == SayNames(SayTopic(TellJoin(Enter(PutChannel(s, name, c), fd, name), fd, name), fd, name), fd, name)
  {
    if name in s.channels {
      assert s.channels[name := c] == s.channels;
    }
  }

  lemma EnterTells(s: State, fd: int, name: string, c: ChannelRec)
    requires fd in s.clients && fd !in c.members
    requires c == if name in s.channels then s.channels[name] else NewChannel(name, fd)
    ensures var m := TellJoin(Enter(PutChannel(s, name, c), fd, name), fd, name);
      && m.clients.Keys == s.clients.Keys
      && forall g | g in s.clients :: m.clients[g] == s.clients[g].(
           chans := s.clients[g].chans + (if g == fd then [name] else []),
           out := s.clients[g].out
             + if g == fd || IsMember(s, g, name) then [Relay(s.clients[fd].Prefix(), JOIN, [name, ""])] else [])
  {
  }

  /** The list after fd came in. */
  lemma EntriesAfter(s: State, fd: int, n: string, c: ChannelRec, m: State)
    requires Inv(s) && fd in s.clients && c == (if n in s.channels then s.channels[n] else NewChannel(n, fd))
    requires fd !in c.members
    requires m == TellJoin(Enter(PutChannel(s, n, c), fd, n), fd, n)
    ensures NameEntries(m, n) == NameEntries(s, n) + [(n !in s.channels && s.clients[fd].fd == fd, s.clients[fd].nick)]
    ensures TopicLines(m, fd, n) == TopicLines(s, fd, n) && m.clients[fd].nick == s.clients[fd].nick
  {
    assert ClientOk(s, fd);
    if n in s.channels {
      assert ChannelOk(s, n);
    }
    var before, after := NameEntries(s, n), NameEntries(m, n);
    assert m.channels[n].members == c.members + [fd] && ChannelAt(s, n).members == c.members;
    forall i | 0 <= i < |c.members| ensures after[i] == before[i] {
      assert m.channels[n].members[i] == c.members[i] && c.members[i] in c.members;
    }
    forall g | g in c.operators && n in s.channels ensures g in s.clients && g != fd && g != -1 {
      assert g in c.members && ClientOk(s, g);
    }
  }

  ghost function TopicLines(s: State, fd: int, n: string): seq<Reply> {
    if ChannelAt(s, n).topic == "" then [] else [Numeric(332, [Who(s, fd).nick, n, ChannelAt(s, n).topic[1..]])]
  }

  /** What only the newcomer is told. */
  ghost function Briefing(s: State, fd: int, name: string): seq<Reply> {
    var me := Who(s, fd);
    TopicLines(s, fd, name)
    + [NameList(me.nick, name, NameEntries(s, name) + [(name !in s.channels && me.fd == fd, me.nick)]),
       Numeric(366, [me.nick, name])]
  }

  // ---- one command or several ----------------------------------------------

  function SingleCommand(name: string, key: Option<string>): seq<string> {
    ["JOIN", name] + if key.Some? then [key.value] else []
  }

  /** One JOIN for each channel, in order, each with its key. */
  function Singles(s: State, fd: int, names: seq<string>, keys: seq<Option<string>>): State
    requires |names| == |keys|
    decreases |names|
  {
    if names == [] then s
    else Singles(Join(s, fd, SingleCommand(names[0], keys[0])), fd, names[1..], keys[1..])
  }

  lemma SingleIsOne(s: State, fd: int, name: string, key: Option<string>)
    requires ',' !in name
    ensures Join(s, fd, SingleCommand(name, key)) == JoinOne(s, fd, name, key)
  {
    var cmd := SingleCommand(name, key);
    assert cmd[1] == name && Names(cmd) == [name];
    assert |cmd| == (if key.Some? then 3 else 2);
    assert Keys(cmd) == [if key.Some? then key.value else ""];
    assert Paired(cmd)[0] == key;
    assert Paired(cmd) == [key];
    var t := JoinOne(s, fd, name, key);
    assert JoinAll(t, fd, [], [], false) == t;
    assert [name][1..] == [] && [key][1..] == [];
  }

  lemma {:induction false} SinglesAreAll(s: State, fd: int, names: seq<string>, keys: seq<Option<string>>)
    requires |names| == |keys| && forall n | n in names :: ',' !in n
    ensures Singles(s, fd, names, keys) == JoinAll(s, fd, names, keys, false)
    decreases |names|
  {
    if names != [] {
      SingleIsOne(s, fd, names[0], keys[0]);
      SinglesAreAll(JoinOne(s, fd, names[0], keys[0]), fd, names[1..], keys[1..]);
    }
  }

  /** Every channel in the list is answered with at least one line. */
  lemma JoinOneAnswers(s: State, fd: int, name: string, key: Option<string>)
    requires fd in s.clients
    ensures var t := JoinOne(s, fd, name, key);
            fd in t.clients && |t.clients[fd].out| > |s.clients[fd].out|
  {
  }

  lemma {:induction false} JoinAllAnswers(s: State, fd: int, names: seq<string>, keys: seq<Option<string>>)
    requires fd in s.clients && |names| == |keys|
    ensures var t := JoinAll(s, fd, names, keys, false);
            fd in t.clients && |t.clients[fd].out| >= |s.clients[fd].out| + |names|
    decreases |names|
  {
    if names != [] {
      JoinOneAnswers(s, fd, names[0], keys[0]);
      JoinAllAnswers(JoinOne(s, fd, names[0], keys[0]), fd, names[1..], keys[1..]);
    }
  }

  /** Without keys the list is worked through to its end exactly when no channel
      before the last one asks for a key. */
  lemma {:induction false} KeylessIsAll(s: State, fd: int, names: seq<string>, keys: seq<Option<string>>)
    requires Inv(s) && fd in s.clients && s.clients[fd].Registered()
    requires |names| == |keys| && Keyless(keys)
    ensures JoinAll(s, fd, names, keys, true) == JoinAll(s, fd, names, keys, false)
       <==> forall i | 0 <= i < |names| - 1 :: !Blocks(s, fd, names[i])
    decreases |names|
  {
    if names != [] {
      var m, rest := JoinOne(s, fd, names[0], keys[0]), names[1..];
      JoinOneEffect(s, fd, names[0], keys[0]);
      BlocksAgrees(s, fd, names[0], keys[0]);
      KeylessIsAll(m, fd, rest, keys[1..]);
      if Blocks(s, fd, names[0]) {
        JoinAllAnswers(m, fd, rest, keys[1..]);
        if rest == [] {
          assert JoinAll(m, fd, rest, keys[1..], false) == m;
        } else {
          assert JoinAll(m, fd, rest, keys[1..], false) != m;
        }
      } else {
        assert forall i | 1 <= i < |names| - 1 :: names[i] == rest[i - 1];
        assert forall i | 0 <= i < |rest| - 1 :: rest[i] == names[i + 1];
      }
    }
  }

  /** A JOIN with a list is the same as one JOIN for each channel, state and output
      alike, on every branch: always when keys are given, and without keys exactly
      when no listed channel before the last one asks for a key. */
  lemma ListIsSingles(s: State, fd: int, cmd: seq<string>)
    requires Inv(s) && fd in s.clients && s.clients[fd].Registered() && |cmd| >= 2
    ensures Join(s, fd, cmd) == Singles(s, fd, Names(cmd), Paired(cmd))
       <==> |cmd| >= 3 || forall i | 0 <= i < |Names(cmd)| - 1 :: !Blocks(s, fd, Names(cmd)[i])
  {
    if cmd[1] != "" {
      SplitRejoins(cmd[1], ',');
    }
    SinglesAreAll(s, fd, Names(cmd), Paired(cmd));
    if Keys(cmd) == [] {
      KeylessMeans(cmd);
      KeylessIsAll(s, fd, Names(cmd), Paired(cmd));
    }
  }
}
