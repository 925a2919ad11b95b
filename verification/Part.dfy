/** PART: leaving the listed channels one after the other. */
module PartSpec {
  import opened Seqs
  import opened IrcState
  import opened Wire

  function Line(s: State, fd: int, name: string, reason: string): Reply {
    Relay(Who(s, fd).Prefix(), PART, if reason == DEFAULT_REASON then [name] else [name, reason])
  }

  function PartOne(s: State, fd: int, name: string, reason: string): State {
    if name in Who(s, fd).chans then
      Prune(Depart(s, fd, name, Line(s, fd, name, reason)), name)
    else Say(s, fd, Absent(s, fd, name))
  }

  function Absent(s: State, fd: int, name: string): Reply {
    Numeric(if name in s.channels then 442 else 403, [Who(s, fd).nick, name])
  }

  function PartAll(s: State, fd: int, names: seq<string>, reason: string): State
    decreases |names|
  {
    if names == [] then s else PartAll(PartOne(s, fd, names[0], reason), fd, names[1..], reason)
  }

  function Part(s: State, fd: int, cmd: seq<string>): State {
    if |cmd| < 2 then Say(s, fd, Numeric(461, []))
    else PartAll(s, fd, Split(cmd[1], ','), ChannelMessage(2, cmd))
  }

  lemma PartOneEffect(s: State, fd: int, name: string, reason: string)
    requires Inv(s) && fd in s.clients
    ensures var t := PartOne(s, fd, name, reason);
      && Inv(t) && fd in t.clients && Shrinks(s, t) && SamePass(s, t) && EmptiesNone(s, t)
      && (forall g, n :: IsMember(t, g, n) <==> IsMember(s, g, n) && !(g == fd && n == name))
      && (forall g, n :: IsOperator(t, g, n) <==> IsOperator(s, g, n) && !(g == fd && n == name))
  {
    assert ClientOk(s, fd);
    if name in s.clients[fd].chans {
      assert IsMember(s, fd, name);
      DepartAndPrune(s, fd, name, Line(s, fd, name, reason));
    } else {
      SayKeepsInv(s, fd, Absent(s, fd, name));
      NotListed(s, fd, name);
    }
  }

  lemma NotListed(s: State, fd: int, name: string)
    requires Inv(s) && fd in s.clients && name !in s.clients[fd].chans
    ensures !IsMember(s, fd, name) && !IsOperator(s, fd, name)
  {
    if name in s.channels {
      assert ChannelOk(s, name);
    }
  }

  lemma {:induction false} PartAllEffect(s: State, fd: int, names: seq<string>, reason: string)
    requires Inv(s) && fd in s.clients
    ensures var t := PartAll(s, fd, names, reason);
      && Inv(t) && Shrinks(s, t) && SamePass(s, t) && EmptiesNone(s, t)
      && (forall g, n :: IsMember(t, g, n) <==> IsMember(s, g, n) && !(g == fd && n in names))
      && (forall g, n :: IsOperator(t, g, n) <==> IsOperator(s, g, n) && !(g == fd && n in names))
    decreases |names|
  {
    if names != [] {
      var m := PartOne(s, fd, names[0], reason);
      PartOneEffect(s, fd, names[0], reason);
      PartAllEffect(m, fd, names[1..], reason);
      ShrinksTwice(s, m, PartAll(s, fd, names, reason));
      assert forall n :: n in names <==> n == names[0] || n in names[1..];
    }
  }

  /** PART removes the pairs of the issuer with the listed channels from both
      relations and nothing else, and it empties no channel: one that loses its
      last member is deleted. */
  lemma PartRemovesListed(s: State, fd: int, cmd: seq<string>)
    requires Inv(s) && fd in s.clients
    ensures var t, names := Part(s, fd, cmd), if |cmd| < 2 then [] else Split(cmd[1], ',');
      && Inv(t) && Shrinks(s, t) && SamePass(s, t) && EmptiesNone(s, t)
      && (forall g, n :: IsMember(t, g, n) <==> IsMember(s, g, n) && !(g == fd && n in names))
      && (forall g, n :: IsOperator(t, g, n) <==> IsOperator(s, g, n) && !(g == fd && n in names))
  {
    if |cmd| < 2 {
      SayKeepsInv(s, fd, Numeric(461, []));
    } else {
      PartAllEffect(s, fd, Split(cmd[1], ','), ChannelMessage(2, cmd));
    }
  }

  // ---- what the others hear ------------------------------------------------

  /** g is told when fd leaves n: both are in it, and fd was not taken out before. */
  predicate Hears(s: State, fd: int, g: int, n: string, gone: set<string>) {
    n !in gone && IsMember(s, fd, n) && IsMember(s, g, n)
  }

  function LineFor(s: State, fd: int, g: int, n: string, reason: string, gone: set<string>): seq<Reply> {
    var me := Who(s, fd);
    if Hears(s, fd, g, n, gone)
    then [Relay(UserOrigin(me.nick, me.user, me.server), PART, if reason == "NO REASON" then [n] else [n, reason])]
    else []
  }

  /** What g hears of the list: a line for each channel it shares with fd, at the first
      place where the list names it. The names in `gone` came before. */
  function Lines(s: State, fd: int, g: int, names: seq<string>, reason: string, gone: set<string>): seq<Reply> {
    if names == [] then []
    else
      LineFor(s, fd, g, names[0], reason, gone)
      + Lines(s, fd, g, names[1..], reason, gone + {names[0]})
  }

  predicate SameName(s: State, t: State, fd: int) {
    Who(t, fd).nick == Who(s, fd).nick && Who(t, fd).user == Who(s, fd).user && Who(t, fd).server == Who(s, fd).server
  }

  lemma PartOneTells(s: State, fd: int, g: int, name: string, reason: string)
    requires Inv(s) && fd in s.clients && g in s.clients && g != fd
    ensures var t := PartOne(s, fd, name, reason);
      && g in t.clients && SameName(s, t, fd)
      && t.clients[g].out == s.clients[g].out + LineFor(s, fd, g, name, reason, {})
  {
    assert ClientOk(s, fd);
    if name in s.clients[fd].chans {
      assert IsMember(s, fd, name) && ChannelOk(s, name);
    } else {
      NotListed(s, fd, name);
    }
  }

  /** The state in the middle of the list: fd is out of the channels named so far. */
  ghost predicate Left(s: State, t: State, fd: int, gone: set<string>) {
    && SameName(s, t, fd)
    && forall g, n :: IsMember(t, g, n) <==> IsMember(s, g, n) && !(g == fd && n in gone)
  }

  lemma LeftOneMore(s: State, t: State, fd: int, g: int, name: string, reason: string, gone: set<string>)
    requires Inv(t) && fd in t.clients && g in t.clients && g != fd && Left(s, t, fd, gone)
    ensures var m := PartOne(t, fd, name, reason);
      && Inv(m) && fd in m.clients && g in m.clients && Left(s, m, fd, gone + {name})
      && m.clients[g].out == t.clients[g].out + LineFor(s, fd, g, name, reason, gone)
  {
    PartOneTells(t, fd, g, name, reason);
    PartOneEffect(t, fd, name, reason);
  }

  lemma {:induction false} PartAllTells(s: State, t: State, fd: int, g: int, names: seq<string>, reason: string,
                                        gone: set<string>)
    requires Inv(t) && fd in t.clients && g in t.clients && g != fd && Left(s, t, fd, gone)
    ensures var u := PartAll(t, fd, names, reason);
      g in u.clients && u.clients[g].out == t.clients[g].out + Lines(s, fd, g, names, reason, gone)
    decreases |names|
  {
    if names != [] {
      LeftOneMore(s, t, fd, g, names[0], reason, gone);
      PartAllTells(s, PartOne(t, fd, names[0], reason), fd, g, names[1..], reason, gone + {names[0]});
      Regrouped(t.clients[g].out, LineFor(s, fd, g, names[0], reason, gone),
                Lines(s, fd, g, names[1..], reason, gone + {names[0]}));
    }
  }

  lemma OneMoreHeard(s: State, fd: int, g: int, names: seq<string>, gone: set<string>)
    requires names != []
    ensures |set n | n in names && Hears(s, fd, g, n, gone)|
         == |set n | n in names[1..] && Hears(s, fd, g, n, gone + {names[0]})|
            + if Hears(s, fd, g, names[0], gone) then 1 else 0
  {
    var first, rest := names[0], names[1..];
    var after := set n | n in rest && Hears(s, fd, g, n, gone + {first});
    var all := set n | n in names && Hears(s, fd, g, n, gone);
    assert names == [first] + rest;
    assert all == if Hears(s, fd, g, first, gone) then after + {first} else after;
  }

  lemma {:induction false} LinesCount(s: State, fd: int, g: int, names: seq<string>, reason: string, gone: set<string>)
    ensures |Lines(s, fd, g, names, reason, gone)| == |set n | n in names && Hears(s, fd, g, n, gone)|
  {
    if names == [] {
      assert (set n | n in names && Hears(s, fd, g, n, gone)) == {};
    } else {
      OneMoreHeard(s, fd, g, names, gone);
      LinesCount(s, fd, g, names[1..], reason, gone + {names[0]});
    }
  }

  /** Another client gets exactly one line for each listed channel that it shares with
      the one who leaves, however often the list names it. */
  lemma PartLines(s: State, fd: int, g: int, cmd: seq<string>)
    requires Inv(s) && fd in s.clients && g in s.clients && g != fd && |cmd| >= 2
    ensures var names, t := Split(cmd[1], ','), Part(s, fd, cmd);
      var lines := Lines(s, fd, g, names, ChannelMessage(2, cmd), {});
      && g in t.clients && t.clients[g].out == s.clients[g].out + lines
      && |lines| == |set n | n in names && Hears(s, fd, g, n, {})|
  {
    PartAllTells(s, s, fd, g, Split(cmd[1], ','), ChannelMessage(2, cmd), {});
    LinesCount(s, fd, g, Split(cmd[1], ','), ChannelMessage(2, cmd), {});
  }

  // ---- the whole state afterwards ------------------------------------------

  /** The channel is there when the names in `gone` have been dealt with: it goes when
      fd, its only member, leaves. */
  predicate Stands(s: State, fd: int, n: string, gone: set<string>) {
    n in s.channels && !(n in gone && s.channels[n].members == [fd])
  }

  /** One after the other: what fd itself is written. */
  function OwnLines(s: State, fd: int, names: seq<string>, reason: string, gone: set<string>): seq<Reply> {
    if names == [] then []
    else OwnLine(s, fd, names[0], reason, gone) + OwnLines(s, fd, names[1..], reason, gone + {names[0]})
  }

  function OwnLine(s: State, fd: int, n: string, reason: string, gone: set<string>): seq<Reply> {
    var me := Who(s, fd);
    if n !in gone && IsMember(s, fd, n)
    then [Relay(UserOrigin(me.nick, me.user, me.server), PART, if reason == "NO REASON" then [n] else [n, reason])]
    else [Numeric(if Stands(s, fd, n, gone) then 442 else 403, [me.nick, n])]
  }

  /** t is s with fd out of the channels in `gone`, and the channels it was alone in gone
      too; of the clients only what they were written and fd's list differ. */
  ghost predicate Parted(s: State, t: State, fd: int, gone: set<string>) {
    SamePeople(s, t, fd) && ChannelsParted(s, t, fd, gone)
  }

  ghost predicate SamePeople(s: State, t: State, fd: int) {
    && t.password == s.password && t.clients.Keys == s.clients.Keys
    && forall g | g in s.clients ::
         t.clients[g] == s.clients[g].(out := t.clients[g].out, chans := t.clients[g].chans)
         && (g != fd ==> t.clients[g].chans == s.clients[g].chans)
  }

  ghost predicate ChannelsParted(s: State, t: State, fd: int, gone: set<string>) {
    && (forall n :: n in t.channels <==> Stands(s, fd, n, gone))
    && forall n | n in t.channels ::
         t.channels[n] == if n in gone then WithoutOne(s.channels[n], fd) else s.channels[n]
  }

  function WithoutOne(c: ChannelRec, fd: int): ChannelRec {
    c.(members := Drop(c.members, fd), operators := Drop(c.operators, fd))
  }

  lemma AloneIs(members: seq<int>, fd: int)
    requires NoDup(members)
    ensures fd in members ==> (Drop(members, fd) == [] <==> members == [fd])
    ensures fd !in members ==> Drop(members, fd) == members && members != [fd]
  {
    DropNoDup(members, fd);
    if fd !in members {
      DropSame(members, fd);
    }
  }

  lemma PartOneChannels(s: State, fd: int, name: string, reason: string)
    requires Inv(s) && fd in s.clients
    ensures var t := PartOne(s, fd, name, reason);
      t.channels == if !IsMember(s, fd, name) then s.channels
                    else if s.channels[name].members == [fd] then s.channels - {name}
                    else s.channels[name := WithoutOne(s.channels[name], fd)]
  {
    assert ClientOk(s, fd);
    if name in s.clients[fd].chans {
      assert IsMember(s, fd, name) && ChannelOk(s, name);
      AloneIs(s.channels[name].members, fd);
      assert s.channels[name := WithoutOne(s.channels[name], fd)] - {name} == s.channels - {name};
    } else {
      NotListed(s, fd, name);
    }
  }

  lemma PartOneClients(s: State, fd: int, name: string, reason: string)
    requires Inv(s) && fd in s.clients
    ensures var t := PartOne(s, fd, name, reason);
      SamePeople(s, t, fd) && t.clients[fd].out == s.clients[fd].out + OwnLine(s, fd, name, reason, {})
  {
    assert ClientOk(s, fd);
    if name in s.clients[fd].chans {
      assert IsMember(s, fd, name);
    } else {
      NotListed(s, fd, name);
    }
  }

  lemma PeopleTwice(s: State, t: State, u: State, fd: int)
    requires SamePeople(s, t, fd) && SamePeople(t, u, fd)
    ensures SamePeople(s, u, fd)
  {
  }

  lemma WithoutOneAgain(s: State, n: string, fd: int)
    requires Inv(s) && n in s.channels
    ensures WithoutOne(WithoutOne(s.channels[n], fd), fd) == WithoutOne(s.channels[n], fd)
    ensures !IsMember(s, fd, n) ==> WithoutOne(s.channels[n], fd) == s.channels[n] && s.channels[n].members != [fd]
    ensures fd !in WithoutOne(s.channels[n], fd).members
  {
    var c := s.channels[n];
    assert ChannelOk(s, n);
    DropNoDup(c.members, fd);
    DropNoDup(c.operators, fd);
    DropSame(Drop(c.members, fd), fd);
    DropSame(Drop(c.operators, fd), fd);
    if fd !in c.members {
      DropSame(c.members, fd);
      DropSame(c.operators, fd);
    }
  }

  lemma ChannelsSame(s: State, t: State, fd: int, name: string, gone: set<string>)
    requires Inv(s) && ChannelsParted(s, t, fd, gone) && !IsMember(t, fd, name)
    requires IsMember(s, fd, name) ==> name in gone
    ensures ChannelsParted(s, t, fd, gone + {name})
  {
    if name in s.channels {
      WithoutOneAgain(s, name, fd);
    }
  }

  lemma ChannelsMore(s: State, t: State, u: State, fd: int, name: string, gone: set<string>)
    requires Inv(s) && ChannelsParted(s, t, fd, gone)
    requires IsMember(t, fd, name) <==> IsMember(s, fd, name) && name !in gone
    requires u.channels == if !IsMember(t, fd, name) then t.channels
                           else if t.channels[name].members == [fd] then t.channels - {name}
                           else t.channels[name := WithoutOne(t.channels[name], fd)]
    ensures ChannelsParted(s, u, fd, gone + {name})
  {
    if !IsMember(t, fd, name) {
      ChannelsSame(s, t, fd, name, gone);
      assert u.channels == t.channels;
    } else {
      assert t.channels[name] == s.channels[name];
    }
  }

  lemma OwnLineAgrees(s: State, t: State, fd: int, name: string, reason: string, gone: set<string>)
    requires SamePeople(s, t, fd) && fd in s.clients && ChannelsParted(s, t, fd, gone)
    requires IsMember(t, fd, name) <==> IsMember(s, fd, name) && name !in gone
    ensures OwnLine(t, fd, name, reason, {}) == OwnLine(s, fd, name, reason, gone)
  {
  }

  lemma PartedMore(s: State, t: State, fd: int, name: string, reason: string, gone: set<string>)
    requires Inv(s) && Inv(t) && fd in s.clients && Parted(s, t, fd, gone)
    requires IsMember(t, fd, name) <==> IsMember(s, fd, name) && name !in gone
    ensures var u := PartOne(t, fd, name, reason);
      && Parted(s, u, fd, gone + {name})
      && u.clients[fd].out == t.clients[fd].out + OwnLine(s, fd, name, reason, gone)
  {
    var u := PartOne(t, fd, name, reason);
    PartOneChannels(t, fd, name, reason);
    PartOneClients(t, fd, name, reason);
    PeopleTwice(s, t, u, fd);
    ChannelsMore(s, t, u, fd, name, gone);
    OwnLineAgrees(s, t, fd, name, reason, gone);
  }

  lemma {:induction false} PartAllOutcome(s: State, t: State, fd: int, names: seq<string>, reason: string,
                                          gone: set<string>)
    requires Inv(s) && Inv(t) && fd in s.clients && Parted(s, t, fd, gone)
    requires forall n :: IsMember(t, fd, n) <==> IsMember(s, fd, n) && n !in gone
    ensures var u := PartAll(t, fd, names, reason);
      && Parted(s, u, fd, gone + set n | n in names)
      && u.clients[fd].out == t.clients[fd].out + OwnLines(s, fd, names, reason, gone)
    decreases |names|
  {
    if names == [] {
      assert gone + (set n | n in names) == gone;
      assert t.clients[fd].out + [] == t.clients[fd].out;
    } else {
      var m, rest := PartOne(t, fd, names[0], reason), names[1..];
      PartedMore(s, t, fd, names[0], reason, gone);
      PartOneEffect(t, fd, names[0], reason);
      PartAllOutcome(s, m, fd, rest, reason, gone + {names[0]});
      assert names == [names[0]] + rest;
      assert gone + {names[0]} + (set n | n in rest) == gone + set n | n in names;
      Regrouped(t.clients[fd].out, OwnLine(s, fd, names[0], reason, gone),
                OwnLines(s, fd, rest, reason, gone + {names[0]}));
    }
  }

  lemma PartedNone(s: State, fd: int)
    ensures Parted(s, s, fd, {})
  {
  }

  /** PART as a whole: the channels it leaves lose fd and nothing else, one in which fd was
      alone goes, and fd is answered name by name. */
  lemma PartOutcome(s: State, fd: int, cmd: seq<string>)
    requires Inv(s) && fd in s.clients && |cmd| >= 2
    ensures var names, t := Split(cmd[1], ','), Part(s, fd, cmd);
      && Parted(s, t, fd, set n | n in names)
      && t.clients[fd].out == s.clients[fd].out + OwnLines(s, fd, names, ChannelMessage(2, cmd), {})
  {
    var names := Split(cmd[1], ',');
    PartedNone(s, fd);
    PartAllOutcome(s, s, fd, names, ChannelMessage(2, cmd), {});
    assert {} + (set n | n in names) == set n | n in names;
  }
}
