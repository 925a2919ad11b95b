/** The commands by which clients leave channels, as the server carries them out. */
module PartCommand {
  import opened IrcState
  import opened Wire
  import opened ServerObjects
  import opened Effects
  import PartSpec

  /** One listed channel. */
  method PartChannel(server: Server, fd: int, name: string, cmd: seq<string>)
    requires server.Valid() && Inv(server.State()) && fd in server.clientRecs
    modifies server`clientRecs, server`channels, server`channelRecs
    modifies server.clientObjects, server.channelObjects
    ensures server.Valid()
    ensures server.State() == PartSpec.PartOne(old(server.State()), fd, name, ChannelMessage(2, cmd))
  {
    ghost var s := server.State();
    var client := server.clients[fd];
    assert ClientOk(s, fd);
    var at := FindIn(client.chans, name);
    if at < |client.chans| {
      assert IsMember(s, fd, name);
      var reason := ChannelText(2, cmd);
      var line := Relay(client.Prefix(), PART, if reason == DEFAULT_REASON then [name] else [name, reason]);
      MembersLeave(s, fd, name);
      DepartWithPrune(server, fd, name, line);
    } else {
      server.Send(fd, Numeric(if name in server.channels then 442 else 403, [client.nick, name]));
    }
  }

  /** PART is its specification, state and output alike. */
  method Part(server: Server, fd: int, cmd: seq<string>)
    requires server.Valid() && Inv(server.State()) && fd in server.clientRecs
    modifies server`clientRecs, server`channels, server`channelRecs
    modifies server.clientObjects, server.channelObjects
    ensures server.Valid()
    ensures server.State() == PartSpec.Part(old(server.State()), fd, cmd)
  {
    if |cmd| < 2 {
      server.Send(fd, Numeric(461, []));
      return;
    }
    ghost var s, reason := server.State(), ChannelMessage(2, cmd);
    var names := SplitAt(cmd[1], ',');
    var i := 0;
    assert names[i..] == names;
    while i < |names|
      invariant i <= |names|
      invariant server.Valid() && Inv(server.State()) && fd in server.clientRecs
      invariant PartSpec.PartAll(server.State(), fd, names[i..], reason) == PartSpec.PartAll(s, fd, names, reason)
    {
      assert names[i..][0] == names[i] && names[i..][1..] == names[i + 1..];
      PartSpec.PartOneEffect(server.State(), fd, names[i], reason);
      PartChannel(server, fd, names[i], cmd);
      i := i + 1;
    }
  }
}

module KickCommand {
  import opened Seqs
  import opened IrcState
  import opened Wire
  import opened ServerObjects
  import opened Effects
  import KickSpec

  /** The check before anything is done: the issuer must run every listed channel
      that exists. */
  method FindForeign(server: Server, fd: int, names: seq<string>) returns (foreign: Option<string>)
    requires server.Valid()
    ensures foreign == KickSpec.FirstForeign(server.State(), fd, names)
  {
    var i := 0;
    assert names[i..] == names;
    while i < |names|
      invariant i <= |names|
      invariant KickSpec.FirstForeign(server.State(), fd, names[i..])
        == KickSpec.FirstForeign(server.State(), fd, names)
    {
      assert names[i..][0] == names[i] && names[i..][1..] == names[i + 1..];
      if names[i] in server.channels {
        var operator := server.channels[names[i]].HasOperator(fd);
        if !operator {
          return Some(names[i]);
        }
      }
      i := i + 1;
    }
    foreign := None;
  }

  method KickPair(server: Server, fd: int, name: string, nick: string, extra: seq<string>) returns (more: bool)
    requires server.Valid() && Inv(server.State()) && fd in server.clientRecs
    modifies server`clientRecs, server`channelRecs, server.clientObjects, server.channelObjects
    ensures server.Valid()
    ensures (server.State(), more) == KickSpec.KickOne(old(server.State()), fd, name, nick, extra)
  {
    ghost var s := server.State();
    var me := server.clients[fd];
    if name !in server.channels {
      server.Send(fd, Numeric(403, [me.nick, name]));
      return true;
    }
    var target := server.FindClient(nick);
    if target.None? {
      server.Send(fd, Numeric(401, [me.nick, nick]));
      return false;
    }
    var other := server.clients[target.value];
    assert ClientOk(s, target.value);
    if other.fd == -1 {
      server.Send(fd, Numeric(401, [me.nick, nick]));
      return false;
    }
    if other.nick == me.nick {
      return false;
    }
    var inside := server.channels[name].HasMember(other.fd);
    if !inside {
      server.Send(fd, Numeric(441, [me.nick, nick, name]));
      return true;
    }
    var message := if |extra| > 0 then nick + " " + extra[0] else nick;
    MembersLeave(s, other.fd, name);
    DepartFrom(server, other.fd, name, Relay(me.Prefix(), KICK, [name, message, me.nick]));
    more := true;
  }

  /** KICK is its specification. The loop never reaches past the last nickname. */
  method Kick(server: Server, fd: int, cmd: seq<string>)
    requires server.Valid() && Inv(server.State()) && fd in server.clientRecs
    requires KickSpec.KickDefined(server.State(), fd, cmd)
    modifies server`clientRecs, server`channelRecs, server.clientObjects, server.channelObjects
    ensures server.Valid()
    ensures server.State() == KickSpec.Kick(old(server.State()), fd, cmd)
  {
    if |cmd| < 3 {
      server.Send(fd, Numeric(461, []));
      return;
    }
    var names := SplitAt(cmd[1], ',');
    var foreign := FindForeign(server, fd, names);
    if foreign.Some? {
      server.Send(fd, Numeric(482, [server.clients[fd].nick, foreign.value]));
      return;
    }
    var nicks := SplitAt(cmd[2], ',');
    assert names[0..] == names && nicks[0..] == nicks;
    KickPairs(server, fd, names, nicks, cmd[3..]);
  }

  ghost function Rest(s: State, fd: int, names: seq<string>, nicks: seq<string>, extra: seq<string>, i: nat): State {
    if i < |names| && i <= |nicks| then KickSpec.KickAll(s, fd, names[i..], nicks[i..], extra) else s
  }

  ghost predicate RestDefined(s: State, fd: int, names: seq<string>, nicks: seq<string>, extra: seq<string>, i: nat) {
    i < |names| ==> i <= |nicks| && KickSpec.KickAllDefined(s, fd, names[i..], nicks[i..], extra)
  }

  lemma RestStep(s: State, fd: int, names: seq<string>, nicks: seq<string>, extra: seq<string>, i: nat)
    requires i < |names| && RestDefined(s, fd, names, nicks, extra, i)
    ensures i < |nicks|
    ensures var (t, more) := KickSpec.KickOne(s, fd, names[i], nicks[i], extra);
      && (more ==> RestDefined(t, fd, names, nicks, extra, i + 1))
      && Rest(s, fd, names, nicks, extra, i) == if more then Rest(t, fd, names, nicks, extra, i + 1) else t
  {
    assert names[i..][0] == names[i] && names[i..][1..] == names[i + 1..];
    assert nicks[i..] != [];
    assert nicks[i..][0] == nicks[i] && nicks[i..][1..] == nicks[i + 1..];
  }

  /** The i-th pair; a nickname is always there for it. */
  method KickNext(server: Server, fd: int, names: seq<string>, nicks: seq<string>, extra: seq<string>, i: nat)
    returns (more: bool)
    requires server.Valid() && i < |names| && Pending(server.State(), fd, names, nicks, extra, i)
    modifies server`clientRecs, server`channelRecs, server.clientObjects, server.channelObjects
    ensures server.Valid()
    ensures more ==> Pending(server.State(), fd, names, nicks, extra, i + 1)
    ensures Rest(old(server.State()), fd, names, nicks, extra, i)
         == if more then Rest(server.State(), fd, names, nicks, extra, i + 1) else server.State()
  {
    RestStep(server.State(), fd, names, nicks, extra, i);
    KickSpec.KickOneFrame(server.State(), fd, names[i], nicks[i], extra);
    more := KickPair(server, fd, names[i], nicks[i], extra);
  }

  ghost predicate Pending(s: State, fd: int, names: seq<string>, nicks: seq<string>, extra: seq<string>, i: nat) {
    Inv(s) && fd in s.clients && RestDefined(s, fd, names, nicks, extra, i)
  }

  method KickPairs(server: Server, fd: int, names: seq<string>, nicks: seq<string>, extra: seq<string>)
    requires server.Valid() && Pending(server.State(), fd, names, nicks, extra, 0)
    modifies server`clientRecs, server`channelRecs, server.clientObjects, server.channelObjects
    ensures server.Valid()
    ensures server.State() == Rest(old(server.State()), fd, names, nicks, extra, 0)
  {
    ghost var s := server.State();
    var i := 0;
    while i < |names|
      invariant i <= |names|
      invariant server.Valid() && Pending(server.State(), fd, names, nicks, extra, i)
      invariant Rest(server.State(), fd, names, nicks, extra, i) == Rest(s, fd, names, nicks, extra, 0)
    {
      var more := KickNext(server, fd, names, nicks, extra, i);
      if !more {
        return;
      }
      i := i + 1;
    }
  }
}

module QuitCommand {
  import opened Seqs
  import opened IrcState
  import opened Wire
  import opened ServerObjects
  import opened Effects
  import QuitSpec

  /** QUIT when the first of the channels have been dealt with. */
  ghost function Partly(s: State, fd: int, done: seq<string>, line: Reply): State {
    s.(clients := map g | g in s.clients ::
         if g == fd then s.clients[g]
         else s.clients[g].(out := s.clients[g].out + Repeat(line, QuitSpec.Shared(s, done, g))),
       channels := map n | n in s.channels && !(n in done && QuitSpec.Alone(s.channels[n], fd)) ::
         if n in done then WithoutFd(s.channels[n], fd) else s.channels[n])
  }

  /** One more channel. */
  ghost function OneMore(p: State, fd: int, n: string, line: Reply): State {
    var c := WithoutFd(ChannelAt(p, n), fd);
    Prune(Tell(PutChannel(p, n, c), c.members, line), n)
  }

  lemma RepeatMore<T>(x: T, n: nat)
    ensures Repeat(x, n) + [x] == Repeat(x, n + 1)
  {
  }

  lemma SharedMore(s: State, done: seq<string>, n: string, g: int)
    requires n in s.channels
    ensures QuitSpec.Shared(s, done + [n], g)
         == QuitSpec.Shared(s, done, g) + if g in s.channels[n].members then 1 else 0
  {
    assert (done + [n])[..|done|] == done;
  }

  lemma OneMoreLine(s: State, done: seq<string>, n: string, g: int, line: Reply)
    requires n in s.channels && g in s.clients
    ensures var before := s.clients[g].out + Repeat(line, QuitSpec.Shared(s, done, g));
      s.clients[g].out + Repeat(line, QuitSpec.Shared(s, done + [n], g))
      == if g in s.channels[n].members then before + [line] else before
  {
    SharedMore(s, done, n, g);
    RepeatMore(line, QuitSpec.Shared(s, done, g));
    assert s.clients[g].out + Repeat(line, QuitSpec.Shared(s, done, g)) + [line]
        == s.clients[g].out + (Repeat(line, QuitSpec.Shared(s, done, g)) + [line]);
  }

  lemma OneMoreClient(s: State, fd: int, done: seq<string>, n: string, line: Reply, g: int)
    requires n in s.channels && n !in done && NoDup(s.channels[n].members) && g in s.clients
    ensures OneMore(Partly(s, fd, done, line), fd, n, line).clients[g] == Partly(s, fd, done + [n], line).clients[g]
  {
    DropNoDup(s.channels[n].members, fd);
    OneMoreLine(s, done, n, g, line);
  }

  lemma OneMoreClients(s: State, fd: int, done: seq<string>, n: string, line: Reply)
    requires n in s.channels && n !in done && NoDup(s.channels[n].members)
    ensures OneMore(Partly(s, fd, done, line), fd, n, line).clients == Partly(s, fd, done + [n], line).clients
  {
    var a, b := OneMore(Partly(s, fd, done, line), fd, n, line).clients, Partly(s, fd, done + [n], line).clients;
    forall g | g in s.clients ensures a[g] == b[g] {
      OneMoreClient(s, fd, done, n, line, g);
    }
    assert a == b;
  }

  lemma OneMoreChannels(s: State, fd: int, done: seq<string>, n: string, line: Reply)
    requires n in s.channels && n !in done && fd in s.channels[n].members
    ensures OneMore(Partly(s, fd, done, line), fd, n, line).channels == Partly(s, fd, done + [n], line).channels
  {
    var a, b := OneMore(Partly(s, fd, done, line), fd, n, line).channels, Partly(s, fd, done + [n], line).channels;
    assert forall m :: m in a <==> m in b;
    assert forall m | m in a :: a[m] == b[m];
    assert a == b;
  }

  lemma PartlyNone(s: State, fd: int, line: Reply)
    ensures Partly(s, fd, [], line) == s
  {
    var a := Partly(s, fd, [], line);
    forall g | g in s.clients ensures a.clients[g] == s.clients[g] {
      assert s.clients[g].out + Repeat(line, 0) == s.clients[g].out;
    }
    assert a.clients == s.clients && a.channels == s.channels;
  }

  lemma PartlyAll(s: State, fd: int, chans: seq<string>, line: Reply)
    requires forall n | n in s.channels && n !in chans ::
               fd !in s.channels[n].members && fd !in s.channels[n].operators
    ensures Partly(s, fd, chans, line).channels
         == map n | n in s.channels && !QuitSpec.Alone(s.channels[n], fd) :: WithoutFd(s.channels[n], fd)
  {
    forall n | n in s.channels && n !in chans ensures WithoutFd(s.channels[n], fd) == s.channels[n] {
      DropSame(s.channels[n].members, fd);
      DropSame(s.channels[n].operators, fd);
    }
  }

  lemma Elsewhere(s: State, fd: int)
    requires Inv(s) && fd in s.clients
    ensures forall n | n in s.channels && n !in s.clients[fd].chans ::
              fd !in s.channels[n].members && fd !in s.channels[n].operators
  {
    forall n | n in s.channels && n !in s.clients[fd].chans
      ensures fd !in s.channels[n].members && fd !in s.channels[n].operators
    {
      assert ChannelOk(s, n);
    }
  }

  lemma PartlyIsQuit(s: State, fd: int, cmd: seq<string>)
    requires Inv(s) && fd in s.clients
    ensures EraseClient(Partly(s, fd, s.clients[fd].chans, QuitSpec.Line(s, fd, ChannelMessage(1, cmd))), fd)
         == QuitSpec.Quit(s, fd, cmd)
  {
    var line := QuitSpec.Line(s, fd, ChannelMessage(1, cmd));
    Elsewhere(s, fd);
    PartlyAll(s, fd, s.clients[fd].chans, line);
    assert EraseClient(Partly(s, fd, s.clients[fd].chans, line), fd).clients == QuitSpec.Quit(s, fd, cmd).clients;
  }

  /** The k-th channel can be dealt with after the ones before it. */
  ghost predicate Ready(s: State, fd: int, chans: seq<string>, line: Reply, k: nat)
    requires k < |chans|
  {
    var p, n := Partly(s, fd, chans[..k], line), chans[k];
    && n in p.channels && p.channels[n].name == n
    && Reachable(PutChannel(p, n, WithoutFd(p.channels[n], fd)), n)
    && OneMore(p, fd, n, line) == Partly(s, fd, chans[..k + 1], line)
  }

  lemma AllReady(s: State, fd: int, line: Reply, k: nat)
    requires Inv(s) && fd in s.clients && k < |s.clients[fd].chans|
    ensures Ready(s, fd, s.clients[fd].chans, line, k)
  {
    var chans := s.clients[fd].chans;
    var done, n := chans[..k], chans[k];
    assert ClientOk(s, fd);
    assert n !in done && chans[..k + 1] == done + [n];
    assert IsMember(s, fd, n) && ChannelOk(s, n);
    DropNoDup(s.channels[n].members, fd);
    OneMoreClients(s, fd, done, n, line);
    OneMoreChannels(s, fd, done, n, line);
  }

  method QuietlyLeave(server: Server, fd: int, n: string, line: Reply)
    requires server.Valid() && n in server.channelRecs
    requires Reachable(PutChannel(server.State(), n, WithoutFd(server.channelRecs[n], fd)), n)
    modifies server`clientRecs, server`channelRecs, server.clientObjects, server.channelObjects
    ensures server.Valid()
    ensures var s, c := old(server.State()), WithoutFd(old(server.channelRecs)[n], fd);
      server.State() == Tell(PutChannel(s, n, c), c.members, line)
  {
    DropFrom(server, n, fd);
    MessageAll(server, n, None, line);
  }

  method QuitChannel(server: Server, fd: int, n: string, line: Reply)
    requires server.Valid() && n in server.channelRecs && server.channelRecs[n].name == n
    requires Reachable(PutChannel(server.State(), n, WithoutFd(server.channelRecs[n], fd)), n)
    modifies server`clientRecs, server`channels, server`channelRecs
    modifies server.clientObjects, server.channelObjects
    ensures server.Valid()
    ensures server.State() == OneMore(old(server.State()), fd, n, line)
  {
    QuietlyLeave(server, fd, n, line);
    PruneChannel(server, n);
  }

  method QuitNext(server: Server, ghost s: State, fd: int, chans: seq<string>, line: Reply, k: nat)
    requires server.Valid() && k < |chans| && Ready(s, fd, chans, line, k)
    requires server.State() == Partly(s, fd, chans[..k], line)
    modifies server`clientRecs, server`channels, server`channelRecs
    modifies server.clientObjects, server.channelObjects
    ensures server.Valid() && server.State() == Partly(s, fd, chans[..k + 1], line)
  {
    QuitChannel(server, fd, chans[k], line);
  }

  method QuitChannels(server: Server, fd: int, chans: seq<string>, line: Reply)
    requires server.Valid() && forall k | 0 <= k < |chans| :: Ready(server.State(), fd, chans, line, k)
    modifies server`clientRecs, server`channels, server`channelRecs
    modifies server.clientObjects, server.channelObjects
    ensures server.Valid()
    ensures server.State() == Partly(old(server.State()), fd, chans, line)
  {
    ghost var s := server.State();
    PartlyNone(s, fd, line);
    var i := 0;
    while i < |chans|
      invariant i <= |chans|
      invariant server.Valid() && server.State() == Partly(s, fd, chans[..i], line)
    {
      QuitNext(server, s, fd, chans, line, i);
      i := i + 1;
    }
    assert chans[..i] == chans;
  }

  /** QUIT is its specification. Every channel the client lists is found, so the loop
      makes progress in each round. */
  method Quit(server: Server, fd: int, cmd: seq<string>)
    requires server.Valid() && Inv(server.State()) && fd in server.clientRecs
    modifies server`clients, server`clientRecs, server`channels, server`channelRecs
    modifies server.clientObjects, server.channelObjects
    ensures server.Valid()
    ensures server.State() == QuitSpec.Quit(old(server.State()), fd, cmd)
  {
    ghost var s := server.State();
    var chans := server.clients[fd].chans;
    var reason := ChannelText(1, cmd);
    var line := Relay(server.clients[fd].Prefix(), QUIT, [reason]);
    forall k | 0 <= k < |chans| ensures Ready(s, fd, chans, line, k) {
      AllReady(s, fd, line, k);
    }
    QuitChannels(server, fd, chans, line);
    PartlyIsQuit(s, fd, cmd);
    server.EraseTheClient(fd);
  }
}

module DisconnectCommand {
  import opened Seqs
  import opened IrcState
  import opened ServerObjects
  import opened Effects
  import QuitSpec

  /** A lost connection when the first of its channels have been dealt with. */
  ghost function Partly(s: State, fd: int, done: seq<string>): State {
    s.(channels := map n | n in s.channels :: if n in done then Cleared(s.channels[n], fd) else s.channels[n])
  }

  ghost function Cleared(c: ChannelRec, fd: int): ChannelRec {
    WithoutFd(c, fd).(invites := Drop(c.invites, fd))
  }

  /** The k-th channel can be dealt with after the ones before it. */
  ghost predicate Ready(s: State, fd: int, chans: seq<string>, k: nat)
    requires k < |chans|
  {
    var p, n := Partly(s, fd, chans[..k]), chans[k];
    n in p.channels && PutChannel(p, n, Cleared(p.channels[n], fd)) == Partly(s, fd, chans[..k + 1])
  }

  lemma AllReady(s: State, fd: int, k: nat)
    requires Inv(s) && fd in s.clients && k < |s.clients[fd].chans|
    ensures Ready(s, fd, s.clients[fd].chans, k)
  {
    var chans := s.clients[fd].chans;
    var n := chans[k];
    assert ClientOk(s, fd) && IsMember(s, fd, n);
    assert n !in chans[..k] && chans[..k + 1] == chans[..k] + [n];
    var p := Partly(s, fd, chans[..k]);
    assert PutChannel(p, n, Cleared(p.channels[n], fd)).channels == Partly(s, fd, chans[..k + 1]).channels;
  }

  lemma PartlyNone(s: State, fd: int)
    ensures Partly(s, fd, []) == s
  {
    assert Partly(s, fd, []).channels == s.channels;
  }

  lemma PartlyIsDisconnect(s: State, fd: int)
    requires fd in s.clients
    ensures EraseClient(Partly(s, fd, s.clients[fd].chans), fd) == QuitSpec.Disconnect(s, fd)
  {
  }

  method ClearChannel(server: Server, fd: int, n: string)
    requires server.Valid() && n in server.channelRecs
    modifies server`channelRecs, server.channelObjects
    ensures server.Valid()
    ensures server.State() == PutChannel(old(server.State()), n, Cleared(old(server.channelRecs)[n], fd))
  {
    DropFrom(server, n, fd);
    server.DropInvite(n, fd);
  }

  method ClearNext(server: Server, ghost s: State, fd: int, chans: seq<string>, k: nat)
    requires server.Valid() && k < |chans| && Ready(s, fd, chans, k)
    requires server.State() == Partly(s, fd, chans[..k])
    modifies server`channelRecs, server.channelObjects
    ensures server.Valid() && server.State() == Partly(s, fd, chans[..k + 1])
  {
    ClearChannel(server, fd, chans[k]);
  }

  method ClearChannels(server: Server, fd: int, chans: seq<string>)
    requires server.Valid() && forall k | 0 <= k < |chans| :: Ready(server.State(), fd, chans, k)
    modifies server`channelRecs, server.channelObjects
    ensures server.Valid()
    ensures server.State() == Partly(old(server.State()), fd, chans)
  {
    ghost var s := server.State();
    PartlyNone(s, fd);
    var i := 0;
    while i < |chans|
      invariant i <= |chans|
      invariant server.Valid() && server.State() == Partly(s, fd, chans[..i])
    {
      ClearNext(server, s, fd, chans, i);
      i := i + 1;
      assert server.Valid() && server.State() == Partly(s, fd, chans[..i]);
    }
    assert chans[..i] == chans;
  }

  /** No channel the lost client lists is missing from the map. */
  method Disconnect(server: Server, fd: int)
    requires server.Valid() && Inv(server.State()) && fd in server.clientRecs
    modifies server`clients, server`clientRecs, server`channelRecs, server.clientObjects, server.channelObjects
    ensures server.Valid()
    ensures server.State() == QuitSpec.Disconnect(old(server.State()), fd)
  {
    ghost var s := server.State();
    var chans := server.clients[fd].chans;
    forall k | 0 <= k < |chans| ensures Ready(s, fd, chans, k) {
      AllReady(s, fd, k);
    }
    ClearChannels(server, fd, chans);
    PartlyIsDisconnect(s, fd);
    server.EraseTheClient(fd);
  }
}
