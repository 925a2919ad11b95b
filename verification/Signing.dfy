/** PASS, USER and NICK as the server carries them out. */
module PassCommand {
  import opened IrcState
  import opened ServerObjects
  import PassSpec

  method Pass(server: Server, fd: int, cmd: seq<string>)
    requires server.Valid() && fd in server.clientRecs
    modifies server`clients, server`clientRecs, server.clientObjects
    ensures server.Valid()
    ensures server.State() == PassSpec.Pass(old(server.State()), fd, cmd)
  {
    if server.clients[fd].passOk {
      server.Send(fd, Numeric(462, []));
    } else if |cmd| < 2 {
      server.Send(fd, Numeric(461, []));
      server.Send(fd, Usage(PASS));
    } else if cmd[1] != server.password {
      server.EraseTheClient(fd);
    } else {
      server.MarkPassed(fd);
    }
  }
}

module UserCommand {
  import opened IrcState
  import opened Wire
  import opened ServerObjects
  import UserSpec

  method User(server: Server, fd: int, cmd: seq<string>)
    requires server.Valid() && fd in server.clientRecs
    modifies server`clients, server`clientRecs, server.clientObjects
    ensures server.Valid()
    ensures server.State() == UserSpec.User(old(server.State()), fd, cmd)
  {
    if server.clients[fd].userOk {
      server.Send(fd, Numeric(462, []));
    } else if !server.clients[fd].passOk {
      server.EraseTheClient(fd);
    } else if |cmd| < 5 || (|cmd| > 5 && !(|cmd[4]| > 0 && cmd[4][0] == ':')) {
      server.Send(fd, Numeric(461, []));
      server.Send(fd, Usage(USER));
    } else {
      var realname := JoinFrom(4, cmd);
      server.SetUserInfo(fd, cmd[1], cmd[2], cmd[3], realname);
    }
  }
}

module NickCommand {
  import opened Seqs
  import opened IrcState
  import opened ServerObjects
  import opened Effects
  import NickSpec

  // ---- which nickname ------------------------------------------------------

  /** The collision loop. It ends because every candidate that is taken is longer
      than the one before, and fewer clients have a nickname that long. */
  method FreeNick(server: Server, nick: string) returns (free: string)
    requires server.Valid()
    ensures free == NickSpec.FreshNick(server.clientRecs, nick)
  {
    free := nick;
    var holder := server.FindClient(free);
    while holder.Some?
      invariant holder == Find(server.clientRecs, free)
      invariant NickSpec.FreshNick(server.clientRecs, free) == NickSpec.FreshNick(server.clientRecs, nick)
      decreases NickSpec.AtLeastAsLong(server.clientRecs, free)
    {
      NickSpec.LongerIsRarer(server.clientRecs, free);
      free := server.clients[holder.value].nick + "_";
      holder := server.FindClient(free);
    }
  }

  method Validate(nick: string) returns (ok: bool)
    ensures ok == ValidNick(nick)
  {
    if |nick| == 0 || |nick| > 9 || '0' <= nick[0] <= '9' {
      return false;
    }
    for i := 1 to |nick|
      invariant forall j | 1 <= j < i :: IsAlnum(nick[j]) || IsSpecial(nick[j])
    {
      if !IsAlnum(nick[i]) && !IsSpecial(nick[i]) {
        return false;
      }
    }
    ok := true;
  }

  method IsUnused(server: Server, nick: string) returns (unused: bool)
    requires server.Valid()
    ensures unused <==> !NickSpec.InUse(server.clientRecs, nick)
  {
    var rest := server.clients.Keys;
    while rest != {}
      invariant rest <= server.clients.Keys
      invariant forall g | g in server.clientRecs && g !in rest :: server.clientRecs[g].nick != nick
      decreases |rest|
    {
      var g := Least(rest);
      if server.clients[g].nick == nick {
        assert server.clientRecs[g].nick == nick;
        return false;
      }
      rest := rest - {g};
    }
    unused := true;
  }

  // ---- who is told ---------------------------------------------------------

  /** The state, and the descriptors written down, when these have been visited. */
  ghost function Told(s: State, visit: seq<int>, line: Reply): (State, seq<int>) {
    (Tell(s, NickSpec.Targets(s, visit), line), NickSpec.Ids(s, NickSpec.Targets(s, visit)))
  }

  ghost predicate Stands(server: Server, s: State, visit: seq<int>, line: Reply)
    reads server
  {
    (server.State(), server.sendNick) == Told(s, visit, line)
  }

  lemma ToldNobody(s: State, line: Reply)
    ensures Told(s, [], line) == (s, [])
  {
    TellNobody(s, line);
  }

  lemma IdOf(s: State, group: seq<int>, g: int)
    requires g in group
    ensures Who(s, g).fd in NickSpec.Ids(s, group)
  {
    var i :| 0 <= i < |group| && group[i] == g;
    assert NickSpec.Ids(s, group)[i] == Who(s, g).fd;
  }

  lemma ToldOneMore(s: State, visit: seq<int>, g: int, line: Reply)
    requires g in s.clients
    ensures var (t, ids) := Told(s, visit, line);
      var id := Who(t, g).fd;
      Told(s, visit + [g], line) == if id in ids then (t, ids) else (Say(t, g, line), ids + [id])
  {
    var before := NickSpec.Targets(s, visit);
    assert (visit + [g])[..|visit|] == visit;
    if g in before {
      IdOf(s, before, g);
    }
    if Who(s, g).fd !in NickSpec.Ids(s, before) {
      TellOneMore(s, before, g, line);
      assert NickSpec.Ids(s, before + [g]) == NickSpec.Ids(s, before) + [Who(s, g).fd];
    }
  }

  /** One member: skipped if the descriptor it stores was written down already. */
  method TellOnce(server: Server, g: int, line: Reply)
    requires server.Valid() && g in server.clientRecs
    modifies server`clientRecs, server`sendNick, server.clientObjects
    ensures server.Valid()
    ensures var s, ids := old(server.State()), old(server.sendNick);
      (server.State(), server.sendNick)
      == if Who(s, g).fd in ids then (s, ids) else (Say(s, g, line), ids + [Who(s, g).fd])
  {
    var id := server.clients[g].fd;
    var at := FindIn(server.sendNick, id);
    if at == |server.sendNick| {
      server.Send(g, line);
      server.NoteSent(id);
    }
  }

  method TellNext(server: Server, ghost s: State, ghost visit: seq<int>, g: int, line: Reply)
    requires server.Valid() && g in s.clients && Stands(server, s, visit, line)
    modifies server`clientRecs, server`sendNick, server.clientObjects
    ensures server.Valid() && Stands(server, s, visit + [g], line)
  {
    ToldOneMore(s, visit, g, line);
    TellOnce(server, g, line);
  }

  lemma OneFurther<T>(before: seq<T>, list: seq<T>, i: nat)
    requires i < |list|
    ensures before + list[..i + 1] == before + list[..i] + [list[i]] && list[i] in list
  {
  }

  method TellMembers(server: Server, ghost s: State, ghost visit: seq<int>, list: seq<int>, line: Reply)
    requires server.Valid() && Stands(server, s, visit, line) && forall g | g in list :: g in s.clients
    modifies server`clientRecs, server`sendNick, server.clientObjects
    ensures server.Valid() && Stands(server, s, visit + list, line)
  {
    var i := 0;
    assert visit + list[..i] == visit;
    while i < |list|
      invariant i <= |list| && server.Valid() && Stands(server, s, visit + list[..i], line)
    {
      OneFurther(visit, list, i);
      TellNext(server, s, visit + list[..i], list[i], line);
      i := i + 1;
    }
    assert list[..i] == list;
  }

  ghost predicate AllReachable(s: State, chans: seq<string>) {
    forall n | n in chans :: forall g | g in ChannelAt(s, n).members :: g in s.clients
  }

  method TellChannel(server: Server, ghost s: State, ghost chans: seq<string>, n: string, line: Reply)
    requires server.Valid() && Stands(server, s, NickSpec.Visit(s, chans), line)
    requires forall g | g in ChannelAt(s, n).members :: g in s.clients
    modifies server`clientRecs, server`sendNick, server.clientObjects
    ensures server.Valid() && Stands(server, s, NickSpec.Visit(s, chans + [n]), line)
  {
    assert (chans + [n])[..|chans|] == chans;
    assert server.State().channels == s.channels;
    if n in server.channels {
      TellMembers(server, s, NickSpec.Visit(s, chans), server.channels[n].Members(), line);
    } else {
      assert n !in s.channels && ChannelAt(s, n).members == [];
      assert NickSpec.Visit(s, chans + [n]) == NickSpec.Visit(s, chans);
    }
  }

  method TellChannels(server: Server, chans: seq<string>, line: Reply)
    requires server.Valid() && AllReachable(server.State(), chans)
    modifies server`clientRecs, server`sendNick, server.clientObjects
    ensures server.Valid()
    ensures var s := old(server.State()); server.State() == Tell(s, NickSpec.Targets(s, NickSpec.Visit(s, chans)), line)
  {
    ghost var s := server.State();
    server.sendNick := [];
    ToldNobody(s, line);
    var i := 0;
    while i < |chans|
      invariant i <= |chans| && server.Valid() && Stands(server, s, NickSpec.Visit(s, chans[..i]), line)
    {
      var n := chans[i];
      assert n in chans && chans[..i + 1] == chans[..i] + [n];
      TellChannel(server, s, chans[..i], n, line);
      i := i + 1;
    }
    assert chans[..i] == chans;
  }

  lemma ListedReachable(s: State, fd: int)
    requires Inv(s) && fd in s.clients
    ensures AllReachable(s, s.clients[fd].chans)
  {
    forall n | n in s.clients[fd].chans ensures forall g | g in ChannelAt(s, n).members :: g in s.clients {
      assert ClientOk(s, fd) && IsMember(s, fd, n) && ChannelOk(s, n);
    }
  }

  method Announce(server: Server, fd: int, nick: string)
    requires server.Valid() && fd in server.clientRecs && AllReachable(server.State(), server.clientRecs[fd].chans)
    modifies server`clientRecs, server`sendNick, server.clientObjects
    ensures server.Valid()
    ensures server.State() == NickSpec.Announce(old(server.State()), fd, nick)
  {
    var client := server.clients[fd];
    var line := Relay(client.Prefix(), NICK, [nick]);
    if |client.chans| == 0 {
      server.Send(fd, line);
    } else {
      TellChannels(server, client.chans, line);
    }
  }

  method Rename(server: Server, fd: int, nick: string)
    requires server.Valid() && Inv(server.State()) && fd in server.clientRecs
    modifies server`clientRecs, server`sendNick, server.clientObjects
    ensures server.Valid()
    ensures server.State() == NickSpec.Rename(NickSpec.Announce(old(server.State()), fd, nick), fd, nick)
  {
    ListedReachable(server.State(), fd);
    Announce(server, fd, nick);
    server.SetNick(fd, nick);
  }

  /** NICK is its specification. After the collision loop no client has the
      nickname, so the answer that it is in use is never given. */
  method Nick(server: Server, fd: int, cmd: seq<string>)
    requires server.Valid() && Inv(server.State()) && fd in server.clientRecs
    modifies server`clients, server`clientRecs, server`sendNick, server.clientObjects
    ensures server.Valid()
    ensures server.State() == NickSpec.Nick(old(server.State()), fd, cmd)
  {
    if !server.clients[fd].passOk {
      server.EraseTheClient(fd);
      return;
    }
    if |cmd| < 2 {
      server.Send(fd, Numeric(431, []));
      return;
    }
    var nick := FreeNick(server, cmd[1]);
    var ok := Validate(nick);
    if !ok {
      server.Send(fd, Numeric(432, []));
      server.Send(fd, Usage(NICK));
      return;
    }
    var unused := IsUnused(server, nick);
    assert unused by {
      var k := NickSpec.FewestUnderscores(server.clientRecs, cmd[1]);
    }
    Rename(server, fd, nick);
  }
}
