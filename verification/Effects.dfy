/** The changes the commands make to the server, each as a change of its state. */
module Effects {
  import opened Seqs
  import opened IrcState
  import opened ServerObjects

  lemma TellOneMore(s: State, group: seq<int>, g: int, line: Reply)
    requires g in s.clients && g !in group
    ensures Say(Tell(s, group, line), g, line) == Tell(s, group + [g], line)
  {
    assert Say(Tell(s, group, line), g, line).clients == Tell(s, group + [g], line).clients;
  }

  lemma TellNobody(s: State, line: Reply)
    ensures Tell(s, [], line) == s
  {
    assert Tell(s, [], line).clients == s.clients;
  }

  lemma TellAlike(s: State, a: seq<int>, b: seq<int>, line: Reply)
    requires forall g :: g in a <==> g in b
    ensures Tell(s, a, line) == Tell(s, b, line)
  {
    var x, y := Tell(s, a, line).clients, Tell(s, b, line).clients;
    assert forall g | g in s.clients :: x[g] == y[g];
    assert x == y;
  }

  function Except(list: seq<int>, skip: Option<int>): seq<int> {
    if skip.Some? then Drop(list, skip.value) else list
  }

  lemma ExceptMeans(list: seq<int>, skip: Option<int>)
    requires NoDup(list)
    ensures forall g :: g in Except(list, skip) <==> g in list && Some(g) != skip
  {
    if skip.Some? {
      DropNoDup(list, skip.value);
    }
  }

  /** The loop over a list of clients; one of them may be passed over. */
  method TellEach(server: Server, list: seq<int>, skip: Option<int>, line: Reply)
    requires server.Valid() && NoDup(list) && forall g | g in list :: g in server.clientRecs
    modifies server`clientRecs, server.clientObjects
    ensures server.Valid()
    ensures server.State() == Tell(old(server.State()), Except(list, skip), line)
  {
    ghost var s := server.State();
    ghost var told: seq<int> := [];
    TellNobody(s, line);
    var i := 0;
    while i < |list|
      invariant i <= |list|
      invariant server.Valid() && server.State() == Tell(s, told, line)
      invariant forall g :: g in told <==> g in list[..i] && Some(g) != skip
    {
      assert list[i] !in list[..i] && list[..i + 1] == list[..i] + [list[i]];
      if Some(list[i]) != skip {
        TellOneMore(s, told, list[i], line);
        server.Send(list[i], line);
        told := told + [list[i]];
      }
      i := i + 1;
    }
    assert list[..i] == list;
    ExceptMeans(list, skip);
    TellAlike(s, told, Except(list, skip), line);
  }

  /** Every member of the channel can be found, once. */
  ghost predicate Reachable(s: State, n: string) {
    NoDup(ChannelAt(s, n).members) && forall g | g in ChannelAt(s, n).members :: g in s.clients
  }

  lemma MembersReachable(s: State, n: string)
    requires Inv(s) && n in s.channels
    ensures Reachable(s, n)
  {
    assert ChannelOk(s, n);
  }

  /** The members of a channel are all there to be told. */
  method MessageAll(server: Server, n: string, skip: Option<int>, line: Reply)
    requires server.Valid() && n in server.channelRecs && Reachable(server.State(), n)
    modifies server`clientRecs, server.clientObjects
    ensures server.Valid()
    ensures server.State() == Tell(old(server.State()), Except(old(server.channelRecs)[n].members, skip), line)
  {
    var list := server.channels[n].Members();
    TellEach(server, list, skip, line);
  }

  // ---- membership ----------------------------------------------------------

  lemma PutChannelTwice(s: State, n: string, a: ChannelRec, b: ChannelRec)
    ensures PutChannel(PutChannel(s, n, a), n, b) == PutChannel(s, n, b)
  {
  }

  /** The channel's member and operator lists lose fd. */
  method DropFrom(server: Server, n: string, fd: int)
    requires server.Valid() && n in server.channelRecs
    modifies server`channelRecs, server.channelObjects
    ensures server.Valid()
    ensures server.State() == PutChannel(old(server.State()), n, WithoutFd(old(server.channelRecs)[n], fd))
  {
    ghost var s, c := server.State(), server.channelRecs[n];
    server.DropMember(n, fd);
    PutChannelTwice(s, n, server.channelRecs[n], WithoutFd(c, fd));
    server.DropOperator(n, fd);
  }

  /** Both copies of the membership lose the pair. */
  method LeaveChannel(server: Server, fd: int, n: string)
    requires server.Valid() && fd in server.clientRecs && n in server.channelRecs
    modifies server`clientRecs, server`channelRecs, server.clientObjects, server.channelObjects
    ensures server.Valid()
    ensures server.State() == Leave(old(server.State()), fd, n)
  {
    DropFrom(server, n, fd);
    server.UnlistChannel(fd, n);
  }

  /** The channel is under its own name, fd is there, and so are the channel's members. */
  ghost predicate Leavable(s: State, fd: int, n: string) {
    n in s.channels && s.channels[n].name == n && fd in s.clients && Reachable(s, n)
  }

  lemma MembersLeave(s: State, fd: int, n: string)
    requires Inv(s) && IsMember(s, fd, n)
    ensures Leavable(s, fd, n)
  {
    assert ChannelOk(s, n);
  }

  method DepartFrom(server: Server, fd: int, n: string, line: Reply)
    requires server.Valid() && Leavable(server.State(), fd, n)
    modifies server`clientRecs, server`channelRecs, server.clientObjects, server.channelObjects
    ensures server.Valid()
    ensures server.State() == Depart(old(server.State()), fd, n, line)
  {
    MessageAll(server, n, None, line);
    LeaveChannel(server, fd, n);
  }

  /** A channel that lost its last member is taken out of the map, under the name it
      has itself, and then deleted. In between nothing holds it. */
  method PruneChannel(server: Server, n: string)
    requires server.Valid() && n in server.channelRecs && server.channelRecs[n].name == n
    modifies server`channels, server`channelRecs, server.channelObjects
    ensures server.Valid()
    ensures server.State() == Prune(old(server.State()), n)
  {
    var channel := server.channels[n];
    if |channel.Members()| == 0 {
      server.RemoveChannel(channel.Name());
      server.DeleteChannel(channel);
    }
  }

  method DepartWithPrune(server: Server, fd: int, n: string, line: Reply)
    requires server.Valid() && Leavable(server.State(), fd, n)
    modifies server`clientRecs, server`channels, server`channelRecs
    modifies server.clientObjects, server.channelObjects
    ensures server.Valid()
    ensures server.State() == Prune(Depart(old(server.State()), fd, n, line), n)
  {
    DepartFrom(server, fd, n, line);
    PruneChannel(server, n);
  }

  /** Both copies of the membership gain the pair. */
  method EnterChannel(server: Server, fd: int, n: string)
    requires server.Valid() && fd in server.clientRecs && n in server.channelRecs
    modifies server`clientRecs, server`channelRecs, server.clientObjects, server.channelObjects
    ensures server.Valid()
    ensures server.State() == Enter(old(server.State()), fd, n)
  {
    server.ListChannel(fd, n);
    server.AddMember(n, fd);
  }
}
