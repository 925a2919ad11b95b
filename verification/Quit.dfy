/** QUIT, and a connection that is lost: a client goes from all its channels. */
module QuitSpec {
  import opened Seqs
  import opened IrcState
  import opened Wire

  /** How many of the listed channels g is a member of. */
  function Shared(s: State, chans: seq<string>, g: int): nat {
    if chans == [] then 0
    else Shared(s, chans[..|chans| - 1], g) + if g in ChannelAt(s, chans[|chans| - 1]).members then 1 else 0
  }

  function Line(s: State, fd: int, reason: string): Reply {
    Relay(Who(s, fd).Prefix(), QUIT, [reason])
  }

  /** fd is the one member. */
  predicate Alone(c: ChannelRec, fd: int) {
    fd in c.members && Drop(c.members, fd) == []
  }

  /** The others get one line for each channel they share with fd, and the channels
      in which fd was alone are deleted. */
  function Quit(s: State, fd: int, cmd: seq<string>): State {
    var line := Line(s, fd, ChannelMessage(1, cmd));
    s.(clients := map g | g in s.clients && g != fd ::
         s.clients[g].(out := s.clients[g].out + Repeat(line, Shared(s, Who(s, fd).chans, g))),
       channels := map n | n in s.channels && !Alone(s.channels[n], fd) :: WithoutFd(s.channels[n], fd))
  }

  /** A lost connection: nobody is told, the invitation goes too, and a channel
      stays even when nobody is left in it. */
  function Disconnect(s: State, fd: int): State {
    s.(clients := s.clients - {fd},
       channels := map n | n in s.channels ::
         if n in Who(s, fd).chans
         then WithoutFd(s.channels[n], fd).(invites := Drop(s.channels[n].invites, fd))
         else s.channels[n])
  }

  /** fd has been taken out everywhere; a channel may have gone only with its
      last member. */
  ghost predicate Gone(s: State, t: State, fd: int) {
    && t.password == s.password
    && t.clients.Keys == s.clients.Keys - {fd}
    && (forall g | g in t.clients :: Quiet(s.clients[g], t.clients[g]))
    && t.channels.Keys <= s.channels.Keys
    && (forall n | n in s.channels && n !in t.channels :: forall g | g in s.channels[n].members :: g == fd)
    && forall n | n in t.channels ::
         && SameSettings(s.channels[n], t.channels[n])
         && t.channels[n].members == Drop(s.channels[n].members, fd)
         && t.channels[n].operators == Drop(s.channels[n].operators, fd)
         && NoDup(t.channels[n].invites)
  }

  /** Whoever leaves this way is in no member or operator list afterwards, and
      nobody else's membership changes. */
  lemma GoneRelations(s: State, t: State, fd: int)
    requires Inv(s) && fd in s.clients && Gone(s, t, fd)
    ensures Shrinks(s, t) && SamePass(s, t)
    ensures forall g, n :: IsMember(t, g, n) <==> IsMember(s, g, n) && g != fd
    ensures forall g, n :: IsOperator(t, g, n) <==> IsOperator(s, g, n) && g != fd
  {
    forall n | n in s.channels
      ensures n in t.channels ==> |t.channels[n].members| <= |s.channels[n].members|
      ensures forall g :: g in Drop(s.channels[n].members, fd) <==> g in s.channels[n].members && g != fd
      ensures forall g :: g in Drop(s.channels[n].operators, fd) <==> g in s.channels[n].operators && g != fd
      ensures forall g | g in s.channels[n].operators :: g in s.channels[n].members
    {
      assert ChannelOk(s, n);
      DropNoDup(s.channels[n].members, fd);
      DropNoDup(s.channels[n].operators, fd);
    }
    forall g, n ensures IsOperator(t, g, n) <==> IsOperator(s, g, n) && g != fd {
      if IsOperator(s, g, n) && g != fd {
        assert g in s.channels[n].members;
        assert n in t.channels;
      }
    }
  }

  lemma GoneKeepsInv(s: State, t: State, fd: int)
    requires Inv(s) && fd in s.clients && Gone(s, t, fd)
    ensures Inv(t)
  {
    GoneRelations(s, t, fd);
    forall n | n in t.channels ensures ChannelOk(t, n) {
      assert ChannelOk(s, n);
      DropNoDup(s.channels[n].members, fd);
      DropNoDup(s.channels[n].operators, fd);
    }
    forall g | g in t.clients ensures ClientOk(t, g) {
      assert ClientOk(s, g) && Quiet(s.clients[g], t.clients[g]);
      forall n | n in t.clients[g].chans ensures IsMember(t, g, n) {
        assert IsMember(s, g, n);
      }
    }
    forall f, g | f in t.clients && g in t.clients && f != g && t.clients[f].nick == t.clients[g].nick
      ensures t.clients[f].nick == "*" && !(t.clients[f].nickOk && t.clients[g].nickOk)
    {
      assert Quiet(s.clients[f], t.clients[f]) && Quiet(s.clients[g], t.clients[g]);
    }
  }

  lemma AloneMeans(c: ChannelRec, fd: int)
    requires NoDup(c.members)
    ensures Alone(c, fd) <==> c.members == [fd]
  {
    DropNoDup(c.members, fd);
  }

  lemma LastOne(s: State, fd: int, n: string)
    requires Inv(s) && n in s.channels
    ensures Alone(s.channels[n], fd) <==> s.channels[n].members == [fd]
    ensures NoDup(s.channels[n].invites)
    ensures Drop(s.channels[n].members, fd) == [] ==> s.channels[n].members == [] || s.channels[n].members == [fd]
  {
    assert ChannelOk(s, n);
    AloneMeans(s.channels[n], fd);
    DropNoDup(s.channels[n].members, fd);
    if fd !in s.channels[n].members {
      DropSame(s.channels[n].members, fd);
    }
  }

  lemma QuitIsGone(s: State, fd: int, cmd: seq<string>)
    requires Inv(s) && fd in s.clients
    ensures Gone(s, Quit(s, fd, cmd), fd) && EmptiesNone(s, Quit(s, fd, cmd))
  {
    var t := Quit(s, fd, cmd);
    forall n | n in s.channels
      ensures Alone(s.channels[n], fd) <==> s.channels[n].members == [fd]
      ensures NoDup(s.channels[n].invites)
      ensures Drop(s.channels[n].members, fd) == [] ==> s.channels[n].members == [] || s.channels[n].members == [fd]
    {
      LastOne(s, fd, n);
    }
  }

  lemma DisconnectIsGone(s: State, fd: int)
    requires Inv(s) && fd in s.clients
    ensures Gone(s, Disconnect(s, fd), fd)
  {
    assert ClientOk(s, fd);
    forall n | n in s.channels
      ensures NoDup(Drop(s.channels[n].invites, fd)) && NoDup(s.channels[n].invites)
      ensures n !in s.clients[fd].chans ==> WithoutFd(s.channels[n], fd) == s.channels[n]
    {
      assert ChannelOk(s, n);
      DropNoDup(s.channels[n].invites, fd);
      if n !in s.clients[fd].chans {
        DropSame(s.channels[n].members, fd);
        DropSame(s.channels[n].operators, fd);
      }
    }
  }

  /** QUIT: the quitter is in no list any more, and nobody else's pairs change. */
  lemma QuitRemovesAll(s: State, fd: int, cmd: seq<string>)
    requires Inv(s) && fd in s.clients
    ensures var t := Quit(s, fd, cmd);
      && Inv(t) && Shrinks(s, t) && SamePass(s, t) && EmptiesNone(s, t) && fd !in t.clients
      && (forall g, n :: IsMember(t, g, n) <==> IsMember(s, g, n) && g != fd)
      && (forall g, n :: IsOperator(t, g, n) <==> IsOperator(s, g, n) && g != fd)
  {
    QuitIsGone(s, fd, cmd);
    GoneRelations(s, Quit(s, fd, cmd), fd);
    GoneKeepsInv(s, Quit(s, fd, cmd), fd);
  }

  lemma OneMoreShared(s: State, front: seq<string>, last: string, g: int)
    requires last !in front && last in s.channels
    ensures |set n | n in front + [last] && IsMember(s, g, n)|
         == |set n | n in front && IsMember(s, g, n)| + if g in s.channels[last].members then 1 else 0
  {
    var before := set n | n in front && IsMember(s, g, n);
    var after := set n | n in front + [last] && IsMember(s, g, n);
    assert after == if IsMember(s, g, last) then before + {last} else before;
  }

  /** The number of lines is the number of channels in common. */
  lemma {:induction false} SharedCounts(s: State, chans: seq<string>, g: int)
    requires NoDup(chans) && forall n | n in chans :: n in s.channels
    ensures Shared(s, chans, g) == |set n | n in chans && IsMember(s, g, n)|
  {
    if chans == [] {
      assert (set n | n in chans && IsMember(s, g, n)) == {};
    } else {
      var front, last := chans[..|chans| - 1], chans[|chans| - 1];
      assert chans == front + [last] && last !in front;
      SharedCounts(s, front, g);
      OneMoreShared(s, front, last, g);
    }
  }

  lemma QuitLines(s: State, fd: int, cmd: seq<string>, g: int)
    requires Inv(s) && fd in s.clients && g in s.clients && g != fd
    ensures var common := set n | n in s.clients[fd].chans && IsMember(s, g, n);
      && (forall n :: n in common <==> IsMember(s, fd, n) && IsMember(s, g, n))
      && Quit(s, fd, cmd).clients[g].out
         == s.clients[g].out + Repeat(Relay(s.clients[fd].Prefix(), QUIT, [ChannelMessage(1, cmd)]), |common|)
  {
    assert ClientOk(s, fd);
    forall n ensures n in s.clients[fd].chans <==> IsMember(s, fd, n) {
      if IsMember(s, fd, n) {
        assert ChannelOk(s, n);
      }
    }
    SharedCounts(s, s.clients[fd].chans, g);
  }

  /** A lost connection leaves a channel without members exactly when the client
      was the only one in it. */
  lemma DisconnectEmpties(s: State, fd: int)
    requires Inv(s) && fd in s.clients
    ensures var t := Disconnect(s, fd);
      && Inv(t) && Shrinks(s, t) && SamePass(s, t) && fd !in t.clients && t.channels.Keys == s.channels.Keys
      && (forall g, n :: IsMember(t, g, n) <==> IsMember(s, g, n) && g != fd)
      && (forall g, n :: IsOperator(t, g, n) <==> IsOperator(s, g, n) && g != fd)
      && (EmptiesNone(s, t) <==> forall n | n in s.channels :: s.channels[n].members != [fd])
  {
    var t := Disconnect(s, fd);
    DisconnectIsGone(s, fd);
    GoneRelations(s, t, fd);
    GoneKeepsInv(s, t, fd);
    forall n | n in s.channels
      ensures t.channels[n].members == [] <==> s.channels[n].members == [] || s.channels[n].members == [fd]
    {
      assert ChannelOk(s, n);
      AloneMeans(s.channels[n], fd);
      if fd !in s.channels[n].members {
        DropSame(s.channels[n].members, fd);
      }
    }
  }
}
