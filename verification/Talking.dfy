/** TOPIC, INVITE and PRIVMSG as the server carries them out. */
module TopicCommand {
  import opened Seqs
  import opened IrcState
  import opened Wire
  import opened ServerObjects
  import opened Effects
  import TopicSpec

  /** The words after the channel, put together again; a colon in front goes. */
  method TopicText(cmd: seq<string>) returns (topic: string)
    requires |cmd| > 2
    ensures topic == TopicSpec.NewTopic(cmd)
  {
    if cmd[2] == ":" {
      return "";
    }
    topic := cmd[2];
    assert cmd[2..3] == [cmd[2]];
    for i := 3 to |cmd|
      invariant topic == JoinWords(cmd[2..i])
    {
      assert cmd[2..i + 1] == cmd[2..i] + [cmd[i]];
      JoinWordsAppend(cmd[2..i], cmd[i]);
      topic := topic + " " + cmd[i];
    }
    assert cmd[2..|cmd|] == cmd[2..];
    if topic != "" && topic[0] == ':' {
      topic := topic[1..];
    }
  }

  lemma Retitled(s: State, n: string, topic: string)
    requires Inv(s) && n in s.channels
    ensures Reachable(PutChannel(s, n, s.channels[n].(topic := topic)), n)
  {
    assert ChannelOk(s, n);
  }

  method Retitle(server: Server, fd: int, n: string, topic: string)
    requires server.Valid() && Inv(server.State()) && n in server.channelRecs
    modifies server`clientRecs, server`channelRecs, server.clientObjects, server.channelObjects
    ensures server.Valid()
    ensures server.State() == TopicSpec.SetTopic(old(server.State()), fd, n, topic)
  {
    Retitled(server.State(), n, topic);
    server.SetTopic(n, topic);
    MessageAll(server, n, None, Relay(ServerOrigin, TOPIC, [n, topic]));
  }

  /** What keeps the issuer from changing the topic, or the answer to a question. */
  method Check(server: Server, fd: int, cmd: seq<string>) returns (answer: Option<Reply>)
    requires server.Valid() && fd in server.clientRecs
    ensures var s := server.State();
      answer == if TopicSpec.Retitles(s, fd, cmd) then None else Some(TopicSpec.Answer(s, fd, cmd))
  {
    var nick := server.clients[fd].nick;
    if |cmd| < 2 {
      return Some(Numeric(461, []));
    }
    if cmd[1] !in server.channels {
      return Some(Numeric(403, [nick, cmd[1]]));
    }
    var channel := server.channels[cmd[1]];
    var inside := channel.HasMember(fd);
    if !inside {
      return Some(Numeric(442, [nick, cmd[1]]));
    }
    if |cmd| == 2 {
      return Some(if channel.Topic() == "" then Numeric(331, [nick, cmd[1]])
        else Numeric(332, [nick, cmd[1], channel.Topic()]));
    }
    if channel.IsOn('t') {
      var operator := channel.HasOperator(fd);
      if !operator {
        return Some(Numeric(482, [nick, cmd[1]]));
      }
    }
    answer := None;
  }

  method Topic(server: Server, fd: int, cmd: seq<string>)
    requires server.Valid() && Inv(server.State()) && fd in server.clientRecs
    modifies server`clientRecs, server`channelRecs, server.clientObjects, server.channelObjects
    ensures server.Valid()
    ensures server.State() == TopicSpec.Topic(old(server.State()), fd, cmd)
  {
    var answer := Check(server, fd, cmd);
    if answer.Some? {
      server.Send(fd, answer.value);
    } else {
      var topic := TopicText(cmd);
      Retitle(server, fd, cmd[1], topic);
    }
  }
}

module InviteCommand {
  import opened Seqs
  import opened IrcState
  import opened ServerObjects
  import InviteSpec

  /** The chain of checks. */
  method Check(server: Server, fd: int, cmd: seq<string>) returns (refusal: Option<Reply>)
    requires server.Valid() && fd in server.clientRecs
    ensures refusal == InviteSpec.Refusal(server.State(), fd, cmd)
  {
    var client := server.clients[fd];
    if |cmd| < 3 {
      return Some(Numeric(461, []));
    }
    var target := server.FindClient(cmd[1]);
    if target.None? {
      return Some(Numeric(401, [client.nick, cmd[1]]));
    }
    if cmd[2] !in server.channels {
      return Some(Numeric(403, [client.nick, cmd[2]]));
    }
    var channel := server.channels[cmd[2]];
    var inside := channel.HasMember(client.fd);
    if !inside {
      return Some(Numeric(442, [client.nick, cmd[2]]));
    }
    var operator := channel.HasOperator(client.fd);
    if !operator {
      return Some(Numeric(482, [client.nick, cmd[2]]));
    }
    var already := channel.HasMember(server.clients[target.value].fd);
    if already {
      return Some(Numeric(443, [client.nick, cmd[1], cmd[2]]));
    }
    refusal := None;
  }

  method Summon(server: Server, fd: int, target: int, nick: string, n: string)
    requires server.Valid() && fd in server.clientRecs && target in server.clientRecs && n in server.channelRecs
    modifies server`clientRecs, server`channelRecs, server.clientObjects, server.channelObjects
    ensures server.Valid()
    ensures server.State() == InviteSpec.Summon(old(server.State()), fd, target, nick, n)
  {
    var client, other := server.clients[fd], server.clients[target];
    server.Send(target, Relay(NickOrigin(client.nick), INVITE, [other.nick, n]));
    server.Send(fd, Numeric(341, [client.nick, nick, n]));
    server.AddInvite(n, other.fd);
  }

  method Invite(server: Server, fd: int, cmd: seq<string>)
    requires server.Valid() && fd in server.clientRecs
    modifies server`clientRecs, server`channelRecs, server.clientObjects, server.channelObjects
    ensures server.Valid()
    ensures server.State() == InviteSpec.Invite(old(server.State()), fd, cmd)
  {
    var refusal := Check(server, fd, cmd);
    if refusal.Some? {
      server.Send(fd, refusal.value);
    } else {
      var target := server.FindClient(cmd[1]);
      Summon(server, fd, target.value, cmd[1], cmd[2]);
    }
  }
}

module PrivmsgCommand {
  import opened Seqs
  import opened IrcState
  import opened Wire
  import opened ServerObjects
  import opened Effects
  import PrivmsgSpec

  /** Nobody leaves or joins while messages are delivered. */
  ghost predicate Deliverable(s: State, fd: int) {
    fd in s.clients && forall n | n in s.clients[fd].chans :: n in s.channels && Reachable(s, n)
  }

  lemma MembersDeliver(s: State, fd: int)
    requires Inv(s) && fd in s.clients
    ensures Deliverable(s, fd)
  {
    forall n | n in s.clients[fd].chans ensures n in s.channels && Reachable(s, n) {
      assert ClientOk(s, fd) && IsMember(s, fd, n);
      MembersReachable(s, n);
    }
  }

  lemma SendKeepsAll(s: State, fd: int, target: string, text: string)
    requires Deliverable(s, fd)
    ensures var t := PrivmsgSpec.SendOne(s, fd, target, text).0; OnlyOutput(s, t) && Deliverable(t, fd)
  {
    var t := PrivmsgSpec.SendOne(s, fd, target, text).0;
    assert OnlyOutput(s, t);
    assert Quiet(s.clients[fd], t.clients[fd]);
  }

  method Deliver(server: Server, fd: int, target: string, text: string) returns (more: bool)
    requires server.Valid() && Deliverable(server.State(), fd)
    requires !PrivmsgSpec.IsChannelTarget(target) ==> Find(server.clientRecs, target).Some?
    modifies server`clientRecs, server.clientObjects
    ensures server.Valid()
    ensures (server.State(), more) == PrivmsgSpec.SendOne(old(server.State()), fd, target, text)
  {
    var client := server.clients[fd];
    if target != "" && (target[0] == '#' || target[0] == '&') {
      var at := FindIn(client.chans, target);
      if at == |client.chans| {
        server.Send(fd, Numeric(404, [client.nick, target]));
        return false;
      }
      MessageAll(server, target, Some(fd), Relay(client.Prefix(), PRIVMSG, [target, text]));
    } else {
      var receiver := server.FindClient(target);
      server.Send(receiver.value, Relay(client.Prefix(), PRIVMSG, [client.nick, text]));
    }
    more := true;
  }

  ghost predicate Going(s: State, fd: int, targets: seq<string>, i: nat) {
    i <= |targets| && Deliverable(s, fd) && PrivmsgSpec.AllKnown(s, fd, targets[i..])
  }

  lemma {:induction false} KnownAgrees(s: State, t: State, fd: int, targets: seq<string>)
    requires OnlyOutput(s, t) && fd in s.clients && PrivmsgSpec.AllKnown(s, fd, targets)
    ensures PrivmsgSpec.AllKnown(t, fd, targets)
  {
    if targets != [] {
      assert Quiet(s.clients[fd], t.clients[fd]);
      assert forall g | g in s.clients :: Quiet(s.clients[g], t.clients[g]);
      FindAgrees(s.clients, t.clients, targets[0]);
      if !PrivmsgSpec.IsChannelTarget(targets[0]) || targets[0] in s.clients[fd].chans {
        KnownAgrees(s, t, fd, targets[1..]);
      }
    }
  }

  lemma GoingOn(s: State, fd: int, targets: seq<string>, i: nat, text: string)
    requires Going(s, fd, targets, i) && i < |targets|
    ensures !PrivmsgSpec.IsChannelTarget(targets[i]) ==> Find(s.clients, targets[i]).Some?
    ensures var (t, more) := PrivmsgSpec.SendOne(s, fd, targets[i], text);
      && (more ==> Going(t, fd, targets, i + 1))
      && PrivmsgSpec.SendAll(s, fd, targets[i..], text)
         == if more then PrivmsgSpec.SendAll(t, fd, targets[i + 1..], text) else t
  {
    assert targets[i..][0] == targets[i] && targets[i..][1..] == targets[i + 1..];
    var (t, more) := PrivmsgSpec.SendOne(s, fd, targets[i], text);
    SendKeepsAll(s, fd, targets[i], text);
    if more {
      KnownAgrees(s, t, fd, targets[i + 1..]);
    }
  }

  method DeliverNext(server: Server, fd: int, targets: seq<string>, i: nat, text: string) returns (more: bool)
    requires server.Valid() && Going(server.State(), fd, targets, i) && i < |targets|
    modifies server`clientRecs, server.clientObjects
    ensures server.Valid() && (more ==> Going(server.State(), fd, targets, i + 1))
    ensures PrivmsgSpec.SendAll(old(server.State()), fd, targets[i..], text)
         == if more then PrivmsgSpec.SendAll(server.State(), fd, targets[i + 1..], text) else server.State()
  {
    GoingOn(server.State(), fd, targets, i, text);
    more := Deliver(server, fd, targets[i], text);
  }

  method DeliverAll(server: Server, fd: int, targets: seq<string>, text: string)
    requires server.Valid() && Going(server.State(), fd, targets, 0)
    modifies server`clientRecs, server.clientObjects
    ensures server.Valid()
    ensures server.State() == PrivmsgSpec.SendAll(old(server.State()), fd, targets, text)
  {
    ghost var s := server.State();
    var i := 0;
    assert targets[i..] == targets;
    while i < |targets|
      invariant server.Valid() && Going(server.State(), fd, targets, i)
      invariant PrivmsgSpec.SendAll(server.State(), fd, targets[i..], text) == PrivmsgSpec.SendAll(s, fd, targets, text)
    {
      var more := DeliverNext(server, fd, targets, i, text);
      if !more {
        return;
      }
      i := i + 1;
    }
  }

  method Privmsg(server: Server, fd: int, cmd: seq<string>)
    requires server.Valid() && Inv(server.State()) && fd in server.clientRecs
    requires PrivmsgSpec.PrivmsgDefined(server.State(), fd, cmd)
    modifies server`clientRecs, server.clientObjects
    ensures server.Valid()
    ensures server.State() == PrivmsgSpec.Privmsg(old(server.State()), fd, cmd)
  {
    if |cmd| < 3 {
      server.Send(fd, Numeric(461, []));
      return;
    }
    var targets := SplitAt(cmd[1], ',');
    var text := ChannelText(2, cmd);
    MembersDeliver(server.State(), fd);
    assert targets[0..] == targets;
    DeliverAll(server, fd, targets, text);
  }
}
