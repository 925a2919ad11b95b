/** Command::run and the event loop: what the server does for one event. */
module EventLoop {
  import opened Seqs
  import opened IrcState
  import opened Wire
  import opened ServerObjects
  import KickSpec
  import PrivmsgSpec
  import Protocol
  import Runs
  import PassCommand
  import UserCommand
  import NickCommand
  import PartCommand
  import KickCommand
  import QuitCommand
  import DisconnectCommand
  import JoinCommand
  import ModeCommand
  import TopicCommand
  import InviteCommand
  import PrivmsgCommand

  // ---- signing up ----------------------------------------------------------

  method Greet(server: Server, fd: int)
    requires server.Valid()
    modifies server`clientRecs, server.clientObjects
    ensures server.Valid()
    ensures server.State() == Protocol.Greet(old(server.State()), fd)
  {
    if fd in server.clients {
      var client := server.clients[fd];
      var registered := client.IsRegistered();
      if registered {
        server.Send(fd, Welcome(client.nick, client.user, client.host));
      }
    }
  }

  /** A client that has not signed up gets no further than these three. */
  method Enrol(server: Server, fd: int, verb: Verb, cmd: seq<string>)
    requires server.Valid() && Inv(server.State()) && fd in server.clientRecs
    modifies server`clients, server`clientRecs, server`sendNick, server.clientObjects
    ensures server.Valid()
    ensures server.State() == Protocol.Enrol(old(server.State()), fd, verb, cmd)
  {
    match verb
    case PASS => PassCommand.Pass(server, fd, cmd);
    case NICK => NickCommand.Nick(server, fd, cmd);
    case USER => UserCommand.User(server, fd, cmd);
    case NOTHING =>
    case _ => server.EraseTheClient(fd);
  }

  method SignUp(server: Server, fd: int, cmd: seq<string>)
    requires server.Valid() && Inv(server.State()) && fd in server.clientRecs
    modifies server`clients, server`clientRecs, server`sendNick, server.clientObjects
    ensures server.Valid()
    ensures server.State() == Protocol.SignUp(old(server.State()), fd, Protocol.Head(cmd), cmd)
  {
    Enrol(server, fd, Protocol.Head(cmd), cmd);
    Greet(server, fd);
  }

  // ---- signed in -----------------------------------------------------------

  method Ping(server: Server, fd: int, cmd: seq<string>)
    requires server.Valid() && fd in server.clientRecs
    modifies server`clientRecs, server.clientObjects
    ensures server.Valid()
    ensures server.State() == Protocol.Ping(old(server.State()), fd, cmd)
  {
    if |cmd| < 2 {
      server.Send(fd, Numeric(461, []));
      server.Send(fd, Usage(PING));
    } else {
      server.Send(fd, Pong(cmd[1]));
    }
  }

  /** The commands about the client itself, and those that are answered at once. */
  method OnSelf(server: Server, fd: int, verb: Verb, cmd: seq<string>)
    requires server.Valid() && Inv(server.State()) && fd in server.clientRecs
    requires verb in {PASS, NICK, USER, LIST, PING, WHOIS, WHO, NOTHING, UNKNOWN}
    modifies server`clients, server`clientRecs, server`sendNick, server.clientObjects
    ensures server.Valid()
    ensures server.State() == Protocol.SignIn(old(server.State()), fd, verb, cmd)
  {
    match verb
    case PASS => PassCommand.Pass(server, fd, cmd);
    case NICK => NickCommand.Nick(server, fd, cmd);
    case USER => UserCommand.User(server, fd, cmd);
    case LIST => server.ClearOut(fd);
    case PING => Ping(server, fd, cmd);
    case UNKNOWN => server.Send(fd, Numeric(421, [server.clients[fd].nick, if cmd == [] then "" else cmd[0]]));
    case _ =>
  }

  /** The commands that speak to others or set up a channel. */
  method OnChannel(server: Server, fd: int, verb: Verb, cmd: seq<string>)
    requires server.Valid() && Inv(server.State()) && fd in server.clientRecs
    requires verb in {PRIVMSG, MODE, TOPIC, INVITE}
    requires verb == PRIVMSG ==> PrivmsgSpec.PrivmsgDefined(server.State(), fd, cmd)
    modifies server`clientRecs, server`channelRecs, server.clientObjects, server.channelObjects
    ensures server.Valid()
    ensures server.State() == Protocol.SignIn(old(server.State()), fd, verb, cmd)
  {
    match verb
    case PRIVMSG => PrivmsgCommand.Privmsg(server, fd, cmd);
    case MODE => ModeCommand.Mode(server, fd, cmd);
    case TOPIC => TopicCommand.Topic(server, fd, cmd);
    case INVITE => InviteCommand.Invite(server, fd, cmd);
  }

  /** The commands that take somebody out of a channel. */
  method OnLeaving(server: Server, fd: int, verb: Verb, cmd: seq<string>)
    requires server.Valid() && Inv(server.State()) && fd in server.clientRecs
    requires verb in {PART, KICK, QUIT}
    requires verb == KICK ==> KickSpec.KickDefined(server.State(), fd, cmd)
    modifies server`clients, server`clientRecs, server`channels, server`channelRecs
    modifies server.clientObjects, server.channelObjects
    ensures server.Valid()
    ensures server.State() == Protocol.SignIn(old(server.State()), fd, verb, cmd)
  {
    match verb
    case PART => PartCommand.Part(server, fd, cmd);
    case KICK => KickCommand.Kick(server, fd, cmd);
    case QUIT => QuitCommand.Quit(server, fd, cmd);
  }

  method SignIn(server: Server, fd: int, cmd: seq<string>)
    requires server.Valid() && JoinCommand.Pending(server.State(), fd)
    requires Protocol.CommandDefined(server.State(), fd, cmd)
    modifies server`clients, server`clientRecs, server`sendNick, server.clientObjects, server.channelObjects
    modifies server`channels, server`channelRecs, server`channelObjects
    ensures server.Valid() && fresh(server.channelObjects - old(server.channelObjects))
    ensures server.State() == Protocol.SignIn(old(server.State()), fd, Protocol.Head(cmd), cmd)
  {
    var verb := Protocol.Head(cmd);
    match verb
    case JOIN => JoinCommand.Join(server, fd, cmd);
    case PART | KICK | QUIT => OnLeaving(server, fd, verb, cmd);
    case PRIVMSG | MODE | TOPIC | INVITE => OnChannel(server, fd, verb, cmd);
    case _ => OnSelf(server, fd, verb, cmd);
  }

  method Execute(server: Server, fd: int, cmd: seq<string>)
    requires server.Valid() && Inv(server.State()) && fd in server.clientRecs
    requires Protocol.CommandDefined(server.State(), fd, cmd)
    modifies server`clients, server`clientRecs, server`sendNick, server.clientObjects, server.channelObjects
    modifies server`channels, server`channelRecs, server`channelObjects
    ensures server.Valid() && fresh(server.channelObjects - old(server.channelObjects))
    ensures server.State() == Protocol.Execute(old(server.State()), fd, cmd)
  {
    var registered := server.clients[fd].IsRegistered();
    if registered {
      SignIn(server, fd, cmd);
    } else {
      SignUp(server, fd, cmd);
    }
  }

  // ---- one message ---------------------------------------------------------

  lemma NothingHeld(s: State, fd: int)
    requires fd in s.clients
    ensures Protocol.Hold(s, fd, Protocol.Pending(s, fd)) == s
  {
    assert s.clients[fd := s.clients[fd]] == s.clients;
  }

  /** What is done with the text: it is kept, or put behind what was kept before. */
  method Gather(server: Server, fd: int, text: string) returns (line: Option<string>)
    requires server.Valid() && fd in server.clientRecs
    requires Intake(Protocol.Pending(server.State(), fd), text).1 != Batch
    modifies server`clientRecs, server.clientObjects
    ensures server.Valid()
    ensures var s := old(server.State());
      var (b, outcome) := Intake(Protocol.Pending(s, fd), text);
      && server.State() == Protocol.Hold(s, fd, b)
      && outcome == if line.Some? then Ready(Words(line.value)) else Nothing
  {
    NothingHeld(server.State(), fd);
    var client := server.clients[fd];
    if Contains(text, "CAP LS") {
      line := None;
    } else if '\n' !in text {
      server.SetHeld(fd, client.held + text, true);
      line := None;
    } else if client.partial {
      line := Some(client.held + text);
      server.SetHeld(fd, "", false);
    } else {
      line := Some(text);
    }
  }

  lemma HoldKeepsInv(s: State, fd: int, b: Buffer)
    requires Inv(s) && fd in s.clients
    ensures Inv(Protocol.Hold(s, fd, b)) && fd in Protocol.Hold(s, fd, b).clients
  {
    Protocol.HoldIsOutput(s, fd, b);
    OutputKeepsInv(s, Protocol.Hold(s, fd, b));
  }

  method Obey(server: Server, fd: int, line: string)
    requires server.Valid() && Inv(server.State()) && fd in server.clientRecs
    requires Protocol.CommandDefined(server.State(), fd, Words(line))
    modifies server`clients, server`clientRecs, server`sendNick, server.clientObjects, server.channelObjects
    modifies server`channels, server`channelRecs, server`channelObjects
    ensures server.Valid() && fresh(server.channelObjects - old(server.channelObjects))
    ensures server.State() == Protocol.Execute(old(server.State()), fd, Words(line))
  {
    var cmd := Tokenize(line);
    Execute(server, fd, cmd);
  }

  /** One message from a client. */
  method Run(server: Server, fd: int, text: string)
    requires server.Valid() && Inv(server.State()) && Protocol.EventOk(server.State(), Protocol.Message(fd, text))
    modifies server`clients, server`clientRecs, server`sendNick, server.clientObjects, server.channelObjects
    modifies server`channels, server`channelRecs, server`channelObjects
    ensures server.Valid() && fresh(server.channelObjects - old(server.channelObjects))
    ensures server.State() == Protocol.Receive(old(server.State()), fd, text)
  {
    HoldKeepsInv(server.State(), fd, Intake(Protocol.Pending(server.State(), fd), text).0);
    var line := Gather(server, fd, text);
    if line.Some? {
      Obey(server, fd, line.value);
    }
  }

  // ---- every event ---------------------------------------------------------

  /** A connection on a descriptor that still has a client changes nothing. */
  method Accept(server: Server, fd: int)
    requires server.Valid()
    modifies server`clients, server`clientRecs, server`clientObjects
    ensures server.Valid() && fresh(server.clientObjects - old(server.clientObjects))
    ensures server.State() == Protocol.Step(old(server.State()), Protocol.Accept(fd))
  {
    if fd !in server.clients {
      server.InsertClient(fd, fd);
    }
  }

  method Hangup(server: Server, fd: int)
    requires server.Valid() && Inv(server.State())
    modifies server`clients, server`clientRecs, server`channelRecs, server.clientObjects, server.channelObjects
    ensures server.Valid()
    ensures server.State() == Protocol.Step(old(server.State()), Protocol.Hangup(fd))
  {
    if fd in server.clients {
      DisconnectCommand.Disconnect(server, fd);
    }
  }

  /** The blank client that stands in for the lost one stores no descriptor. */
  method Close(server: Server, fd: int)
    requires server.Valid() && Inv(server.State()) && fd in server.clientRecs
    modifies server`clients, server`clientRecs, server`clientObjects, server`channelRecs
    modifies server.clientObjects, server.channelObjects
    ensures server.Valid() && fresh(server.clientObjects - old(server.clientObjects))
    ensures server.State() == Protocol.Close(old(server.State()), fd)
  {
    DisconnectCommand.Disconnect(server, fd);
    server.InsertClient(fd, -1);
    server.SetHeld(fd, "", true);
  }

  ghost function Flushed(s: State, rest: set<int>): State {
    s.(clients := map g | g in s.clients :: if g in rest then s.clients[g] else s.clients[g].(out := []))
  }

  lemma FlushOneMore(s: State, rest: set<int>, g: int)
    requires g in rest && g in s.clients
    ensures var p := Flushed(s, rest);
      PutClient(p, g, p.clients[g].(out := [])) == Flushed(s, rest - {g})
  {
    var p := Flushed(s, rest);
    assert PutClient(p, g, p.clients[g].(out := [])).clients == Flushed(s, rest - {g}).clients;
  }

  /** Every output buffer is sent and cleared, in the order of the descriptors. */
  method Flush(server: Server)
    requires server.Valid()
    modifies server`clientRecs, server.clientObjects
    ensures server.Valid()
    ensures server.State() == Flushed(old(server.State()), {})
  {
    ghost var s := server.State();
    var rest := server.clients.Keys;
    assert Flushed(s, rest).clients == s.clients;
    while rest != {}
      invariant rest <= s.clients.Keys && server.Valid() && server.State() == Flushed(s, rest)
      decreases |rest|
    {
      var g := Least(rest);
      FlushOneMore(s, rest, g);
      server.ClearOut(g);
      rest := rest - {g};
    }
  }

  /** The events that carry no command. */
  method HandleOther(server: Server, e: Protocol.Event)
    requires server.Valid() && Inv(server.State()) && !e.Message? && Protocol.EventOk(server.State(), e)
    modifies server`clients, server`clientRecs, server`clientObjects, server`channelRecs
    modifies server.clientObjects, server.channelObjects
    ensures server.Valid() && fresh(server.clientObjects - old(server.clientObjects))
    ensures server.State() == Protocol.Step(old(server.State()), e)
  {
    match e
    case Accept(fd) => Accept(server, fd);
    case Hangup(fd) => Hangup(server, fd);
    case Closed(fd) => Close(server, fd);
    case Flush => Flush(server);
  }

  /** One event of the poll loop is one step of the protocol, on the objects of the
      server as on its state. */
  method HandleEvent(server: Server, e: Protocol.Event)
    requires server.Valid() && Inv(server.State()) && Protocol.EventOk(server.State(), e)
    modifies server`clients, server`clientRecs, server`clientObjects, server`sendNick
    modifies server`channels, server`channelRecs, server`channelObjects
    modifies server.clientObjects, server.channelObjects
    ensures server.Valid()
    ensures fresh(server.clientObjects - old(server.clientObjects))
    ensures fresh(server.channelObjects - old(server.channelObjects))
    ensures server.State() == Protocol.Step(old(server.State()), e)
  {
    if e.Message? {
      Run(server, e.fd, e.text);
    } else {
      HandleOther(server, e);
    }
  }

  /** A whole run: from its construction the server is, after every event, in the
      state the run prescribes, so what is proved of runs is true of its objects. */
  method Serve(password: string, events: seq<Protocol.Event>, ghost states: seq<State>) returns (server: Server)
    requires Runs.IsRun(states, events) && states[0].password == password
    ensures fresh(server) && server.Valid()
    ensures server.State() == states[|events|] && Inv(server.State())
  {
    server := new Server(password);
    var i := 0;
    while i < |events|
      invariant i <= |events| && fresh(server) && server.Valid() && server.State() == states[i]
      invariant fresh(server.clientObjects) && fresh(server.channelObjects)
    {
      Runs.Reachable(states, events, i);
      assert Runs.StepAt(states, events, i);
      HandleEvent(server, events[i]);
      i := i + 1;
    }
    Runs.Reachable(states, events, i);
  }

  // ---- the life of a channel object ----------------------------------------

  lemma {:induction false} Counted(objects: set<Channel>, keys: set<string>)
    requires forall c | c in objects :: c.slot in keys
    requires forall n | n in keys :: exists c :: c in objects && c.slot == n
    requires forall c, d | c in objects && d in objects && c.slot == d.slot :: c == d
    ensures |objects| == |keys|
    decreases |keys|
  {
    if objects == {} {
      assert keys == {};
    } else {
      var c :| c in objects;
      var rest, others := objects - {c}, keys - {c.slot};
      forall n | n in others ensures exists d :: d in rest && d.slot == n {
        var d :| d in objects && d.slot == n;
        assert d in rest;
      }
      Counted(rest, others);
      assert |objects| == |rest| + 1 && |keys| == |others| + 1;
    }
  }

  /** As many channels were constructed as are in the map or were deleted, and no two
      names hold the same object. */
  lemma Lifetime(server: Server)
    requires server.Valid()
    ensures |server.channelObjects|
         == |server.channels.Keys| + |set c: Channel | c in server.channelObjects && !c.alive|
    ensures forall m, n | m in server.channels && n in server.channels && m != n
      :: server.channels[m] != server.channels[n]
    ensures forall n | n in server.channels :: server.channels[n].alive
  {
    var live := set c: Channel | c in server.channelObjects && c.alive;
    var dead := set c: Channel | c in server.channelObjects && !c.alive;
    forall n | n in server.channels.Keys ensures exists c :: c in live && c.slot == n {
      assert server.channels[n] in live;
    }
    Counted(live, server.channels.Keys);
    assert server.channelObjects == live + dead;
  }
}
