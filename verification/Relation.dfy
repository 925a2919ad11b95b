/** What every step does to two relations: who is in which channel, and who runs
    which channel. The two maps of the server refine them. */
module Relation {
  import opened IrcState
  import opened Wire
  import PassSpec
  import UserSpec
  import NickSpec
  import PartSpec
  import KickSpec
  import QuitSpec
  import JoinSpec
  import ModeSpec
  import TopicSpec
  import InviteSpec
  import PrivmsgSpec
  import opened Protocol

  /** The two copies of the membership agree, and operators are members. */
  lemma CopiesAgree(s: State)
    requires Inv(s)
    ensures forall g, n :: IsMember(s, g, n) <==> g in s.clients && n in s.clients[g].chans
    ensures forall g, n :: IsOperator(s, g, n) ==> IsMember(s, g, n)
    ensures forall g, n :: IsMember(s, g, n) ==> s.clients[g].Registered()
  {
    forall g, n
      ensures IsMember(s, g, n) <==> g in s.clients && n in s.clients[g].chans
      ensures IsOperator(s, g, n) ==> IsMember(s, g, n)
      ensures IsMember(s, g, n) ==> s.clients[g].Registered()
    {
      if n in s.channels {
        assert ChannelOk(s, n);
      }
      if g in s.clients {
        assert ClientOk(s, g);
      }
    }
  }

  /** The command takes g out of n. */
  ghost predicate Departs(s: State, fd: int, verb: Verb, cmd: seq<string>, g: int, n: string) {
    Who(s, fd).Registered() &&
    match verb
    case QUIT => g == fd
    case PART => g == fd && |cmd| >= 2 && n in Split(cmd[1], ',')
    case KICK =>
      |cmd| >= 3 && KickSpec.RunsAll(s, fd, Split(cmd[1], ','))
      && KickSpec.Kicked(s, fd, Split(cmd[1], ','), Split(cmd[2], ','), g, n)
    case _ => false
  }

  /** The command brings g into n. */
  ghost predicate Arrives(s: State, fd: int, verb: Verb, cmd: seq<string>, g: int, n: string) {
    Who(s, fd).Registered() && verb == JOIN && g == fd && JoinSpec.Enters(s, fd, cmd, n)
  }

  /** The command sets the operators of n. */
  ghost predicate Appoints(s: State, fd: int, verb: Verb, cmd: seq<string>, n: string) {
    Who(s, fd).Registered() && verb == MODE && ModeSpec.Permitted(s, fd, cmd) && n == cmd[1]
  }

  ghost predicate MovesMembers(s: State, t: State, fd: int, verb: Verb, cmd: seq<string>) {
    forall g, n :: IsMember(t, g, n)
      <==> (IsMember(s, g, n) && !Departs(s, fd, verb, cmd, g, n)) || Arrives(s, fd, verb, cmd, g, n)
  }

  /** For MODE: what changes was asked for by a flag and a parameter that names the
      client, and what the interpreter has decided is what is kept. */
  ghost predicate MovesOperators(s: State, t: State, fd: int, verb: Verb, cmd: seq<string>) {
    && (forall g, n | !Appoints(s, fd, verb, cmd, n) :: IsOperator(t, g, n)
          <==> (IsOperator(s, g, n) && !Departs(s, fd, verb, cmd, g, n))
               || (Arrives(s, fd, verb, cmd, g, n) && n !in s.channels))
    && (forall g, n | Appoints(s, fd, verb, cmd, n) :: AppointsByWords(s, t, fd, cmd, g, n))
  }

  ghost predicate AppointsByWords(s: State, t: State, fd: int, cmd: seq<string>, g: int, n: string)
    requires ModeSpec.Permitted(s, fd, cmd)
  {
    && (IsOperator(t, g, n) <==> g in ModeSpec.Result(s, fd, cmd).chan.operators)
    && (IsOperator(t, g, n) && !IsOperator(s, g, n) ==> ModeSpec.Orders(s.clients, cmd, '+', g) && IsMember(s, g, n))
    && (IsOperator(s, g, n) && !IsOperator(t, g, n) ==> ModeSpec.Orders(s.clients, cmd, '-', g) && g != fd)
  }

  ghost predicate Moves(s: State, t: State, fd: int, verb: Verb, cmd: seq<string>) {
    MovesMembers(s, t, fd, verb, cmd) && MovesOperators(s, t, fd, verb, cmd)
  }

  /** Nothing happens to the lists of members and operators. */
  ghost predicate SameLists(s: State, t: State) {
    && t.channels.Keys == s.channels.Keys
    && forall n | n in s.channels ::
         t.channels[n].members == s.channels[n].members && t.channels[n].operators == s.channels[n].operators
  }

  lemma StillMovesMembers(s: State, t: State, fd: int, verb: Verb, cmd: seq<string>)
    requires SameLists(s, t)
    requires Who(s, fd).Registered() ==> verb !in {QUIT, PART, KICK, JOIN, MODE}
    ensures MovesMembers(s, t, fd, verb, cmd)
  {
  }

  lemma StillMovesOperators(s: State, t: State, fd: int, verb: Verb, cmd: seq<string>)
    requires SameLists(s, t)
    requires Who(s, fd).Registered() ==> verb !in {QUIT, PART, KICK, JOIN, MODE}
    ensures MovesOperators(s, t, fd, verb, cmd)
  {
  }

  lemma StillMoves(s: State, t: State, fd: int, verb: Verb, cmd: seq<string>)
    requires SameLists(s, t)
    requires Who(s, fd).Registered() ==> verb !in {QUIT, PART, KICK, JOIN, MODE}
    ensures Moves(s, t, fd, verb, cmd)
  {
    StillMovesMembers(s, t, fd, verb, cmd);
    StillMovesOperators(s, t, fd, verb, cmd);
  }

  lemma JoinBrings(s: State, fd: int, cmd: seq<string>)
    requires Inv(s) && fd in s.clients && s.clients[fd].Registered()
    ensures forall g, n :: IsMember(JoinSpec.Join(s, fd, cmd), g, n)
              <==> IsMember(s, g, n) || (g == fd && JoinSpec.Enters(s, fd, cmd, n))
  {
    JoinSpec.JoinAdds(s, fd, cmd);
  }

  lemma JoinMovesMembers(s: State, fd: int, verb: Verb, cmd: seq<string>)
    requires Inv(s) && fd in s.clients && s.clients[fd].Registered() && verb == JOIN
    ensures MovesMembers(s, JoinSpec.Join(s, fd, cmd), fd, verb, cmd)
  {
    JoinBrings(s, fd, cmd);
  }

  lemma JoinFounds(s: State, fd: int, cmd: seq<string>)
    requires Inv(s) && fd in s.clients && s.clients[fd].Registered()
    ensures forall g, n :: IsOperator(JoinSpec.Join(s, fd, cmd), g, n)
              <==> IsOperator(s, g, n) || (g == fd && n !in s.channels && JoinSpec.Enters(s, fd, cmd, n))
  {
    JoinSpec.JoinAdds(s, fd, cmd);
  }

  lemma JoinMovesOperators(s: State, fd: int, verb: Verb, cmd: seq<string>)
    requires Inv(s) && fd in s.clients && s.clients[fd].Registered() && verb == JOIN
    ensures MovesOperators(s, JoinSpec.Join(s, fd, cmd), fd, verb, cmd)
  {
    JoinFounds(s, fd, cmd);
  }

  lemma JoinMoves(s: State, fd: int, verb: Verb, cmd: seq<string>)
    requires Inv(s) && fd in s.clients && s.clients[fd].Registered() && verb == JOIN
    ensures Moves(s, JoinSpec.Join(s, fd, cmd), fd, verb, cmd)
  {
    JoinMovesMembers(s, fd, verb, cmd);
    JoinMovesOperators(s, fd, verb, cmd);
  }

  lemma ModeMoves(s: State, fd: int, verb: Verb, cmd: seq<string>)
    requires Inv(s) && fd in s.clients && s.clients[fd].Registered() && verb == MODE
    ensures Moves(s, ModeSpec.Mode(s, fd, cmd), fd, verb, cmd)
  {
    ModeSpec.ModeByOperator(s, fd, cmd);
    forall g, n | Appoints(s, fd, verb, cmd, n)
      ensures AppointsByWords(s, ModeSpec.Mode(s, fd, cmd), fd, cmd, g, n)
    {
      ModeSpec.ResultOrders(s, fd, cmd, g);
    }
  }

  lemma KickMoves(s: State, fd: int, verb: Verb, cmd: seq<string>)
    requires Inv(s) && fd in s.clients && s.clients[fd].Registered() && verb == KICK
    ensures Moves(s, KickSpec.Kick(s, fd, cmd), fd, verb, cmd)
  {
    if |cmd| >= 3 && KickSpec.RunsAll(s, fd, Split(cmd[1], ',')) {
      KickSpec.KickRemovesPairs(s, fd, cmd);
    } else {
      KickSpec.KickRefused(s, fd, cmd);
    }
  }

  lemma PartMoves(s: State, fd: int, verb: Verb, cmd: seq<string>)
    requires Inv(s) && fd in s.clients && s.clients[fd].Registered() && verb == PART
    ensures Moves(s, PartSpec.Part(s, fd, cmd), fd, verb, cmd)
  {
    PartSpec.PartRemovesListed(s, fd, cmd);
  }

  lemma QuitMoves(s: State, fd: int, verb: Verb, cmd: seq<string>)
    requires Inv(s) && fd in s.clients && s.clients[fd].Registered() && verb == QUIT
    ensures Moves(s, QuitSpec.Quit(s, fd, cmd), fd, verb, cmd)
  {
    QuitSpec.QuitRemovesAll(s, fd, cmd);
  }

  lemma PrivmsgKeepsLists(s: State, fd: int, cmd: seq<string>)
    requires Inv(s) && fd in s.clients
    ensures SameLists(s, PrivmsgSpec.Privmsg(s, fd, cmd))
  {
    PrivmsgSpec.PrivmsgIsOutput(s, fd, cmd);
  }

  lemma TopicKeepsLists(s: State, fd: int, cmd: seq<string>)
    requires Inv(s) && fd in s.clients
    ensures SameLists(s, TopicSpec.Topic(s, fd, cmd))
  {
    TopicSpec.TopicByPermitted(s, fd, cmd);
  }

  lemma InviteKeepsLists(s: State, fd: int, cmd: seq<string>)
    requires Inv(s) && fd in s.clients
    ensures SameLists(s, InviteSpec.Invite(s, fd, cmd))
  {
    InviteSpec.InviteByOperator(s, fd, cmd);
  }

  lemma NickKeepsLists(s: State, fd: int, cmd: seq<string>)
    requires fd in s.clients
    ensures SameLists(s, NickSpec.Nick(s, fd, cmd))
  {
    NickSpec.NickShrinks(s, fd, cmd);
  }

  lemma PingKeepsLists(s: State, fd: int, cmd: seq<string>)
    ensures SameLists(s, PassSpec.Pass(s, fd, cmd)) && SameLists(s, UserSpec.User(s, fd, cmd))
    ensures SameLists(s, List(s, fd)) && SameLists(s, Ping(s, fd, cmd))
  {
  }

  lemma OthersKeepLists(s: State, fd: int, verb: Verb, cmd: seq<string>)
    requires Inv(s) && fd in s.clients
    requires verb !in {QUIT, PART, KICK, JOIN, MODE}
    ensures SameLists(s, SignIn(s, fd, verb, cmd))
  {
    match verb
    case PASS | USER | LIST | PING => PingKeepsLists(s, fd, cmd);
    case NICK => NickKeepsLists(s, fd, cmd);
    case PRIVMSG => PrivmsgKeepsLists(s, fd, cmd);
    case TOPIC => TopicKeepsLists(s, fd, cmd);
    case INVITE => InviteKeepsLists(s, fd, cmd);
    case _ =>
  }

  lemma OtherMoves(s: State, fd: int, verb: Verb, cmd: seq<string>)
    requires Inv(s) && fd in s.clients
    requires verb !in {QUIT, PART, KICK, JOIN, MODE}
    ensures Moves(s, SignIn(s, fd, verb, cmd), fd, verb, cmd)
  {
    OthersKeepLists(s, fd, verb, cmd);
    StillMoves(s, SignIn(s, fd, verb, cmd), fd, verb, cmd);
  }

  lemma GreetKeepsLists(s: State, t: State, fd: int)
    requires SameLists(s, t)
    ensures SameLists(s, Greet(t, fd))
  {
  }

  lemma SignUpKeepsLists(s: State, fd: int, verb: Verb, cmd: seq<string>)
    requires fd in s.clients
    ensures SameLists(s, SignUp(s, fd, verb, cmd))
  {
    match verb
    case PASS => GreetKeepsLists(s, PassSpec.Pass(s, fd, cmd), fd);
    case USER => GreetKeepsLists(s, UserSpec.User(s, fd, cmd), fd);
    case NICK =>
      NickKeepsLists(s, fd, cmd);
      GreetKeepsLists(s, NickSpec.Nick(s, fd, cmd), fd);
    case NOTHING => GreetKeepsLists(s, s, fd);
    case _ => GreetKeepsLists(s, EraseClient(s, fd), fd);
  }

  lemma SignUpMoves(s: State, fd: int, verb: Verb, cmd: seq<string>)
    requires fd in s.clients && !s.clients[fd].Registered()
    ensures Moves(s, SignUp(s, fd, verb, cmd), fd, verb, cmd)
  {
    SignUpKeepsLists(s, fd, verb, cmd);
    StillMoves(s, SignUp(s, fd, verb, cmd), fd, verb, cmd);
  }

  lemma SignInMoves(s: State, fd: int, verb: Verb, cmd: seq<string>)
    requires Inv(s) && fd in s.clients && s.clients[fd].Registered()
    ensures Moves(s, SignIn(s, fd, verb, cmd), fd, verb, cmd)
  {
    match verb
    case QUIT => QuitMoves(s, fd, verb, cmd);
    case PART => PartMoves(s, fd, verb, cmd);
    case KICK => KickMoves(s, fd, verb, cmd);
    case JOIN => JoinMoves(s, fd, verb, cmd);
    case MODE => ModeMoves(s, fd, verb, cmd);
    case _ => OtherMoves(s, fd, verb, cmd);
  }

  /** JOIN adds the issuer's pairs with the channels that admit it, PART removes its
      pairs with the listed channels, KICK the pairs of the i-th nickname with the
      i-th channel up to the first unknown or own one, QUIT all of its pairs; MODE
      sets the operators of the one channel it names, and nothing else moves. */
  lemma ExecuteMoves(s: State, fd: int, cmd: seq<string>)
    requires Inv(s) && fd in s.clients
    ensures Moves(s, Execute(s, fd, cmd), fd, Head(cmd), cmd)
  {
    var verb := Head(cmd);
    if s.clients[fd].Registered() {
      SignInMoves(s, fd, verb, cmd);
    } else {
      SignUpMoves(s, fd, verb, cmd);
    }
  }

  /** Every event, command or not, moves the two relations in this way only. */
  lemma StepMoves(s: State, e: Event)
    requires Inv(s) && EventOk(s, e)
    ensures var t := Step(s, e);
      match e
      case Message(fd, text) =>
        var m := Hold(s, fd, Intake(Pending(s, fd), text).0);
        && m.channels == s.channels && OnlyOutput(s, m)
        && Moves(m, t, fd, VerbIn(s, e), Command(s, e))
      case Hangup(fd) =>
        && (forall g, n :: IsMember(t, g, n) <==> IsMember(s, g, n) && g != fd)
        && (forall g, n :: IsOperator(t, g, n) <==> IsOperator(s, g, n) && g != fd)
      case Closed(fd) =>
        && (forall g, n :: IsMember(t, g, n) <==> IsMember(s, g, n) && g != fd)
        && (forall g, n :: IsOperator(t, g, n) <==> IsOperator(s, g, n) && g != fd)
      case _ => t.channels == s.channels
  {
    match e
    case Message(fd, text) =>
      var (b, outcome) := Intake(Pending(s, fd), text);
      var m := Hold(s, fd, b);
      HoldIsOutput(s, fd, b);
      OutputKeepsInv(s, m);
      if outcome.Ready? {
        ExecuteMoves(m, fd, Command(s, e));
      } else {
        StillMoves(m, m, fd, NOTHING, []);
      }
    case Hangup(fd) =>
      if fd in s.clients {
        QuitSpec.DisconnectEmpties(s, fd);
      } else {
        CopiesAgree(s);
      }
    case Closed(fd) => QuitSpec.DisconnectEmpties(s, fd);
    case _ =>
  }
}
