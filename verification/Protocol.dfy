/** One step of the server: an event from the poll loop, and for a message the
    command in it. */
module Protocol {
  import opened IrcState
  import opened Wire
  import PassSpec
  import UserSpec
  import NickSpec
  import PartSpec
  import KickSpec
  import QuitSpec
  import JoinSpec
  import ModeSpec
  import TopicSpec
  import InviteSpec
  import PrivmsgSpec

  datatype Event =
    | Accept(fd: int)                      // a new connection on this descriptor
    | Hangup(fd: int)                      // the poll reports an error on the socket
    | Closed(fd: int)                      // a read that returns nothing
    | Message(fd: int, text: string)       // a read that returns this
    | Flush                                // every output buffer is sent

  const COMMANDS: seq<(string, Verb)> := [
    ("USER", USER), ("NICK", NICK), ("PASS", PASS), ("PRIVMSG", PRIVMSG), ("QUIT", QUIT), ("PART", PART),
    ("JOIN", JOIN), ("KICK", KICK), ("MODE", MODE), ("TOPIC", TOPIC), ("INVITE", INVITE), ("LIST", LIST),
    ("PING", PING), ("WHOIS", WHOIS), ("WHO", WHO)]

  /** The first entry of the table for this word. */
  function Lookup(word: string, table: seq<(string, Verb)>): Verb {
    if table == [] then UNKNOWN
    else if table[0].0 == word then table[0].1
    else Lookup(word, table[1..])
  }

  function VerbOf(word: string): Verb {
    Lookup(word, COMMANDS)
  }

  function Ping(s: State, fd: int, cmd: seq<string>): State {
    if |cmd| < 2 then Say(Say(s, fd, Numeric(461, [])), fd, Usage(PING)) else Say(s, fd, Pong(cmd[1]))
  }

  /** The listing is sent at once, together with what was waiting. */
  function List(s: State, fd: int): State {
    PutClient(s, fd, Who(s, fd).(out := []))
  }

  function Greet(s: State, fd: int): State {
    var c := Who(s, fd);
    if fd in s.clients && c.Registered() then Say(s, fd, Welcome(c.nick, c.user, c.host)) else s
  }

  /** What the first word asks for. */
  function Head(cmd: seq<string>): Verb {
    if cmd == [] then NOTHING else VerbOf(cmd[0])
  }

  /** A client that has not signed up yet: any other command costs it the connection. */
  function Enrol(s: State, fd: int, verb: Verb, cmd: seq<string>): State {
    match verb
    case PASS => PassSpec.Pass(s, fd, cmd)
    case NICK => NickSpec.Nick(s, fd, cmd)
    case USER => UserSpec.User(s, fd, cmd)
    case NOTHING => s
    case _ => EraseClient(s, fd)
  }

  function SignUp(s: State, fd: int, verb: Verb, cmd: seq<string>): State {
    Greet(Enrol(s, fd, verb, cmd), fd)
  }

  function SignIn(s: State, fd: int, verb: Verb, cmd: seq<string>): State {
    match verb
    case PASS => PassSpec.Pass(s, fd, cmd)
    case NICK => NickSpec.Nick(s, fd, cmd)
    case USER => UserSpec.User(s, fd, cmd)
    case PRIVMSG => PrivmsgSpec.Privmsg(s, fd, cmd)
    case QUIT => QuitSpec.Quit(s, fd, cmd)
    case PART => PartSpec.Part(s, fd, cmd)
    case JOIN => JoinSpec.Join(s, fd, cmd)
    case KICK => KickSpec.Kick(s, fd, cmd)
    case MODE => ModeSpec.Mode(s, fd, cmd)
    case TOPIC => TopicSpec.Topic(s, fd, cmd)
    case INVITE => InviteSpec.Invite(s, fd, cmd)
    case LIST => List(s, fd)
    case PING => Ping(s, fd, cmd)
    case WHOIS => s
    case WHO => s
    case NOTHING => s
    case UNKNOWN => Say(s, fd, Numeric(421, [Who(s, fd).nick, if cmd == [] then "" else cmd[0]]))
  }

  function Execute(s: State, fd: int, cmd: seq<string>): State {
    if Who(s, fd).Registered() then SignIn(s, fd, Head(cmd), cmd) else SignUp(s, fd, Head(cmd), cmd)
  }

  function Pending(s: State, fd: int): Buffer {
    Buffer(Who(s, fd).held, Who(s, fd).partial)
  }

  function Hold(s: State, fd: int, b: Buffer): State {
    PutClient(s, fd, Who(s, fd).(held := b.text, partial := b.partial))
  }

  function Receive(s: State, fd: int, text: string): State {
    var (b, outcome) := Intake(Pending(s, fd), text);
    var t := Hold(s, fd, b);
    match outcome
    case Nothing => t
    case Batch => t
    case Ready(words) => Execute(t, fd, words)
  }

  /** The read has failed: the client goes, and marking its fragment buffer puts a
      blank client in its place that stores no descriptor. */
  function Close(s: State, fd: int): State {
    PutClient(QuitSpec.Disconnect(s, fd), fd, NewClient(-1).(partial := true))
  }

  function Step(s: State, e: Event): State {
    match e
    case Accept(fd) => if fd in s.clients then s else PutClient(s, fd, NewClient(fd))
    case Hangup(fd) => if fd in s.clients then QuitSpec.Disconnect(s, fd) else s
    case Closed(fd) => Close(s, fd)
    case Message(fd, text) => Receive(s, fd, text)
    case Flush => s.(clients := map g | g in s.clients :: s.clients[g].(out := []))
  }

  // ---- what may happen -----------------------------------------------------

  /** The words the message makes the server execute, if any. */
  function Command(s: State, e: Event): seq<string> {
    if e.Message? then
      match Intake(Pending(s, e.fd), e.text).1
      case Ready(words) => words
      case _ => []
    else []
  }

  function VerbIn(s: State, e: Event): Verb {
    Head(Command(s, e))
  }

  /** The client whose command the event is, or nobody. */
  function Author(e: Event): int {
    if e.Message? then e.fd else -2
  }

  /** The command is one the server can execute without running past the end of a
      list. Everything else it answers itself. */
  predicate CommandDefined(s: State, fd: int, cmd: seq<string>) {
    Who(s, fd).Registered() ==>
      match Head(cmd)
      case KICK => KickSpec.KickDefined(s, fd, cmd)
      case JOIN => |cmd| >= 2 ==> JoinSpec.JoinDefined(cmd)
      case PRIVMSG => PrivmsgSpec.PrivmsgDefined(s, fd, cmd)
      case _ => true
  }

  predicate EventOk(s: State, e: Event) {
    match e
    case Accept(fd) => fd >= 0
    case Hangup(fd) => true
    case Closed(fd) => fd in s.clients
    case Message(fd, text) =>
      && fd in s.clients
      && Intake(Pending(s, fd), text).1 != Batch
      && CommandDefined(Hold(s, fd, Intake(Pending(s, fd), text).0), fd, Command(s, e))
    case Flush => true
  }

  // ---- every step keeps the invariant --------------------------------------

  /** A channel may gain a member only below its limit, a setting or an operator
      only by MODE from one of its operators, another topic only by TOPIC. */
  ghost predicate LawfulChange(c: ChannelRec, d: ChannelRec, author: int, verb: Verb) {
    && (SameModes(c, d) || (verb == MODE && author in c.operators))
    && (forall g | g in d.operators && g !in c.operators ::
          verb == MODE && author in c.operators && g in c.members)
    && (d.topic != c.topic ==> verb == TOPIC && author in c.members && (c.topicOn ==> author in c.operators))
    && (|d.members| > |c.members| ==> verb == JOIN && (c.limitOn ==> |d.members| <= c.limit))
  }

  /** Key, limit and flags are the same. */
  ghost predicate SameModes(c: ChannelRec, d: ChannelRec) {
    && d.key == c.key && d.limit == c.limit
    && d.inviteOn == c.inviteOn && d.topicOn == c.topicOn && d.keyOn == c.keyOn && d.limitOn == c.limitOn
  }

  ghost predicate Lawful(s: State, t: State, author: int, verb: Verb) {
    && t.password == s.password
    && forall n | n in t.channels ::
         if n in s.channels then LawfulChange(s.channels[n], t.channels[n], author, verb)
         else verb == JOIN && t.channels[n].operators == [author] && t.channels[n].members == [author]
  }

  lemma ShrinksLawful(s: State, t: State, author: int, verb: Verb)
    requires Shrinks(s, t)
    ensures Lawful(s, t, author, verb)
  {
    forall n | n in t.channels ensures n in s.channels && LawfulChange(s.channels[n], t.channels[n], author, verb) {
      assert SameSettings(s.channels[n], t.channels[n]);
    }
  }

  /** A password flag that is new was earned by PASS with the right word. */
  ghost predicate Gate(s: State, t: State, fd: int, verb: Verb, cmd: seq<string>) {
    forall g | g in t.clients && t.clients[g].passOk && !Who(s, g).passOk ::
      g == fd && verb == PASS && |cmd| >= 2 && cmd[1] == s.password
  }

  ghost predicate Good(s: State, t: State, fd: int, verb: Verb, cmd: seq<string>) {
    Inv(t) && Gate(s, t, fd, verb, cmd) && Lawful(s, t, fd, verb)
  }

  lemma ShrinksGood(s: State, t: State, fd: int, verb: Verb, cmd: seq<string>)
    requires Inv(t) && Shrinks(s, t) && SamePass(s, t)
    ensures Good(s, t, fd, verb, cmd)
  {
    ShrinksLawful(s, t, fd, verb);
  }

  lemma {:induction false} LookupAt(word: string, table: seq<(string, Verb)>, k: nat)
    requires k < |table| && table[k].0 == word && forall j | 0 <= j < k :: table[j].0 != word
    ensures Lookup(word, table) == table[k].1
  {
    if k > 0 {
      assert table[0].0 != word;
      LookupAt(word, table[1..], k - 1);
    }
  }

  lemma Lengths(k: nat)
    requires k < |COMMANDS|
    ensures |COMMANDS[k].0| == [4, 4, 4, 7, 4, 4, 4, 4, 4, 5, 6, 4, 4, 5, 3][k]
  {
  }

  lemma FirstLetters(k: nat)
    requires k < |COMMANDS| && |COMMANDS[k].0| >= 3
    ensures COMMANDS[k].0[0] == "UNPPQPJKMTILPWW"[k]
  {
  }

  lemma ThirdLetters(k: nat)
    requires k < |COMMANDS| && |COMMANDS[k].0| >= 3
    ensures COMMANDS[k].0[2] == "ECSIIRICDPVSNOO"[k]
  {
  }

  /** Length, first and third letter tell the commands apart. */
  lemma Distinct(i: nat, j: nat)
    requires i < j < |COMMANDS|
    ensures COMMANDS[i].0 != COMMANDS[j].0
  {
    Lengths(i);
    Lengths(j);
    FirstLetters(i);
    FirstLetters(j);
    ThirdLetters(i);
    ThirdLetters(j);
  }

  lemma Vocabulary(k: nat)
    requires k < |COMMANDS|
    ensures VerbOf(COMMANDS[k].0) == COMMANDS[k].1
  {
    forall j | 0 <= j < k ensures COMMANDS[j].0 != COMMANDS[k].0 {
      Distinct(j, k);
    }
    LookupAt(COMMANDS[k].0, COMMANDS, k);
  }

  lemma {:induction false} LookupNone(word: string, table: seq<(string, Verb)>)
    requires forall i | 0 <= i < |table| :: table[i].0 != word
    ensures Lookup(word, table) == UNKNOWN
  {
    if table != [] {
      assert table[0].0 != word;
      LookupNone(word, table[1..]);
    }
  }

  lemma NoticeVerb()
    ensures VerbOf("NOTICE") == UNKNOWN
  {
    assert forall i | 0 <= i < |COMMANDS| :: |COMMANDS[i].0| != 6 || COMMANDS[i].0[0] != 'N';
    LookupNone("NOTICE", COMMANDS);
  }

  /** NOTICE is not among the commands. */
  lemma NoticeIsUnknown(s: State, fd: int, cmd: seq<string>)
    requires fd in s.clients && s.clients[fd].Registered() && cmd != [] && cmd[0] == "NOTICE"
    ensures Execute(s, fd, cmd) == Say(s, fd, Numeric(421, [s.clients[fd].nick, "NOTICE"]))
  {
    NoticeVerb();
  }

  lemma PassGood(s: State, fd: int, verb: Verb, cmd: seq<string>)
    requires Inv(s) && fd in s.clients && verb == PASS
    ensures Good(s, PassSpec.Pass(s, fd, cmd), fd, verb, cmd) && EmptiesNone(s, PassSpec.Pass(s, fd, cmd))
  {
    PassSpec.PassKeepsInv(s, fd, cmd);
    ShrinksLawful(s, PassSpec.Pass(s, fd, cmd), fd, PASS);
  }

  lemma ListGood(s: State, fd: int, verb: Verb, cmd: seq<string>)
    requires Inv(s) && fd in s.clients
    ensures Good(s, List(s, fd), fd, verb, cmd) && EmptiesNone(s, List(s, fd))
  {
    OutputKeepsInv(s, List(s, fd));
    ShrinksGood(s, List(s, fd), fd, verb, cmd);
  }

  lemma PingGood(s: State, fd: int, verb: Verb, cmd: seq<string>)
    requires Inv(s) && fd in s.clients
    ensures Good(s, Ping(s, fd, cmd), fd, verb, cmd) && EmptiesNone(s, Ping(s, fd, cmd))
  {
    if |cmd| < 2 {
      SayTwiceKeepsInv(s, fd, Numeric(461, []), Usage(PING));
    } else {
      SayKeepsInv(s, fd, Pong(cmd[1]));
    }
    ShrinksGood(s, Ping(s, fd, cmd), fd, verb, cmd);
  }

  lemma GreetGood(s: State, t: State, fd: int, verb: Verb, cmd: seq<string>)
    requires Good(s, t, fd, verb, cmd) && EmptiesNone(s, t)
    ensures Good(s, Greet(t, fd), fd, verb, cmd) && EmptiesNone(s, Greet(t, fd))
  {
    if fd in t.clients {
      var line := Welcome(t.clients[fd].nick, t.clients[fd].user, t.clients[fd].host);
      SayKeepsInv(t, fd, line);
      assert Greet(t, fd) != t ==> Greet(t, fd) == Say(t, fd, line);
    }
  }

  lemma EraseGood(s: State, fd: int, verb: Verb, cmd: seq<string>)
    requires Inv(s) && fd in s.clients && !s.clients[fd].Registered()
    ensures Good(s, EraseClient(s, fd), fd, verb, cmd) && EmptiesNone(s, EraseClient(s, fd))
  {
    assert ClientOk(s, fd);
    EraseClientKeepsInv(s, fd);
    ShrinksGood(s, EraseClient(s, fd), fd, verb, cmd);
  }

  lemma SignUpGood(s: State, fd: int, verb: Verb, cmd: seq<string>)
    requires Inv(s) && fd in s.clients && !s.clients[fd].Registered()
    ensures Good(s, SignUp(s, fd, verb, cmd), fd, verb, cmd) && EmptiesNone(s, SignUp(s, fd, verb, cmd))
  {
    match verb
    case PASS =>
      PassGood(s, fd, verb, cmd);
      GreetGood(s, PassSpec.Pass(s, fd, cmd), fd, verb, cmd);
    case NICK =>
      NickGood(s, fd, verb, cmd);
      GreetGood(s, NickSpec.Nick(s, fd, cmd), fd, verb, cmd);
    case USER =>
      UserGood(s, fd, verb, cmd);
      GreetGood(s, UserSpec.User(s, fd, cmd), fd, verb, cmd);
    case NOTHING =>
      ShrinksGood(s, s, fd, verb, cmd);
      GreetGood(s, s, fd, verb, cmd);
    case _ =>
      EraseGood(s, fd, verb, cmd);
      GreetGood(s, EraseClient(s, fd), fd, verb, cmd);
  }

  lemma NickGood(s: State, fd: int, verb: Verb, cmd: seq<string>)
    requires Inv(s) && fd in s.clients
    ensures Good(s, NickSpec.Nick(s, fd, cmd), fd, verb, cmd) && EmptiesNone(s, NickSpec.Nick(s, fd, cmd))
  {
    NickSpec.NickKeepsInv(s, fd, cmd);
    NickSpec.NickShrinks(s, fd, cmd);
    ShrinksGood(s, NickSpec.Nick(s, fd, cmd), fd, verb, cmd);
  }

  lemma UserGood(s: State, fd: int, verb: Verb, cmd: seq<string>)
    requires Inv(s) && fd in s.clients
    ensures Good(s, UserSpec.User(s, fd, cmd), fd, verb, cmd) && EmptiesNone(s, UserSpec.User(s, fd, cmd))
  {
    UserSpec.UserKeepsInv(s, fd, cmd);
    ShrinksGood(s, UserSpec.User(s, fd, cmd), fd, verb, cmd);
  }

  lemma KickGood(s: State, fd: int, verb: Verb, cmd: seq<string>)
    requires Inv(s) && fd in s.clients
    ensures Good(s, KickSpec.Kick(s, fd, cmd), fd, verb, cmd) && EmptiesNone(s, KickSpec.Kick(s, fd, cmd))
  {
    if |cmd| >= 3 && KickSpec.RunsAll(s, fd, Split(cmd[1], ',')) {
      KickSpec.KickRemovesPairs(s, fd, cmd);
    } else {
      KickSpec.KickRefused(s, fd, cmd);
      OutputKeepsInv(s, KickSpec.Kick(s, fd, cmd));
    }
    ShrinksGood(s, KickSpec.Kick(s, fd, cmd), fd, verb, cmd);
  }

  /** Whoever is let in either founds the channel or finds room in it. */
  lemma JoinLawful(s: State, fd: int, cmd: seq<string>, n: string)
    requires JoinSpec.Enters(s, fd, cmd, n)
    ensures if n in s.channels then LawfulChange(s.channels[n], JoinSpec.Joined(s, fd, n), fd, JOIN)
            else JoinSpec.Joined(s, fd, n).operators == [fd] && JoinSpec.Joined(s, fd, n).members == [fd]
  {
  }

  lemma JoinGood(s: State, fd: int, verb: Verb, cmd: seq<string>)
    requires Inv(s) && fd in s.clients && s.clients[fd].Registered() && verb == JOIN
    ensures Good(s, JoinSpec.Join(s, fd, cmd), fd, verb, cmd) && EmptiesNone(s, JoinSpec.Join(s, fd, cmd))
  {
    var t := JoinSpec.Join(s, fd, cmd);
    JoinSpec.JoinAdds(s, fd, cmd);
    assert Lawful(s, t, fd, JOIN) by {
      forall n | n in t.channels
        ensures if n in s.channels then LawfulChange(s.channels[n], t.channels[n], fd, JOIN)
                else t.channels[n].operators == [fd] && t.channels[n].members == [fd]
      {
        if JoinSpec.Enters(s, fd, cmd, n) {
          JoinLawful(s, fd, cmd, n);
        }
      }
    }
  }

  lemma ModeGood(s: State, fd: int, verb: Verb, cmd: seq<string>)
    requires Inv(s) && fd in s.clients && verb == MODE
    ensures Good(s, ModeSpec.Mode(s, fd, cmd), fd, verb, cmd) && EmptiesNone(s, ModeSpec.Mode(s, fd, cmd))
  {
    ModeSpec.ModeByOperator(s, fd, cmd);
  }

  lemma TopicGood(s: State, fd: int, verb: Verb, cmd: seq<string>)
    requires Inv(s) && fd in s.clients && verb == TOPIC
    ensures Good(s, TopicSpec.Topic(s, fd, cmd), fd, verb, cmd) && EmptiesNone(s, TopicSpec.Topic(s, fd, cmd))
  {
    TopicSpec.TopicByPermitted(s, fd, cmd);
  }

  lemma LeavingGood(s: State, fd: int, verb: Verb, cmd: seq<string>)
    requires Inv(s) && fd in s.clients
    ensures Good(s, PartSpec.Part(s, fd, cmd), fd, verb, cmd) && EmptiesNone(s, PartSpec.Part(s, fd, cmd))
    ensures Good(s, QuitSpec.Quit(s, fd, cmd), fd, verb, cmd) && EmptiesNone(s, QuitSpec.Quit(s, fd, cmd))
  {
    PartSpec.PartRemovesListed(s, fd, cmd);
    ShrinksGood(s, PartSpec.Part(s, fd, cmd), fd, verb, cmd);
    QuitSpec.QuitRemovesAll(s, fd, cmd);
    ShrinksGood(s, QuitSpec.Quit(s, fd, cmd), fd, verb, cmd);
  }

  lemma PrivmsgGood(s: State, fd: int, verb: Verb, cmd: seq<string>)
    requires Inv(s) && fd in s.clients
    ensures Good(s, PrivmsgSpec.Privmsg(s, fd, cmd), fd, verb, cmd) && EmptiesNone(s, PrivmsgSpec.Privmsg(s, fd, cmd))
  {
    PrivmsgSpec.PrivmsgIsOutput(s, fd, cmd);
    OutputKeepsInv(s, PrivmsgSpec.Privmsg(s, fd, cmd));
    ShrinksGood(s, PrivmsgSpec.Privmsg(s, fd, cmd), fd, verb, cmd);
  }

  lemma InviteGood(s: State, fd: int, verb: Verb, cmd: seq<string>)
    requires Inv(s) && fd in s.clients
    ensures Good(s, InviteSpec.Invite(s, fd, cmd), fd, verb, cmd) && EmptiesNone(s, InviteSpec.Invite(s, fd, cmd))
  {
    var t := InviteSpec.Invite(s, fd, cmd);
    InviteSpec.InviteByOperator(s, fd, cmd);
    forall n | n in t.channels ensures LawfulChange(s.channels[n], t.channels[n], fd, verb) {
      assert t.channels[n] == s.channels[n].(invites := t.channels[n].invites);
    }
  }

  lemma UnknownGood(s: State, fd: int, verb: Verb, cmd: seq<string>, line: Reply)
    requires Inv(s) && fd in s.clients
    ensures Good(s, s, fd, verb, cmd) && EmptiesNone(s, s)
    ensures Good(s, Say(s, fd, line), fd, verb, cmd) && EmptiesNone(s, Say(s, fd, line))
  {
    ShrinksGood(s, s, fd, verb, cmd);
    SayKeepsInv(s, fd, line);
    ShrinksGood(s, Say(s, fd, line), fd, verb, cmd);
  }

  lemma MembershipGood(s: State, fd: int, verb: Verb, cmd: seq<string>)
    requires Inv(s) && fd in s.clients && s.clients[fd].Registered() && verb in {QUIT, PART, JOIN, KICK}
    ensures Good(s, SignIn(s, fd, verb, cmd), fd, verb, cmd) && EmptiesNone(s, SignIn(s, fd, verb, cmd))
  {
    match verb
    case QUIT => LeavingGood(s, fd, verb, cmd);
    case PART => LeavingGood(s, fd, verb, cmd);
    case JOIN => JoinGood(s, fd, verb, cmd);
    case KICK => KickGood(s, fd, verb, cmd);
  }

  lemma ChannelGood(s: State, fd: int, verb: Verb, cmd: seq<string>)
    requires Inv(s) && fd in s.clients && verb in {PRIVMSG, MODE, TOPIC, INVITE}
    ensures Good(s, SignIn(s, fd, verb, cmd), fd, verb, cmd) && EmptiesNone(s, SignIn(s, fd, verb, cmd))
  {
    match verb
    case PRIVMSG => PrivmsgGood(s, fd, verb, cmd);
    case MODE => ModeGood(s, fd, verb, cmd);
    case TOPIC => TopicGood(s, fd, verb, cmd);
    case INVITE => InviteGood(s, fd, verb, cmd);
  }

  lemma SignInGood(s: State, fd: int, verb: Verb, cmd: seq<string>)
    requires Inv(s) && fd in s.clients && s.clients[fd].Registered()
    ensures Good(s, SignIn(s, fd, verb, cmd), fd, verb, cmd) && EmptiesNone(s, SignIn(s, fd, verb, cmd))
  {
    match verb
    case QUIT | PART | JOIN | KICK => MembershipGood(s, fd, verb, cmd);
    case PRIVMSG | MODE | TOPIC | INVITE => ChannelGood(s, fd, verb, cmd);
    case PASS => PassGood(s, fd, verb, cmd);
    case NICK => NickGood(s, fd, verb, cmd);
    case USER => UserGood(s, fd, verb, cmd);
    case LIST => ListGood(s, fd, verb, cmd);
    case PING => PingGood(s, fd, verb, cmd);
    case _ => UnknownGood(s, fd, verb, cmd, Numeric(421, [Who(s, fd).nick, if cmd == [] then "" else cmd[0]]));
  }

  lemma HoldIsOutput(s: State, fd: int, b: Buffer)
    requires fd in s.clients
    ensures OnlyOutput(s, Hold(s, fd, b))
  {
  }

  lemma GoodAfterHold(s: State, m: State, t: State, fd: int, verb: Verb, cmd: seq<string>)
    requires OnlyOutput(s, m) && Good(m, t, fd, verb, cmd) && EmptiesNone(m, t)
    ensures Good(s, t, fd, verb, cmd) && EmptiesNone(s, t)
  {
    forall g | g in t.clients && t.clients[g].passOk && !Who(s, g).passOk ensures !Who(m, g).passOk {
      if g in s.clients {
        assert Quiet(s.clients[g], m.clients[g]);
      }
    }
  }

  lemma ReceiveGood(s: State, fd: int, text: string)
    requires Inv(s) && fd in s.clients
    ensures var t := Receive(s, fd, text);
      Good(s, t, fd, VerbIn(s, Message(fd, text)), Command(s, Message(fd, text))) && EmptiesNone(s, t)
  {
    var (b, outcome) := Intake(Pending(s, fd), text);
    var m, cmd := Hold(s, fd, b), Command(s, Message(fd, text));
    var verb := Head(cmd);
    HoldIsOutput(s, fd, b);
    OutputKeepsInv(s, m);
    if outcome.Ready? {
      if m.clients[fd].Registered() {
        SignInGood(m, fd, verb, cmd);
      } else {
        SignUpGood(m, fd, verb, cmd);
      }
      GoodAfterHold(s, m, Execute(m, fd, cmd), fd, verb, cmd);
    } else {
      ShrinksGood(s, m, fd, verb, cmd);
    }
  }

  lemma HangupGood(s: State, fd: int, author: int)
    requires Inv(s) && fd in s.clients
    ensures Good(s, QuitSpec.Disconnect(s, fd), author, NOTHING, [])
  {
    QuitSpec.DisconnectEmpties(s, fd);
    ShrinksGood(s, QuitSpec.Disconnect(s, fd), author, NOTHING, []);
  }

  /** Accepting, or putting a blank client in the place of a lost one. */
  lemma InsertGood(s: State, t: State, fd: int, c: ClientRec, author: int)
    requires Good(s, t, author, NOTHING, []) && 0 <= fd && fd !in t.clients
    requires Quiet(NewClient(fd), c) || Quiet(NewClient(-1), c)
    ensures Good(s, PutClient(t, fd, c), author, NOTHING, [])
  {
    InsertKeepsInv(t, fd, c);
  }

  lemma FlushGood(s: State, author: int)
    requires Inv(s)
    ensures Good(s, Step(s, Flush), author, NOTHING, []) && EmptiesNone(s, Step(s, Flush))
  {
    var t := Step(s, Flush);
    forall g | g in s.clients ensures Quiet(s.clients[g], t.clients[g]) {
    }
    OutputKeepsInv(s, t);
    ShrinksGood(s, t, author, NOTHING, []);
  }

  /** Every event keeps the invariant, changes channels lawfully, and lets nobody
      past the password; only a lost connection can leave a channel empty. */
  lemma StepGood(s: State, e: Event)
    requires Inv(s) && EventOk(s, e)
    ensures var t := Step(s, e);
      && Good(s, t, Author(e), VerbIn(s, e), Command(s, e))
      && (e.Hangup? || e.Closed? || EmptiesNone(s, t))
  {
    match e
    case Message(fd, text) => ReceiveGood(s, fd, text);
    case Flush => FlushGood(s, Author(e));
    case Hangup(fd) =>
      if fd in s.clients {
        HangupGood(s, fd, Author(e));
      }
    case Closed(fd) =>
      assert ClientOk(s, fd);
      HangupGood(s, fd, Author(e));
      InsertGood(s, QuitSpec.Disconnect(s, fd), fd, NewClient(-1).(partial := true), Author(e));
    case Accept(fd) =>
      ShrinksGood(s, s, Author(e), NOTHING, []);
      if fd !in s.clients {
        InsertGood(s, s, fd, NewClient(fd), Author(e));
      }
  }
}
