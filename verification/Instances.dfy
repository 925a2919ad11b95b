/** Inputs for which what one would expect does not happen, each at the end of a run. */
module Instances {
  import opened Seqs
  import opened IrcState
  import opened Wire
  import NickSpec
  import QuitSpec
  import JoinSpec
  import ModeSpec
  import InviteSpec
  import opened Protocol
  import Runs

  const PASSWORD := "x"

  function Line(words: seq<string>): string {
    JoinWords(words) + "\r\n"
  }

  /** A command arrives, and what it causes is sent. */
  function Turn(fd: int, words: seq<string>): seq<Event> {
    [Message(fd, Line(words)), Flush]
  }

  // ---- one command ---------------------------------------------------------

  /** Nothing waits to be sent. */
  ghost predicate AllSent(s: State) {
    forall g | g in s.clients :: s.clients[g].out == []
  }

  /** The words are such that the line made of them is executed as it is. */
  ghost predicate Ordinary(words: seq<string>) {
    && words != [] && (forall w | w in words :: IsPlain(w) && 'L' !in w)
    && ((forall w | w in words :: 'K' !in w) || (forall w | w in words :: 'P' !in w))
  }

  lemma LineIsReady(b: Buffer, words: seq<string>)
    requires Ordinary(words) && b.text == ""
    ensures Intake(b, Line(words)) == (Buffer("", false), Ready([Upper(words[0])] + words[1..]))
  {
    var line := Line(words);
    JoinWithout(words, 'L');
    LacksLetter(line, "CAP LS", 'L');
    if forall w | w in words :: 'K' !in w {
      JoinWithout(words, 'K');
      LacksLetter(line, "NICK", 'K');
    } else {
      JoinWithout(words, 'P');
      LacksLetter(line, "PASS", 'P');
    }
    assert line[|line| - 1] == '\n';
    PlainWords(words);
    assert "" + line == line;
  }

  /** The client with no fragment pending. */
  function Fresh(s: State, fd: int): State {
    Hold(s, fd, Buffer("", false))
  }

  lemma LineIsExecuted(s: State, fd: int, words: seq<string>)
    requires fd in s.clients && s.clients[fd].held == "" && Ordinary(words)
    ensures var e, cmd := Message(fd, Line(words)), [Upper(words[0])] + words[1..];
      && Step(s, e) == Execute(Fresh(s, fd), fd, cmd)
      && (EventOk(s, e) <==> CommandDefined(Fresh(s, fd), fd, cmd))
  {
    LineIsReady(Pending(s, fd), words);
  }

  /** States that differ in what waits to be sent only. */
  ghost predicate SameButOutput(t: State, u: State) {
    && t.password == u.password && t.channels == u.channels && t.clients.Keys == u.clients.Keys
    && forall g | g in u.clients :: t.clients[g].(out := u.clients[g].out) == u.clients[g]
  }

  lemma FlushForgets(t: State, u: State)
    requires SameButOutput(t, u) && AllSent(u)
    ensures Step(t, Flush) == u
  {
    var f := Step(t, Flush);
    forall g | g in u.clients ensures f.clients[g] == u.clients[g] {
      assert t.clients[g].(out := u.clients[g].out) == u.clients[g];
    }
    assert f.clients == u.clients;
  }

  lemma AfterTwo(s: State, e: Event, f: Event)
    ensures Runs.After(s, [e, f]) == Step(Step(s, e), f)
    ensures Runs.Possible(s, [e, f]) <==> EventOk(s, e) && EventOk(Step(s, e), f)
  {
    var t := Step(s, e);
    var u := Step(t, f);
    assert [e, f][1..] == [f] && [f][1..] == [];
    assert Runs.After(t, [f]) == Runs.After(u, []) == u;
    assert Runs.Possible(t, [f]) <==> EventOk(t, f) && Runs.Possible(u, []);
  }

  /** The command leads to u, but for what waits to be sent. */
  ghost predicate Leads(s: State, fd: int, words: seq<string>, u: State) {
    && fd in s.clients && s.clients[fd].held == "" && Ordinary(words) && AllSent(u)
    && EventOk(s, Message(fd, Line(words))) && SameButOutput(Step(s, Message(fd, Line(words))), u)
  }

  lemma TurnIs(s: State, fd: int, words: seq<string>, u: State)
    requires Leads(s, fd, words, u)
    ensures Runs.Possible(s, Turn(fd, words)) && Runs.After(s, Turn(fd, words)) == u
  {
    FlushForgets(Step(s, Message(fd, Line(words))), u);
    AfterTwo(s, Message(fd, Line(words)), Flush);
  }

  // ---- signing up ----------------------------------------------------------

  lemma UpperStays(w: string)
    requires forall c | c in w :: !('a' <= c <= 'z')
    ensures Upper(w) == w
  {
    assert forall i | 0 <= i < |w| :: w[i] in w;
  }

  lemma VerbAt(k: nat)
    requires k < |COMMANDS|
    ensures VerbOf(COMMANDS[k].0) == COMMANDS[k].1
  {
    Vocabulary(k);
  }

  const PASS_WORDS := ["PASS", PASSWORD]
  const USER_WORDS := ["USER", "u", "h", "s", "r"]

  function NickWords(nick: string): seq<string> {
    ["NICK", nick]
  }

  ghost predicate TurnLeads(s: State, fd: int, words: seq<string>, u: State) {
    Runs.Possible(s, Turn(fd, words)) && Runs.After(s, Turn(fd, words)) == u
  }

  /** The words of a client that has not signed up are the command they look like. */
  lemma SignUpLeads(s: State, fd: int, words: seq<string>, u: State)
    requires fd in s.clients && s.clients[fd].held == "" && !s.clients[fd].Registered()
    requires Ordinary(words) && Upper(words[0]) == words[0] && AllSent(u)
    requires SameButOutput(SignUp(Fresh(s, fd), fd, VerbOf(words[0]), words), u)
    ensures Leads(s, fd, words, u)
  {
    LineIsExecuted(s, fd, words);
    assert [Upper(words[0])] + words[1..] == words;
  }

  lemma SignUpTurn(s: State, fd: int, words: seq<string>, u: State)
    requires fd in s.clients && s.clients[fd].held == "" && !s.clients[fd].Registered()
    requires Ordinary(words) && Upper(words[0]) == words[0] && AllSent(u)
    requires SameButOutput(SignUp(Fresh(s, fd), fd, VerbOf(words[0]), words), u)
    ensures TurnLeads(s, fd, words, u)
  {
    SignUpLeads(s, fd, words, u);
    TurnIs(s, fd, words, u);
  }

  function Passed(c: ClientRec): ClientRec {
    c.(passOk := true, partial := false)
  }

  lemma Passes(s: State, fd: int)
    requires fd in s.clients && s.password == PASSWORD && s.clients[fd].held == ""
    requires !s.clients[fd].passOk && !s.clients[fd].nickOk
    ensures SameButOutput(SignUp(Fresh(s, fd), fd, PASS, PASS_WORDS), PutClient(s, fd, Passed(s.clients[fd])))
  {
  }

  lemma PassIsOrdinary()
    ensures Ordinary(PASS_WORDS)
  {
    forall w | w in PASS_WORDS ensures IsPlain(w) && 'L' !in w && 'K' !in w {
      assert w == "PASS" || w == PASSWORD;
    }
  }

  lemma PassSpelled()
    ensures Ordinary(PASS_WORDS) && Upper("PASS") == "PASS" && VerbOf("PASS") == PASS
  {
    PassIsOrdinary();
    VerbAt(2);
    UpperStays("PASS");
  }

  lemma PassTurn(s: State, fd: int)
    requires fd in s.clients && s.clients[fd].held == "" && AllSent(s) && s.password == PASSWORD
    requires !s.clients[fd].passOk && !s.clients[fd].nickOk
    ensures TurnLeads(s, fd, PASS_WORDS, PutClient(s, fd, Passed(s.clients[fd])))
  {
    PassSpelled();
    Passes(s, fd);
    SignUpTurn(s, fd, PASS_WORDS, PutClient(s, fd, Passed(s.clients[fd])));
  }

  function Named(c: ClientRec, nick: string): ClientRec {
    c.(nick := nick, nickOk := true, partial := false)
  }

  lemma FreeNick(s: State, nick: string)
    requires !NickSpec.InUse(s.clients, nick)
    ensures NickSpec.FreshNick(s.clients, nick) == nick
  {
  }

  lemma Names(s: State, fd: int, nick: string)
    requires fd in s.clients && s.clients[fd].held == "" && s.clients[fd].chans == []
    requires s.clients[fd].passOk && !s.clients[fd].userOk
    requires ValidNick(nick) && !NickSpec.InUse(s.clients, nick)
    ensures SameButOutput(SignUp(Fresh(s, fd), fd, NICK, NickWords(nick)), PutClient(s, fd, Named(s.clients[fd], nick)))
  {
    FreeNick(Fresh(s, fd), nick);
  }

  /** A nickname of one small letter. */
  predicate IsLetter(nick: string) {
    |nick| == 1 && 'a' <= nick[0] <= 'z'
  }

  lemma NickSpelled(nick: string)
    requires IsLetter(nick)
    ensures ValidNick(nick) && Ordinary(NickWords(nick))
    ensures Upper("NICK") == "NICK" && VerbOf("NICK") == NICK
  {
    VerbAt(1);
    UpperStays("NICK");
    assert forall w | w in NickWords(nick) :: w == "NICK" || w == nick;
  }

  lemma NickTurn(s: State, fd: int, nick: string)
    requires fd in s.clients && s.clients[fd].held == "" && AllSent(s) && s.clients[fd].chans == []
    requires s.clients[fd].passOk && !s.clients[fd].userOk
    requires IsLetter(nick) && !NickSpec.InUse(s.clients, nick)
    ensures TurnLeads(s, fd, NickWords(nick), PutClient(s, fd, Named(s.clients[fd], nick)))
  {
    NickSpelled(nick);
    Names(s, fd, nick);
    SignUpTurn(s, fd, NickWords(nick), PutClient(s, fd, Named(s.clients[fd], nick)));
  }

  function Enrolled(c: ClientRec): ClientRec {
    c.(user := "u", host := "h", server := "s", realname := "r", userOk := true, partial := false)
  }

  lemma Enrols(s: State, fd: int)
    requires fd in s.clients && s.clients[fd].held == "" && s.clients[fd].passOk && !s.clients[fd].userOk
    ensures SameButOutput(SignUp(Fresh(s, fd), fd, USER, USER_WORDS), PutClient(s, fd, Enrolled(s.clients[fd])))
  {
    assert USER_WORDS[4..] == ["r"];
  }

  lemma UserIsOrdinary()
    ensures Ordinary(USER_WORDS)
  {
    forall w | w in USER_WORDS ensures IsPlain(w) && 'L' !in w && 'K' !in w {
      assert w == "USER" || w == "u" || w == "h" || w == "s" || w == "r";
    }
  }

  lemma UserSpelled()
    ensures Ordinary(USER_WORDS) && Upper("USER") == "USER" && VerbOf("USER") == USER
  {
    UserIsOrdinary();
    VerbAt(0);
    UpperStays("USER");
  }

  lemma UserTurn(s: State, fd: int)
    requires fd in s.clients && s.clients[fd].held == "" && AllSent(s)
    requires s.clients[fd].passOk && !s.clients[fd].userOk
    ensures TurnLeads(s, fd, USER_WORDS, PutClient(s, fd, Enrolled(s.clients[fd])))
  {
    UserSpelled();
    Enrols(s, fd);
    SignUpTurn(s, fd, USER_WORDS, PutClient(s, fd, Enrolled(s.clients[fd])));
  }

  // ---- signed in -----------------------------------------------------------

  lemma SignInLeads(s: State, fd: int, words: seq<string>, u: State)
    requires fd in s.clients && s.clients[fd].held == "" && s.clients[fd].Registered()
    requires Ordinary(words) && Upper(words[0]) == words[0] && AllSent(u)
    requires VerbOf(words[0]) == MODE || (VerbOf(words[0]) == JOIN && |words| == 2)
    requires SameButOutput(SignIn(Fresh(s, fd), fd, VerbOf(words[0]), words), u)
    ensures Leads(s, fd, words, u)
  {
    LineIsExecuted(s, fd, words);
    assert [Upper(words[0])] + words[1..] == words;
  }

  lemma SignInTurn(s: State, fd: int, words: seq<string>, u: State)
    requires fd in s.clients && s.clients[fd].held == "" && s.clients[fd].Registered()
    requires Ordinary(words) && Upper(words[0]) == words[0] && AllSent(u)
    requires VerbOf(words[0]) == MODE || (VerbOf(words[0]) == JOIN && |words| == 2)
    requires SameButOutput(SignIn(Fresh(s, fd), fd, VerbOf(words[0]), words), u)
    ensures TurnLeads(s, fd, words, u)
  {
    SignInLeads(s, fd, words, u);
    TurnIs(s, fd, words, u);
  }

  const JOIN_WORDS := ["JOIN", "#c"]

  /** fd is in #c, which it founds if there is no such channel. */
  function InChannel(s: State, fd: int): State {
    PutChannel(PutClient(s, fd, Who(s, fd).(chans := Who(s, fd).chans + ["#c"], partial := false)), "#c",
               JoinSpec.Joined(s, fd, "#c"))
  }

  lemma JoinIsOne(s: State, fd: int)
    ensures JoinSpec.Join(s, fd, JOIN_WORDS) == JoinSpec.JoinOne(s, fd, "#c", None)
  {
    var names, keys := JoinSpec.Names(JOIN_WORDS), JoinSpec.Paired(JOIN_WORDS);
    assert ',' !in "#c";
    assert names == ["#c"] && keys == [None];
    assert names[1..] == [] && JoinSpec.Keys(JOIN_WORDS) == [""];
    assert JoinSpec.JoinAll(JoinSpec.JoinOne(s, fd, "#c", None), fd, [], keys[1..], false)
        == JoinSpec.JoinOne(s, fd, "#c", None);
  }

  lemma TellSame(t: State, u: State, group: seq<int>, line: Reply)
    requires SameButOutput(t, u)
    ensures SameButOutput(Tell(t, group, line), u)
  {
    var v := Tell(t, group, line);
    forall g | g in u.clients ensures v.clients[g].(out := u.clients[g].out) == u.clients[g] {
      assert t.clients[g].(out := u.clients[g].out) == u.clients[g];
    }
  }

  lemma SaySame(t: State, u: State, fd: int, line: Reply)
    requires SameButOutput(t, u) && fd in t.clients
    ensures SameButOutput(Say(t, fd, line), u)
  {
    assert t.clients[fd].(out := u.clients[fd].out) == u.clients[fd];
  }

  lemma InformSame(t: State, u: State, fd: int)
    requires SameButOutput(t, u) && fd in t.clients
    ensures SameButOutput(JoinSpec.SayNames(t, fd, "#c"), u)
    ensures SameButOutput(JoinSpec.SayTopic(t, fd, "#c"), u)
  {
    var list := NameList(Who(t, fd).nick, "#c", JoinSpec.NameEntries(t, "#c"));
    SaySame(t, u, fd, list);
    SaySame(Say(t, fd, list), u, fd, Numeric(366, [Who(t, fd).nick, "#c"]));
    if ChannelAt(t, "#c").topic != "" {
      SaySame(t, u, fd, Numeric(332, [Who(t, fd).nick, "#c", ChannelAt(t, "#c").topic[1..]]));
    }
  }

  lemma TellJoinSame(t: State, u: State, fd: int)
    requires SameButOutput(t, u)
    ensures SameButOutput(JoinSpec.TellJoin(t, fd, "#c"), u)
  {
    TellSame(t, u, ChannelAt(t, "#c").members, Relay(Who(t, fd).Prefix(), JOIN, ["#c", ""]));
  }

  lemma EnterSame(s: State, fd: int)
    requires fd in s.clients && s.clients[fd].held == "" && "#c" in s.channels
    ensures SameButOutput(Enter(Fresh(s, fd), fd, "#c"), InChannel(s, fd))
  {
  }

  lemma CreateSame(s: State, fd: int)
    requires fd in s.clients && s.clients[fd].held == "" && "#c" !in s.channels
    ensures SameButOutput(Create(Fresh(s, fd), fd, "#c"), InChannel(s, fd))
  {
  }

  lemma Founds(s: State, fd: int)
    requires fd in s.clients && s.clients[fd].held == "" && "#c" !in s.channels
    ensures SameButOutput(JoinSpec.CreateAndTell(Fresh(s, fd), fd, "#c"), InChannel(s, fd))
  {
    var u, t := InChannel(s, fd), Create(Fresh(s, fd), fd, "#c");
    CreateSame(s, fd);
    TellJoinSame(t, u, fd);
    InformSame(JoinSpec.TellJoin(t, fd, "#c"), u, fd);
  }

  lemma Enters(s: State, fd: int)
    requires fd in s.clients && s.clients[fd].held == "" && "#c" in s.channels
    ensures SameButOutput(JoinSpec.EnterAndTell(Fresh(s, fd), fd, "#c"), InChannel(s, fd))
  {
    var u, t := InChannel(s, fd), Enter(Fresh(s, fd), fd, "#c");
    EnterSame(s, fd);
    TellJoinSame(t, u, fd);
    InformSame(JoinSpec.TellJoin(t, fd, "#c"), u, fd);
    InformSame(JoinSpec.SayTopic(JoinSpec.TellJoin(t, fd, "#c"), fd, "#c"), u, fd);
  }

  lemma Joins(s: State, fd: int)
    requires fd in s.clients && s.clients[fd].held == "" && JoinSpec.Admits(s, fd, "#c", None)
    ensures SameButOutput(JoinSpec.JoinOne(Fresh(s, fd), fd, "#c", None), InChannel(s, fd))
  {
    if "#c" in s.channels {
      Enters(s, fd);
    } else {
      Founds(s, fd);
    }
  }

  lemma JoinIsOrdinary()
    ensures Ordinary(JOIN_WORDS)
  {
    forall w | w in JOIN_WORDS ensures IsPlain(w) && 'L' !in w && 'K' !in w {
      assert w == "JOIN" || w == "#c";
    }
  }

  lemma JoinSpelled()
    ensures Ordinary(JOIN_WORDS) && Upper("JOIN") == "JOIN" && VerbOf("JOIN") == JOIN
  {
    JoinIsOrdinary();
    VerbAt(6);
    UpperStays("JOIN");
  }

  lemma JoinTurn(s: State, fd: int)
    requires fd in s.clients && s.clients[fd].held == "" && s.clients[fd].Registered() && AllSent(s)
    requires JoinSpec.Admits(s, fd, "#c", None)
    ensures TurnLeads(s, fd, JOIN_WORDS, InChannel(s, fd))
  {
    JoinSpelled();
    JoinIsOne(Fresh(s, fd), fd);
    Joins(s, fd);
    SignInTurn(s, fd, JOIN_WORDS, InChannel(s, fd));
  }

  // ---- runs ----------------------------------------------------------------

  ghost predicate RunLeads(s: State, events: seq<Event>, u: State) {
    Runs.Possible(s, events) && Runs.After(s, events) == u
  }

  lemma RunOn(s: State, a: seq<Event>, t: State, b: seq<Event>, u: State)
    requires RunLeads(s, a, t) && RunLeads(t, b, u)
    ensures RunLeads(s, a + b, u)
  {
    Runs.AfterBoth(s, a, b);
  }

  lemma RunOneMore(s: State, a: seq<Event>, t: State, e: Event)
    requires RunLeads(s, a, t) && EventOk(t, e)
    ensures RunLeads(s, a + [e], Step(t, e))
  {
    var u := Step(t, e);
    assert [e][1..] == [] && Runs.After(u, []) == u && Runs.Possible(u, []);
    RunOn(s, a, t, [e], u);
  }

  function SigningUp(fd: int, nick: string): seq<Event> {
    Turn(fd, PASS_WORDS) + Turn(fd, NickWords(nick)) + Turn(fd, USER_WORDS)
  }

  function SignedUp(id: int, nick: string): ClientRec {
    Enrolled(Named(Passed(NewClient(id)), nick))
  }

  lemma Replaced(s: State, fd: int, c: ClientRec, d: ClientRec, nick: string)
    requires fd in s.clients && AllSent(s) && c.out == []
    requires c.nick != nick && forall g | g in s.clients && g != fd :: s.clients[g].nick != nick
    ensures var t := PutClient(s, fd, c);
      AllSent(t) && PutClient(t, fd, d) == PutClient(s, fd, d) && !NickSpec.InUse(t.clients, nick)
  {
  }

  /** A new client that signs up. */
  lemma SignsUp(s: State, fd: int, nick: string)
    requires fd in s.clients && AllSent(s) && s.password == PASSWORD
    requires s.clients[fd] == NewClient(s.clients[fd].fd).(partial := s.clients[fd].partial)
    requires IsLetter(nick) && forall g | g in s.clients && g != fd :: s.clients[g].nick != nick
    ensures RunLeads(s, SigningUp(fd, nick), PutClient(s, fd, SignedUp(s.clients[fd].fd, nick)))
  {
    var c := s.clients[fd];
    var c1 := Passed(c);
    var c2 := Named(c1, nick);
    var t1, t2, t3 := PutClient(s, fd, c1), PutClient(s, fd, c2), PutClient(s, fd, Enrolled(c2));
    PassTurn(s, fd);
    Replaced(s, fd, c1, c2, nick);
    NickTurn(t1, fd, nick);
    UserTurn(t2, fd);
    assert PutClient(t2, fd, Enrolled(c2)) == t3;
    RunOn(s, Turn(fd, PASS_WORDS), t1, Turn(fd, NickWords(nick)), t2);
    RunOn(s, Turn(fd, PASS_WORDS) + Turn(fd, NickWords(nick)), t2, Turn(fd, USER_WORDS), t3);
  }

  lemma Connects(s: State, fd: int)
    requires 0 <= fd && fd !in s.clients
    ensures RunLeads(s, [Accept(fd)], PutClient(s, fd, NewClient(fd)))
  {
    var t := Step(s, Accept(fd));
    assert [Accept(fd)][1..] == [];
    assert Runs.After(t, []) == t && Runs.Possible(t, []);
  }

  function Reconnecting(fd: int): seq<Event> {
    [Accept(fd), Closed(fd), Accept(fd)]
  }

  lemma Closes(s: State, fd: int)
    requires fd in s.clients && s.clients[fd].chans == []
    ensures Step(s, Closed(fd)) == PutClient(s, fd, NewClient(-1).(partial := true))
  {
    assert QuitSpec.Disconnect(s, fd).channels == s.channels;
    assert (s.clients - {fd})[fd := NewClient(-1).(partial := true)]
        == s.clients[fd := NewClient(-1).(partial := true)];
  }

  /** A connection that is lost and taken up again on the same descriptor stores no
      descriptor of its own. */
  lemma ReusedDescriptor(s: State, fd: int)
    requires 0 <= fd && fd !in s.clients
    ensures RunLeads(s, Reconnecting(fd), PutClient(s, fd, NewClient(-1).(partial := true)))
  {
    var t := PutClient(s, fd, NewClient(fd));
    var u := PutClient(s, fd, NewClient(-1).(partial := true));
    Connects(s, fd);
    Closes(t, fd);
    assert Step(t, Closed(fd)) == u && Step(u, Accept(fd)) == u;
    AfterTwo(t, Closed(fd), Accept(fd));
    RunOn(s, [Accept(fd)], t, [Closed(fd), Accept(fd)], u);
    assert [Accept(fd)] + [Closed(fd), Accept(fd)] == Reconnecting(fd);
  }

  function Entering(fd: int, nick: string): seq<Event> {
    SigningUp(fd, nick) + Turn(fd, JOIN_WORDS)
  }

  /** What becomes of a new client that signs up and joins #c. */
  function Entered(s: State, fd: int, nick: string): State {
    InChannel(PutClient(s, fd, SignedUp(Who(s, fd).fd, nick)), fd)
  }

  lemma SignsUpAndJoins(s: State, fd: int, nick: string)
    requires fd in s.clients && AllSent(s) && s.password == PASSWORD
    requires s.clients[fd] == NewClient(s.clients[fd].fd).(partial := s.clients[fd].partial)
    requires IsLetter(nick) && forall g | g in s.clients && g != fd :: s.clients[g].nick != nick
    requires JoinSpec.Admits(s, fd, "#c", None)
    ensures RunLeads(s, Entering(fd, nick), Entered(s, fd, nick)) && AllSent(Entered(s, fd, nick))
  {
    var t := PutClient(s, fd, SignedUp(s.clients[fd].fd, nick));
    SignsUp(s, fd, nick);
    JoinTurn(t, fd);
    RunOn(s, SigningUp(fd, nick), t, Turn(fd, JOIN_WORDS), InChannel(t, fd));
  }

  // ---- a channel without members -------------------------------------------

  function Member(id: int, nick: string): ClientRec {
    SignedUp(id, nick).(chans := ["#c"])
  }

  /** One client, alone in its channel. */
  function Hermit(): State {
    State(PASSWORD, map[4 := Member(4, "a")], map["#c" := NewChannel("#c", 4).(members := [4])])
  }

  function Founding(): seq<Event> {
    [Accept(4)] + Entering(4, "a")
  }

  lemma EnteredIsHermit()
    ensures Entered(PutClient(Initial(PASSWORD), 4, NewClient(4)), 4, "a") == Hermit()
  {
    var s := Entered(PutClient(Initial(PASSWORD), 4, NewClient(4)), 4, "a");
    assert [] + [4] == [4] && [] + ["#c"] == ["#c"];
    assert s.clients == Hermit().clients && s.channels == Hermit().channels;
  }

  lemma HermitIsReached()
    ensures RunLeads(Initial(PASSWORD), Founding(), Hermit()) && AllSent(Hermit())
  {
    var s := Initial(PASSWORD);
    var t := PutClient(s, 4, NewClient(4));
    Connects(s, 4);
    SignsUpAndJoins(t, 4, "a");
    EnteredIsHermit();
    RunOn(s, [Accept(4)], t, Entering(4, "a"), Hermit());
  }

  lemma HermitHangsUp(s: State, t: State)
    requires s == Hermit() && t == Step(s, Hangup(4))
    ensures EventOk(s, Hangup(4)) && Runs.Deserts(s, Hangup(4))
    ensures "#c" in t.channels && t.channels["#c"].members == []
  {
    assert s.channels["#c"].members == [4];
  }

  /** A run after which a channel has no members. */
  lemma Deserted() returns (states: seq<State>, events: seq<Event>)
    ensures Runs.IsRun(states, events) && |events| > 0
    ensures Runs.Deserts(states[|events| - 1], events[|events| - 1])
    ensures "#c" in states[|events|].channels && states[|events|].channels["#c"].members == []
  {
    var s, e := Hermit(), Hangup(4);
    HermitIsReached();
    HermitHangsUp(s, Step(s, e));
    RunOneMore(Initial(PASSWORD), Founding(), s, e);
    events := Founding() + [e];
    states := Runs.RunOf(PASSWORD, events);
    Runs.RunPrefix(states, events, Founding());
  }

  // ---- members that store no descriptor ------------------------------------

  function Blank(): ClientRec {
    NewClient(-1).(partial := true)
  }

  lemma ComesBack(s: State, fd: int, nick: string)
    requires 0 <= fd && fd !in s.clients && AllSent(s) && s.password == PASSWORD
    requires IsLetter(nick) && !NickSpec.InUse(s.clients, nick)
    requires JoinSpec.Admits(s, fd, "#c", None)
    ensures var t := Entered(PutClient(s, fd, Blank()), fd, nick);
      RunLeads(s, Reconnecting(fd) + Entering(fd, nick), t) && AllSent(t)
  {
    var t := PutClient(s, fd, Blank());
    ReusedDescriptor(s, fd);
    SignsUpAndJoins(t, fd, nick);
    RunOn(s, Reconnecting(fd), t, Entering(fd, nick), Entered(t, fd, nick));
  }

  function Pair(): State {
    State(PASSWORD, map[4 := Member(4, "a"), 5 := Member(-1, "b")],
          map["#c" := NewChannel("#c", 4).(members := [4, 5])])
  }

  /** Three clients in a channel, two of which came back on used descriptors. */
  function Reunion(): State {
    State(PASSWORD, map[4 := Member(4, "a"), 5 := Member(-1, "b"), 6 := Member(-1, "c")],
          map["#c" := NewChannel("#c", 4).(members := [4, 5, 6])])
  }

  lemma EnteredIsPair()
    ensures Entered(PutClient(Hermit(), 5, Blank()), 5, "b") == Pair()
  {
    var s := Entered(PutClient(Hermit(), 5, Blank()), 5, "b");
    assert [4] + [5] == [4, 5] && [] + ["#c"] == ["#c"];
    assert s.clients == Pair().clients && s.channels == Pair().channels;
  }

  lemma EnteredIsReunion()
    ensures Entered(PutClient(Pair(), 6, Blank()), 6, "c") == Reunion()
  {
    var s := Entered(PutClient(Pair(), 6, Blank()), 6, "c");
    assert [4, 5] + [6] == [4, 5, 6] && [] + ["#c"] == ["#c"];
    assert s.clients == Reunion().clients && s.channels == Reunion().channels;
  }

  function Reuniting(): seq<Event> {
    Founding() + (Reconnecting(5) + Entering(5, "b")) + (Reconnecting(6) + Entering(6, "c"))
  }

  lemma HermitIsAlone(s: State)
    requires s == Hermit()
    ensures 5 !in s.clients && AllSent(s) && s.password == PASSWORD
    ensures !NickSpec.InUse(s.clients, "b") && JoinSpec.Admits(s, 5, "#c", None)
  {
    assert "a"[0] != "b"[0];
  }

  lemma PairIsReached()
    ensures RunLeads(Hermit(), Reconnecting(5) + Entering(5, "b"), Pair()) && AllSent(Pair())
  {
    HermitIsAlone(Hermit());
    ComesBack(Hermit(), 5, "b");
    EnteredIsPair();
  }

  lemma TripleIsReached()
    ensures RunLeads(Pair(), Reconnecting(6) + Entering(6, "c"), Reunion()) && AllSent(Reunion())
  {
    PairIsReached();
    assert "a"[0] != "c"[0] && "b"[0] != "c"[0];
    ComesBack(Pair(), 6, "c");
    EnteredIsReunion();
  }

  lemma ReunionIsReached()
    ensures RunLeads(Initial(PASSWORD), Reuniting(), Reunion()) && Inv(Reunion())
  {
    HermitIsReached();
    PairIsReached();
    TripleIsReached();
    RunOn(Initial(PASSWORD), Founding(), Hermit(), Reconnecting(5) + Entering(5, "b"), Pair());
    RunOn(Initial(PASSWORD), Founding() + (Reconnecting(5) + Entering(5, "b")), Pair(),
          Reconnecting(6) + Entering(6, "c"), Reunion());
    var states := Runs.RunOf(PASSWORD, Reuniting());
  }

  lemma MissesNick(s: State, cmd: seq<string>)
    requires s == Reunion() && Inv(s) && cmd == ["NICK", "d"]
    ensures NickSpec.Accepted(s, 4, cmd)
    ensures exists g | g in s.clients ::
              NickSpec.Shares(s, 4, g) && NickSpec.Nick(s, 4, cmd).clients[g].out == s.clients[g].out
  {
    assert "a"[0] != "d"[0] && "b"[0] != "d"[0] && "c"[0] != "d"[0];
    FreeNick(s, "d");
    NickSpec.NickOnce(s, 4, cmd);
    assert IsMember(s, 4, "#c") && IsMember(s, 5, "#c") && IsMember(s, 6, "#c");
    assert NickSpec.Shares(s, 4, 5) && NickSpec.Shares(s, 4, 6);
  }

  /** A run after which a member of the channel never learns of a change of nickname. */
  lemma NickMissed() returns (states: seq<State>, events: seq<Event>)
    ensures Runs.IsRun(states, events)
    ensures var s, cmd := states[|events|], ["NICK", "d"];
      && NickSpec.Accepted(s, 4, cmd)
      && exists g | g in s.clients ::
           NickSpec.Shares(s, 4, g) && NickSpec.Nick(s, 4, cmd).clients[g].out == s.clients[g].out
  {
    ReunionIsReached();
    events := Reuniting();
    states := Runs.RunOf(PASSWORD, events);
    MissesNick(states[|events|], ["NICK", "d"]);
  }

  lemma IsInvited(s: State, cmd: seq<string>)
    requires s == Reunion() && Inv(s) && cmd == ["INVITE", "b", "#c"]
    ensures Find(s.clients, "b") == Some(5) && IsMember(s, 5, "#c")
    ensures InviteSpec.Refusal(s, 4, cmd).None?
    ensures "#c" in InviteSpec.Invite(s, 4, cmd).channels && InviteSpec.Invite(s, 4, cmd).channels["#c"].invites == [-1]
  {
    FindIsUnique(s, 5);
    InviteSpec.MemberRefusedIff(s, 4, cmd);
    InviteSpec.SummonEffect(s, 4, 5, "b", "#c");
    assert [] + [-1] == [-1];
  }

  /** A run after which a member of the channel is invited to it, and the invitation is
      written down for nobody. */
  lemma MemberInvited() returns (states: seq<State>, events: seq<Event>)
    ensures Runs.IsRun(states, events)
    ensures var s, cmd := states[|events|], ["INVITE", "b", "#c"];
      && Find(s.clients, "b") == Some(5) && IsMember(s, 5, "#c")
      && InviteSpec.Refusal(s, 4, cmd).None?
      && "#c" in InviteSpec.Invite(s, 4, cmd).channels
      && InviteSpec.Invite(s, 4, cmd).channels["#c"].invites == [-1]
  {
    ReunionIsReached();
    events := Reuniting();
    states := Runs.RunOf(PASSWORD, events);
    IsInvited(states[|events|], ["INVITE", "b", "#c"]);
  }

  // ---- a list of channels without keys -------------------------------------

  const LOCK_WORDS := ["MODE", "#c", "+k", "z"]

  function Locked(): State {
    PutChannel(Hermit(), "#c", Hermit().channels["#c"].(key := "z", keyOn := true))
  }

  lemma LockInterpreted(c: ChannelRec, clients: map<int, ClientRec>, fd: int, nick: string)
    requires !c.keyOn
    ensures var m := ModeSpec.Interpret(ModeSpec.Start(c), "+k", clients, fd, nick, LOCK_WORDS);
      m.chan == c.(key := "z", keyOn := true) && m.errors == []
  {
    var m := ModeSpec.Start(c);
    var n := ModeSpec.Flag(m, '+', clients, fd, nick, LOCK_WORDS);
    var o := ModeSpec.Flag(n, 'k', clients, fd, nick, LOCK_WORDS);
    assert "+k"[1..] == "k" && "k"[1..] == "";
    assert ModeSpec.Interpret(o, "", clients, fd, nick, LOCK_WORDS) == o;
    assert ModeSpec.Interpret(n, "k", clients, fd, nick, LOCK_WORDS) == o;
  }

  lemma FinishSame(s: State, u: State, fd: int, m: ModeSpec.Machine)
    requires fd in s.clients && m.errors == [] && SameButOutput(PutChannel(s, "#c", m.chan), u)
    ensures SameButOutput(ModeSpec.Finish(s, fd, "#c", m), u)
  {
    var t := ModeSpec.Apply(s, fd, "#c", m);
    assert s.clients[fd].out + [] == s.clients[fd].out;
    assert s.clients[fd := s.clients[fd]] == s.clients;
    assert t == PutChannel(s, "#c", m.chan);
    TellSame(t, u, m.chan.members, Relay(Who(t, fd).Prefix(), MODE, ["#c", ModeSpec.Announcement(m, fd), m.plus]));
  }

  lemma Locks(s: State)
    requires s == Fresh(Hermit(), 4)
    ensures SameButOutput(ModeSpec.Mode(s, 4, LOCK_WORDS), Locked())
  {
    var c, nick := s.channels["#c"], s.clients[4].nick;
    var m := ModeSpec.Interpret(ModeSpec.Start(c), "+k", s.clients, 4, nick, LOCK_WORDS);
    LockInterpreted(c, s.clients, 4, nick);
    FinishSame(s, Locked(), 4, m);
    assert nick[0] != "#c"[0];
  }

  lemma LockIsOrdinary()
    ensures Ordinary(LOCK_WORDS)
  {
    forall w | w in LOCK_WORDS ensures IsPlain(w) && 'L' !in w && 'K' !in w {
      assert w == "MODE" || w == "#c" || w == "+k" || w == "z";
    }
  }

  lemma LockSpelled()
    ensures Ordinary(LOCK_WORDS) && Upper("MODE") == "MODE" && VerbOf("MODE") == MODE
  {
    LockIsOrdinary();
    VerbAt(8);
    UpperStays("MODE");
  }

  lemma LockTurn()
    ensures TurnLeads(Hermit(), 4, LOCK_WORDS, Locked())
  {
    HermitIsReached();
    LockSpelled();
    Locks(Fresh(Hermit(), 4));
    SignInTurn(Hermit(), 4, LOCK_WORDS, Locked());
  }

  function Arriving(): seq<Event> {
    [Accept(5)] + SigningUp(5, "b")
  }

  /** Somebody who is in no channel, and a channel that asks for a key. */
  function AtTheDoor(): State {
    PutClient(Locked(), 5, SignedUp(5, "b"))
  }

  lemma LockedIsReached()
    ensures RunLeads(Initial(PASSWORD), Founding() + Turn(4, LOCK_WORDS), Locked()) && AllSent(Locked())
  {
    HermitIsReached();
    LockTurn();
    RunOn(Initial(PASSWORD), Founding(), Hermit(), Turn(4, LOCK_WORDS), Locked());
  }

  lemma DoorIsFree(t: State)
    requires t == PutClient(Locked(), 5, NewClient(5))
    ensures 5 !in Locked().clients && AllSent(t) && t.password == PASSWORD
    ensures forall g | g in t.clients && g != 5 :: t.clients[g].nick != "b"
    ensures PutClient(t, 5, SignedUp(5, "b")) == AtTheDoor()
  {
    assert "a"[0] != "b"[0];
  }

  lemma ComesToTheDoor()
    ensures RunLeads(Locked(), Arriving(), AtTheDoor())
  {
    var t := PutClient(Locked(), 5, NewClient(5));
    DoorIsFree(t);
    Connects(Locked(), 5);
    SignsUp(t, 5, "b");
    RunOn(Locked(), [Accept(5)], t, SigningUp(5, "b"), AtTheDoor());
  }

  const LIST_WORDS := ["JOIN", "#c,#d"]

  lemma ListIsCut()
    ensures JoinSpec.Names(LIST_WORDS) == ["#c", "#d"] && JoinSpec.Keys(LIST_WORDS) == []
  {
    assert "#c,#d" == "#c" + [','] + "#d";
    SplitHead("#c", ',', "#d");
    SplitWhole("#d", ',');
    assert "#c,#d"[2] == ',';
  }

  lemma DiffersFromSingles(s: State)
    requires s == AtTheDoor() && Inv(s)
    ensures JoinSpec.Join(s, 5, LIST_WORDS)
         != JoinSpec.Singles(s, 5, JoinSpec.Names(LIST_WORDS), JoinSpec.Paired(LIST_WORDS))
  {
    ListIsCut();
    var name := JoinSpec.Names(LIST_WORDS)[0];
    assert JoinSpec.Blocks(s, 5, name);
    JoinSpec.ListIsSingles(s, 5, LIST_WORDS);
  }

  /** A run after which a list of two channels without keys is not worked through as
      the two single commands would be: the first channel asks for a key. */
  lemma ListCutShort() returns (states: seq<State>, events: seq<Event>)
    ensures Runs.IsRun(states, events) && 5 in states[|events|].clients && states[|events|].clients[5].Registered()
    ensures JoinSpec.JoinDefined(LIST_WORDS)
    ensures JoinSpec.Join(states[|events|], 5, LIST_WORDS)
         != JoinSpec.Singles(states[|events|], 5, JoinSpec.Names(LIST_WORDS), JoinSpec.Paired(LIST_WORDS))
  {
    LockedIsReached();
    ComesToTheDoor();
    RunOn(Initial(PASSWORD), Founding() + Turn(4, LOCK_WORDS), Locked(), Arriving(), AtTheDoor());
    events := Founding() + Turn(4, LOCK_WORDS) + Arriving();
    states := Runs.RunOf(PASSWORD, events);
    DiffersFromSingles(states[|events|]);
  }

  // ---- an announcement of nothing ------------------------------------------

  const UNSIGNED_WORDS := ["MODE", "#c", "it"]

  lemma UnsignedIsOrdinary()
    ensures Ordinary(UNSIGNED_WORDS)
  {
    forall w | w in UNSIGNED_WORDS ensures IsPlain(w) && 'L' !in w && 'K' !in w {
      assert w == "MODE" || w == "#c" || w == "it";
    }
  }

  function Announced(): Reply {
    Relay(Member(4, "a").Prefix(), MODE, ["#c", ModeSpec.UNSIGNED, ""])
  }

  lemma NothingIsSet(s: State)
    requires s == Hermit()
    ensures ModeSpec.Mode(s, 4, UNSIGNED_WORDS).channels == s.channels
    ensures ModeSpec.Mode(s, 4, UNSIGNED_WORDS) == Tell(s, [4], Announced())
  {
    var c, nick := s.channels["#c"], s.clients[4].nick;
    ModeSpec.Unsigned(c, s.clients, 4, nick, UNSIGNED_WORDS);
    assert nick[0] != "#c"[0];
    var m := ModeSpec.Interpret(ModeSpec.Start(c), "it", s.clients, 4, nick, UNSIGNED_WORDS);
    assert s.clients[4].out + [] == s.clients[4].out;
    assert s.clients[4 := s.clients[4]] == s.clients && s.channels["#c" := c] == s.channels;
    assert ModeSpec.Apply(s, 4, "#c", m) == s;
  }

  lemma HermitIsFresh()
    ensures Fresh(Hermit(), 4) == Hermit() && 4 in Hermit().clients && Hermit().clients[4].Registered()
  {
    assert Hermit().clients[4 := Hermit().clients[4]] == Hermit().clients;
  }

  lemma ModeIsExecuted(s: State, fd: int, words: seq<string>)
    requires fd in s.clients && s.clients[fd].held == "" && s.clients[fd].Registered()
    requires Ordinary(words) && Upper(words[0]) == words[0] && VerbOf(words[0]) == MODE
    ensures EventOk(s, Message(fd, Line(words)))
    ensures Step(s, Message(fd, Line(words))) == ModeSpec.Mode(Fresh(s, fd), fd, words)
  {
    LineIsExecuted(s, fd, words);
    assert [Upper(words[0])] + words[1..] == words;
  }

  lemma UnsignedStep(e: Event)
    requires e == Message(4, Line(UNSIGNED_WORDS))
    ensures EventOk(Hermit(), e) && Step(Hermit(), e) == Tell(Hermit(), [4], Announced())
  {
    UnsignedIsOrdinary();
    LockSpelled();
    HermitIsFresh();
    ModeIsExecuted(Hermit(), 4, UNSIGNED_WORDS);
    NothingIsSet(Hermit());
  }

  lemma ToldNothing(s: State, t: State)
    requires s == Hermit() && t == Tell(s, [4], Announced())
    ensures t.channels == s.channels && IsMember(s, 4, "#c") && 4 in s.clients && 4 in t.clients
    ensures t.clients[4].out == s.clients[4].out + [Announced()]
  {
  }

  /** A run at whose end a member has been told of two modes, under no sign, and the
      channel is as it was. */
  lemma NothingAnnounced() returns (states: seq<State>, events: seq<Event>)
    ensures Runs.IsRun(states, events) && |events| > 0
    ensures var s, t := states[|events| - 1], states[|events|];
      && t.channels == s.channels && IsMember(s, 4, "#c") && 4 in s.clients && 4 in t.clients
      && t.clients[4].out == s.clients[4].out + [Announced()]
  {
    var s, e := Hermit(), Message(4, Line(UNSIGNED_WORDS));
    HermitIsReached();
    UnsignedStep(e);
    RunOneMore(Initial(PASSWORD), Founding(), s, e);
    events := Founding() + [e];
    states := Runs.RunOf(PASSWORD, events);
    Runs.RunPrefix(states, events, Founding());
    ToldNothing(s, Step(s, e));
  }
}
