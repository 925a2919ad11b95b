/** MODE: an interpreter of flag letters with a cursor into the parameters. */
module ModeSpec {
  import opened Seqs
  import opened IrcState
  import Wire

  /** Where the interpreter stands: the channel as changed so far, the sign in
      force, the next parameter, what will be announced, and the errors so far. */
  datatype Machine = Machine(
    chan: ChannelRec, sign: char, cursor: nat, message: string, plus: string,
    values: seq<string>, errors: seq<Reply>, stopped: bool)
  {
    /** The flag counts as set; the first one also announces its sign. */
    function Mark(flag: char): Machine {
      this.(message := (if message == "" then [sign] else message) + [flag])
    }

    function Stop(error: seq<Reply>): Machine {
      this.(errors := errors + error, stopped := true)
    }
  }

  const FIRST_PARAMETER := 3

  function Start(c: ChannelRec): Machine {
    Machine(c, '\0', FIRST_PARAMETER, "", "", [], [], false)
  }

  /** The flag already stands as the sign asks. */
  predicate Redundant(on: bool, sign: char) {
    (sign == '+' && on) || (sign == '-' && !on)
  }

  function Switched(on: bool, sign: char): bool {
    if sign == '+' then true else if sign == '-' then false else on
  }

  function FlagI(m: Machine): Machine {
    if Redundant(m.chan.inviteOn, m.sign) then m
    else m.(chan := m.chan.(inviteOn := Switched(m.chan.inviteOn, m.sign))).Mark('i')
  }

  function FlagT(m: Machine): Machine {
    if Redundant(m.chan.topicOn, m.sign) then m
    else m.(chan := m.chan.(topicOn := Switched(m.chan.topicOn, m.sign))).Mark('t')
  }

  function FlagK(m: Machine, words: seq<string>): Machine {
    if m.sign == '-' && !m.chan.keyOn then m
    else if m.sign == '+' && m.cursor < |words| then
      m.(chan := m.chan.(key := words[m.cursor], keyOn := true),
         values := m.values + [words[m.cursor]], cursor := m.cursor + 1).Mark('k')
    else if m.sign == '-' then m.(chan := m.chan.(key := "", keyOn := false)).Mark('k')
    else m
  }

  predicate AllDigits(w: string) {
    forall i | 0 <= i < |w| :: '0' <= w[i] <= '9'
  }

  function Decimal(w: string): nat
    requires AllDigits(w)
  {
    if w == "" then 0
    else 10 * Decimal(w[..|w| - 1]) + (w[|w| - 1] as int - '0' as int)
  }

  function FlagL(m: Machine, words: seq<string>): Machine {
    if m.sign == '-' && !m.chan.limitOn then m
    else if m.cursor < |words| && !AllDigits(words[m.cursor]) then m.(cursor := m.cursor + 1)
    else if m.sign == '+' && m.cursor < |words| then
      m.(chan := m.chan.(limit := Decimal(words[m.cursor]), limitOn := true),
         values := m.values + [words[m.cursor]], cursor := m.cursor + 1).Mark('l')
    else if m.sign == '-' then m.(chan := m.chan.(limit := 0, limitOn := false)).Mark('l')
    else m
  }

  function Grant(m: Machine, c: ClientRec): Machine {
    m.(chan := m.chan.(operators := Add(m.chan.operators, c.fd)), plus := c.nick, cursor := m.cursor + 1).Mark('o')
  }

  function Revoke(m: Machine, c: ClientRec): Machine {
    m.(chan := m.chan.(operators := Drop(m.chan.operators, c.fd)), plus := c.nick, cursor := m.cursor + 1).Mark('o')
  }

  /** Why the operator flag may not touch the client that a word names: the command
      ends there, with an error line or without. */
  function Objection(c: ChannelRec, clients: map<int, ClientRec>, fd: int, nick: string, word: string, sign: char)
    : (lines: Option<seq<Reply>>)
    ensures lines.None? ==> Find(clients, word).Some?
    ensures lines.Some? ==> |lines.value| <= 1
  {
    var target := Find(clients, word);
    if target.None? then Some([Numeric(401, [nick, word])])
    else if clients[target.value].nick == nick then Some([])
    else if clients[target.value].fd !in c.members then Some([Numeric(441, [nick, word, c.name])])
    else if sign == '-' && fd !in c.operators then Some([Numeric(482, [nick, c.name])])
    else None
  }

  function FlagO(m: Machine, clients: map<int, ClientRec>, fd: int, nick: string, words: seq<string>): Machine {
    if m.cursor >= |words| then m
    else
      var objection := Objection(m.chan, clients, fd, nick, words[m.cursor], m.sign);
      if objection.Some? then m.Stop(objection.value)
      else
        var c := clients[Find(clients, words[m.cursor]).value];
        if m.sign == '+' then Grant(m, c) else if m.sign == '-' then Revoke(m, c) else m
  }

  function Flag(m: Machine, flag: char, clients: map<int, ClientRec>, fd: int, nick: string,
                words: seq<string>): Machine {
    if flag == '+' || flag == '-' then m.(sign := flag)
    else if flag == 'i' then FlagI(m)
    else if flag == 't' then FlagT(m)
    else if flag == 'k' then FlagK(m, words)
    else if flag == 'l' then FlagL(m, words)
    else if flag == 'o' then FlagO(m, clients, fd, nick, words)
    else m.(errors := m.errors + [Numeric(472, [nick, [flag]])])
  }

  function Interpret(m: Machine, flags: string, clients: map<int, ClientRec>, fd: int, nick: string,
                     words: seq<string>): Machine
    decreases |flags|
  {
    if flags == "" || m.stopped then m
    else Interpret(Flag(m, flags[0], clients, fd, nick, words), flags[1..], clients, fd, nick, words)
  }

  function WithValues(message: string, values: seq<string>): string
    decreases |values|
  {
    if values == [] then message
    else WithValues(if values[0] == "" then message else message + " " + values[0], values[1..])
  }

  function Announcement(m: Machine, fd: int): string {
    if fd in m.chan.operators then WithValues(m.message, m.values) else m.message
  }

  function SayEach(s: State, fd: int, lines: seq<Reply>): State {
    PutClient(s, fd, Who(s, fd).(out := Who(s, fd).out + lines))
  }

  /** The state while the interpreter runs. */
  function Apply(s: State, fd: int, name: string, m: Machine): State {
    PutChannel(SayEach(s, fd, m.errors), name, m.chan)
  }

  function Finish(s: State, fd: int, name: string, m: Machine): State {
    var t := Apply(s, fd, name, m);
    if m.stopped || Announcement(m, fd) == "" then t
    else Tell(t, m.chan.members, Relay(Who(t, fd).Prefix(), MODE, [name, Announcement(m, fd), m.plus]))
  }

  function ModeFlags(c: ChannelRec): string {
    (if c.topicOn then "t" else "") + (if c.inviteOn then "i" else "")
    + (if c.limitOn then "l" else "") + (if c.keyOn then "k" else "")
  }

  function Describe(s: State, fd: int, name: string): Reply {
    var c := ChannelAt(s, name);
    ModeIs(Who(s, fd).nick, name, ModeFlags(c),
           if c.keyOn then Some(if fd in c.operators then c.key else "<key>") else None,
           if c.limitOn then Some(c.limit) else None)
  }

  function Mode(s: State, fd: int, cmd: seq<string>): State {
    if |cmd| < 2 then Say(s, fd, Numeric(461, []))
    else if Who(s, fd).nick == cmd[1] then s
    else if cmd[1] !in s.channels then Say(s, fd, Numeric(403, [Who(s, fd).nick, cmd[1]]))
    else if |cmd| == 2 then Say(s, fd, Describe(s, fd, cmd[1]))
    else if |cmd[2]| == 1 then s
    else if fd !in s.channels[cmd[1]].operators then Say(s, fd, Numeric(482, [Who(s, fd).nick, cmd[1]]))
    else Finish(s, fd, cmd[1], Interpret(Start(s.channels[cmd[1]]), cmd[2], s.clients, fd, Who(s, fd).nick, cmd))
  }

  /** These words make fd change the modes of a channel it runs. */
  predicate Permitted(s: State, fd: int, cmd: seq<string>) {
    && |cmd| > 2 && Who(s, fd).nick != cmd[1] && cmd[1] in s.channels && |cmd[2]| != 1
    && fd in s.channels[cmd[1]].operators
  }

  // ---- what holds after every flag -----------------------------------------

  /** The cursor is in bounds, the issuer still runs the channel, operators are
      members, and a mode that is off has left nothing behind. */
  ghost predicate Sound(m: Machine, c: ChannelRec, fd: int, words: seq<string>) {
    && FIRST_PARAMETER <= m.cursor <= (if |words| > FIRST_PARAMETER then |words| else FIRST_PARAMETER)
    && m.chan.name == c.name && m.chan.members == c.members && m.chan.invites == c.invites
    && m.chan.topic == c.topic
    && NoDup(m.chan.operators) && (forall g | g in m.chan.operators :: g in c.members)
    && fd in m.chan.operators
    && (!m.chan.keyOn ==> m.chan.key == "")
    && (!m.chan.limitOn ==> m.chan.limit == 0)
  }

  /** Only the issuer can look like itself, so it cannot take its own rights. */
  lemma TargetIsAnother(s: State, fd: int, word: string)
    requires Inv(s) && fd in s.clients
    ensures var target := Find(s.clients, word);
      target.Some? && s.clients[target.value].nick != s.clients[fd].nick ==> s.clients[target.value].fd != fd
  {
    assert ClientOk(s, fd);
    var target := Find(s.clients, word);
    if target.Some? {
      assert ClientOk(s, target.value);
    }
  }

  lemma GrantKeepsSound(m: Machine, g: ClientRec, c: ChannelRec, fd: int, words: seq<string>)
    requires Sound(m, c, fd, words) && m.cursor < |words| && g.fd in c.members
    ensures Sound(Grant(m, g), c, fd, words)
  {
    AddNoDup(m.chan.operators, g.fd);
  }

  lemma RevokeKeepsSound(m: Machine, g: ClientRec, c: ChannelRec, fd: int, words: seq<string>)
    requires Sound(m, c, fd, words) && m.cursor < |words| && g.fd != fd
    ensures Sound(Revoke(m, g), c, fd, words)
  {
    DropNoDup(m.chan.operators, g.fd);
  }

  lemma FlagOKeepsSound(m: Machine, s: State, c: ChannelRec, fd: int, words: seq<string>)
    requires Inv(s) && fd in s.clients && Sound(m, c, fd, words)
    ensures Sound(FlagO(m, s.clients, fd, s.clients[fd].nick, words), c, fd, words)
  {
    if m.cursor < |words| && Find(s.clients, words[m.cursor]).Some? {
      TargetIsAnother(s, fd, words[m.cursor]);
      var g := s.clients[Find(s.clients, words[m.cursor]).value];
      if g.nick != s.clients[fd].nick && g.fd in m.chan.members {
        GrantKeepsSound(m, g, c, fd, words);
        RevokeKeepsSound(m, g, c, fd, words);
      }
    }
  }

  lemma FlagKKeepsSound(m: Machine, c: ChannelRec, fd: int, words: seq<string>)
    requires Sound(m, c, fd, words)
    ensures Sound(FlagK(m, words), c, fd, words)
  {
  }

  lemma FlagLKeepsSound(m: Machine, c: ChannelRec, fd: int, words: seq<string>)
    requires Sound(m, c, fd, words)
    ensures Sound(FlagL(m, words), c, fd, words)
  {
  }

  lemma FlagITKeepsSound(m: Machine, c: ChannelRec, fd: int, words: seq<string>)
    requires Sound(m, c, fd, words)
    ensures Sound(FlagI(m), c, fd, words) && Sound(FlagT(m), c, fd, words)
  {
  }

  lemma FlagKeepsSound(m: Machine, flag: char, s: State, c: ChannelRec, fd: int, words: seq<string>)
    requires Inv(s) && fd in s.clients && Sound(m, c, fd, words)
    ensures Sound(Flag(m, flag, s.clients, fd, s.clients[fd].nick, words), c, fd, words)
  {
    if flag == 'i' || flag == 't' {
      FlagITKeepsSound(m, c, fd, words);
    } else if flag == 'k' {
      FlagKKeepsSound(m, c, fd, words);
    } else if flag == 'l' {
      FlagLKeepsSound(m, c, fd, words);
    } else if flag == 'o' {
      FlagOKeepsSound(m, s, c, fd, words);
    }
  }

  lemma {:induction false} InterpretKeepsSound(m: Machine, flags: string, s: State, c: ChannelRec, fd: int,
                                               words: seq<string>)
    requires Inv(s) && fd in s.clients && Sound(m, c, fd, words)
    ensures Sound(Interpret(m, flags, s.clients, fd, s.clients[fd].nick, words), c, fd, words)
    decreases |flags|
  {
    if flags != "" && !m.stopped {
      FlagKeepsSound(m, flags[0], s, c, fd, words);
      InterpretKeepsSound(Flag(m, flags[0], s.clients, fd, s.clients[fd].nick, words), flags[1..], s, c, fd, words);
    }
  }

  // ---- operators, by the words of the command ------------------------------

  /** The sign in force at a place of the flag string. */
  function SignAt(flags: string, at: nat): char
    requires at <= |flags|
  {
    if at == 0 then '\0'
    else if flags[at - 1] == '+' || flags[at - 1] == '-' then flags[at - 1]
    else SignAt(flags, at - 1)
  }

  /** An operator flag stands under this sign. */
  ghost predicate HasOrder(flags: string, sign: char) {
    exists at: nat | at < |flags| :: flags[at] == 'o' && SignAt(flags, at) == sign
  }

  /** A parameter is the nickname of a client that stores g. */
  ghost predicate NamesOne(clients: map<int, ClientRec>, words: seq<string>, g: int) {
    exists i: nat | FIRST_PARAMETER <= i < |words| ::
      var target := Find(clients, words[i]); target.Some? && clients[target.value].fd == g
  }

  /** The words ask, by flag and nickname, for g to be made or unmade operator. */
  ghost predicate Orders(clients: map<int, ClientRec>, words: seq<string>, sign: char, g: int) {
    |words| > FIRST_PARAMETER && HasOrder(words[2], sign) && NamesOne(clients, words, g)
  }

  lemma NamedByParameter(clients: map<int, ClientRec>, words: seq<string>, i: nat)
    requires FIRST_PARAMETER <= i < |words| && Find(clients, words[i]).Some?
    ensures NamesOne(clients, words, clients[Find(clients, words[i]).value].fd)
  {
  }

  lemma SettingsKeepOperators(m: Machine, words: seq<string>)
    ensures forall n | n in {FlagI(m), FlagT(m), FlagK(m, words), FlagL(m, words)} ::
              n.chan.operators == m.chan.operators && n.cursor >= m.cursor && n.sign == m.sign
    ensures FlagI(m).cursor == FlagT(m).cursor == m.cursor && FlagI(m).values == FlagT(m).values == m.values
  {
  }

  lemma OtherFlagsKeepOperators(m: Machine, flag: char, clients: map<int, ClientRec>, fd: int, nick: string,
                                words: seq<string>)
    requires flag != 'o'
    ensures var n := Flag(m, flag, clients, fd, nick, words);
      && n.chan.operators == m.chan.operators && n.cursor >= m.cursor
      && n.sign == if flag == '+' || flag == '-' then flag else m.sign
  {
    SettingsKeepOperators(m, words);
  }

  lemma FlagOOrders(m: Machine, clients: map<int, ClientRec>, fd: int, nick: string, words: seq<string>, g: int)
    requires m.cursor >= FIRST_PARAMETER && NoDup(m.chan.operators)
    ensures var n := FlagO(m, clients, fd, nick, words);
      && n.cursor >= m.cursor && NoDup(n.chan.operators) && n.sign == m.sign
      && (g in n.chan.operators && g !in m.chan.operators ==> m.sign == '+' && NamesOne(clients, words, g))
      && (g !in n.chan.operators && g in m.chan.operators ==> m.sign == '-' && NamesOne(clients, words, g))
  {
    if m.cursor < |words| && Find(clients, words[m.cursor]).Some? {
      NamedByParameter(clients, words, m.cursor);
      var c := clients[Find(clients, words[m.cursor]).value];
      AddNoDup(m.chan.operators, c.fd);
      DropNoDup(m.chan.operators, c.fd);
    }
  }

  /** One flag changes who runs the channel only if it is an operator flag, and then
      for the client its parameter names. */
  lemma FlagOrders(m: Machine, flag: char, clients: map<int, ClientRec>, fd: int, nick: string, words: seq<string>,
                   g: int)
    requires m.cursor >= FIRST_PARAMETER && NoDup(m.chan.operators)
    ensures var n := Flag(m, flag, clients, fd, nick, words);
      && n.cursor >= FIRST_PARAMETER && NoDup(n.chan.operators)
      && n.sign == (if flag == '+' || flag == '-' then flag else m.sign)
      && (g in n.chan.operators && g !in m.chan.operators ==>
            flag == 'o' && m.sign == '+' && NamesOne(clients, words, g))
      && (g !in n.chan.operators && g in m.chan.operators ==>
            flag == 'o' && m.sign == '-' && NamesOne(clients, words, g))
  {
    if flag == 'o' {
      FlagOOrders(m, clients, fd, nick, words, g);
    } else {
      OtherFlagsKeepOperators(m, flag, clients, fd, nick, words);
    }
  }

  lemma {:induction false} InterpretOrders(m: Machine, flags: string, at: nat, clients: map<int, ClientRec>, fd: int,
                                           nick: string, words: seq<string>, g: int)
    requires at <= |flags| && m.sign == SignAt(flags, at)
    requires m.cursor >= FIRST_PARAMETER && NoDup(m.chan.operators)
    ensures var n := Interpret(m, flags[at..], clients, fd, nick, words);
      && (g in n.chan.operators && g !in m.chan.operators ==> HasOrder(flags, '+') && NamesOne(clients, words, g))
      && (g !in n.chan.operators && g in m.chan.operators ==> HasOrder(flags, '-') && NamesOne(clients, words, g))
    decreases |flags| - at
  {
    if at < |flags| && !m.stopped {
      var n := Flag(m, flags[at], clients, fd, nick, words);
      FlagOrders(m, flags[at], clients, fd, nick, words, g);
      assert flags[at..][0] == flags[at] && flags[at..][1..] == flags[at + 1..];
      InterpretOrders(n, flags, at + 1, clients, fd, nick, words, g);
    }
  }

  // ---- what the announcement tells -----------------------------------------

  /** The flags that counted, each with the sign under which it did. */
  function Marks(m: Machine, flags: string, clients: map<int, ClientRec>, fd: int, nick: string,
                 words: seq<string>): seq<(char, char)>
    decreases |flags|
  {
    if flags == "" || m.stopped then []
    else
      var n := Flag(m, flags[0], clients, fd, nick, words);
      (if n.message != m.message then [(m.sign, flags[0])] else [])
      + Marks(n, flags[1..], clients, fd, nick, words)
  }

  /** What a client reads off an announcement: letters, each under the last sign. */
  function Read(text: string, sign: char): seq<(char, char)> {
    if text == "" then []
    else if text[0] == '+' || text[0] == '-' then Read(text[1..], text[0])
    else [(sign, text[0])] + Read(text[1..], sign)
  }

  function Letters(marks: seq<(char, char)>): (letters: string)
    ensures |letters| == |marks|
  {
    if marks == [] then "" else [marks[0].1] + Letters(marks[1..])
  }

  predicate IsSign(c: char) {
    c == '+' || c == '-'
  }

  /** All of them counted under one sign, and there was one. */
  predicate OneSign(marks: seq<(char, char)>) {
    marks != [] && IsSign(marks[0].0) && forall mark | mark in marks :: mark.0 == marks[0].0
  }

  /** A mark is a letter that stands for a mode. */
  predicate IsMark(mark: (char, char)) {
    mark.1 == 'i' || mark.1 == 't' || mark.1 == 'k' || mark.1 == 'l' || mark.1 == 'o'
  }

  lemma FlagMarks(m: Machine, flag: char, clients: map<int, ClientRec>, fd: int, nick: string, words: seq<string>)
    ensures var n := Flag(m, flag, clients, fd, nick, words);
      n.message == m.message || (n.message == m.Mark(flag).message && IsMark((m.sign, flag)))
  {
  }

  /** The letters of the marks behind what is announced already, or behind the first sign. */
  function Announced(message: string, marks: seq<(char, char)>): string {
    if marks == [] then message else (if message == "" then [marks[0].0] else message) + Letters(marks)
  }

  lemma AnnouncedStep(message: string, sign: char, flag: char, rest: seq<(char, char)>)
    ensures Announced(message, [(sign, flag)] + rest)
         == Announced((if message == "" then [sign] else message) + [flag], rest)
  {
    var marks := [(sign, flag)] + rest;
    var before := if message == "" then [sign] else message;
    assert marks[1..] == rest;
    assert before + [flag] + Letters(rest) == before + ([flag] + Letters(rest));
  }

  lemma {:induction false} MessageIsMarks(m: Machine, flags: string, clients: map<int, ClientRec>, fd: int,
                                          nick: string, words: seq<string>)
    ensures var n, marks := Interpret(m, flags, clients, fd, nick, words), Marks(m, flags, clients, fd, nick, words);
      && (forall mark | mark in marks :: IsMark(mark))
      && n.message == Announced(m.message, marks)
    decreases |flags|
  {
    if flags != "" && !m.stopped {
      var n := Flag(m, flags[0], clients, fd, nick, words);
      FlagMarks(m, flags[0], clients, fd, nick, words);
      MessageIsMarks(n, flags[1..], clients, fd, nick, words);
      var rest := Marks(n, flags[1..], clients, fd, nick, words);
      if n.message == m.message {
        assert [] + rest == rest;
      } else {
        AnnouncedStep(m.message, m.sign, flags[0], rest);
      }
    }
  }

  lemma {:induction false} ReadLetters(marks: seq<(char, char)>, sign: char)
    requires forall mark | mark in marks :: IsMark(mark)
    ensures |Read(Letters(marks), sign)| == |marks|
    ensures forall i | 0 <= i < |marks| :: Read(Letters(marks), sign)[i] == (sign, marks[i].1)
  {
    if marks != [] {
      assert IsMark(marks[0]);
      ReadLetters(marks[1..], sign);
      assert Letters(marks)[1..] == Letters(marks[1..]);
    }
  }

  /** Reading the letters under the first sign gives the marks back exactly when there
      was a sign, and it was the same throughout. */
  lemma ReadsBackIff(marks: seq<(char, char)>)
    requires marks != [] && forall mark | mark in marks :: IsMark(mark)
    ensures Read([marks[0].0] + Letters(marks), '\0') == marks <==> OneSign(marks)
  {
    var text := [marks[0].0] + Letters(marks);
    assert text[1..] == Letters(marks);
    if IsSign(marks[0].0) {
      ReadLetters(marks, marks[0].0);
      assert Read(text, '\0') == Read(Letters(marks), marks[0].0);
      assert Read(text, '\0') == marks <==> forall i | 0 <= i < |marks| :: marks[i].0 == marks[0].0;
    } else {
      ReadLetters(marks, '\0');
      assert |Read(text, '\0')| == |marks| + 1;
    }
  }

  /** The letters end at the first space; the parameters follow. */
  function FlagPart(text: string): string {
    text[..Wire.IndexOf(text, ' ')]
  }

  lemma {:induction false} ValuesAfterSpace(message: string, values: seq<string>)
    ensures message <= WithValues(message, values)
    ensures |WithValues(message, values)| > |message| ==> WithValues(message, values)[|message|] == ' '
    decreases |values|
  {
    if values != [] {
      ValuesAfterSpace(if values[0] == "" then message else message + " " + values[0], values[1..]);
    }
  }

  lemma FlagPartOfAnnouncement(m: Machine, fd: int)
    requires ' ' !in m.message
    ensures FlagPart(Announcement(m, fd)) == m.message
  {
    ValuesAfterSpace(m.message, m.values);
    assert Announcement(m, fd)[..|m.message|] == m.message;
    Wire.IndexIs(Announcement(m, fd), ' ', |m.message|);
  }

  /** What the members learn: nothing when the interpreter stopped early. */
  function Heard(m: Machine, fd: int): seq<(char, char)> {
    if m.stopped then [] else Read(FlagPart(Announcement(m, fd)), '\0')
  }

  lemma {:induction false} LettersHaveNoSpace(marks: seq<(char, char)>)
    requires forall mark | mark in marks :: IsMark(mark)
    ensures ' ' !in Letters(marks)
  {
    if marks != [] {
      assert IsMark(marks[0]);
      LettersHaveNoSpace(marks[1..]);
    }
  }

  lemma {:induction false} SignsAreSigns(m: Machine, flags: string, clients: map<int, ClientRec>, fd: int,
                                         nick: string, words: seq<string>)
    requires m.sign != ' '
    ensures forall mark | mark in Marks(m, flags, clients, fd, nick, words) :: mark.0 != ' '
    decreases |flags|
  {
    if flags != "" && !m.stopped {
      OneFlagSign(m, flags[0], clients, fd, nick, words);
      SignsAreSigns(Flag(m, flags[0], clients, fd, nick, words), flags[1..], clients, fd, nick, words);
    }
  }

  lemma OneFlagSign(m: Machine, flag: char, clients: map<int, ClientRec>, fd: int, nick: string, words: seq<string>)
    ensures Flag(m, flag, clients, fd, nick, words).sign == if flag == '+' || flag == '-' then flag else m.sign
  {
  }

  /** The members learn what was done, flag by flag and with its sign, exactly when
      nothing was done, or the interpreter came to its end and every flag that counted
      did so under one and the same sign. */
  lemma HeardIff(c: ChannelRec, flags: string, clients: map<int, ClientRec>, fd: int, nick: string,
                 words: seq<string>)
    ensures var m := Interpret(Start(c), flags, clients, fd, nick, words);
      var marks := Marks(Start(c), flags, clients, fd, nick, words);
      Heard(m, fd) == marks <==> marks == [] || (!m.stopped && OneSign(marks))
  {
    var m := Interpret(Start(c), flags, clients, fd, nick, words);
    var marks := Marks(Start(c), flags, clients, fd, nick, words);
    MessageIsMarks(Start(c), flags, clients, fd, nick, words);
    SignsAreSigns(Start(c), flags, clients, fd, nick, words);
    LettersHaveNoSpace(marks);
    FlagPartOfAnnouncement(m, fd);
    if marks != [] {
      assert marks[0] in marks;
      ReadsBackIff(marks);
    }
  }

  // ---- what the marks mean -------------------------------------------------

  /** Whether a mode is on. */
  predicate IsOn(c: ChannelRec, flag: char) {
    if flag == 'i' then c.inviteOn else if flag == 't' then c.topicOn
    else if flag == 'k' then c.keyOn else flag == 'l' && c.limitOn
  }

  /** Carrying out the marks: the last one of a letter decides. */
  function Replay(on: bool, marks: seq<(char, char)>, flag: char): bool
    decreases |marks|
  {
    if marks == [] then on
    else Replay(if marks[0].1 == flag then Switched(on, marks[0].0) else on, marks[1..], flag)
  }

  lemma MarkIsNew(m: Machine, flag: char)
    ensures m.Mark(flag).message != m.message
  {
    assert |m.Mark(flag).message| > |m.message|;
  }

  /** The flag counts exactly when it is marked, and then it alone is switched. */
  ghost predicate Switches(m: Machine, n: Machine, letter: char) {
    forall flag | flag in {'i', 't', 'k', 'l'} ::
      IsOn(n.chan, flag)
      == if n.message != m.message && letter == flag then Switched(IsOn(m.chan, flag), m.sign) else IsOn(m.chan, flag)
  }

  lemma FlagISwitches(m: Machine)
    ensures Switches(m, FlagI(m), 'i')
  {
    MarkIsNew(m, 'i');
  }

  lemma FlagTSwitches(m: Machine)
    ensures Switches(m, FlagT(m), 't')
  {
    MarkIsNew(m, 't');
  }

  lemma FlagKSwitches(m: Machine, words: seq<string>)
    ensures Switches(m, FlagK(m, words), 'k')
  {
    MarkIsNew(m, 'k');
  }

  lemma FlagLSwitches(m: Machine, words: seq<string>)
    ensures Switches(m, FlagL(m, words), 'l')
  {
    MarkIsNew(m, 'l');
  }

  lemma FlagOSwitches(m: Machine, clients: map<int, ClientRec>, fd: int, nick: string, words: seq<string>)
    ensures Switches(m, FlagO(m, clients, fd, nick, words), 'o')
  {
  }

  lemma FlagSwitches(m: Machine, letter: char, clients: map<int, ClientRec>, fd: int, nick: string,
                     words: seq<string>)
    ensures Switches(m, Flag(m, letter, clients, fd, nick, words), letter)
  {
    FlagISwitches(m);
    FlagTSwitches(m);
    FlagKSwitches(m, words);
    FlagLSwitches(m, words);
    FlagOSwitches(m, clients, fd, nick, words);
  }

  /** The marks are what was done: carried out one after the other on the modes as they
      were, they give the modes as they are. */
  lemma {:induction false} MarksAreDone(m: Machine, flags: string, clients: map<int, ClientRec>, fd: int, nick: string,
                                        words: seq<string>, flag: char)
    requires flag in {'i', 't', 'k', 'l'}
    ensures IsOn(Interpret(m, flags, clients, fd, nick, words).chan, flag)
         == Replay(IsOn(m.chan, flag), Marks(m, flags, clients, fd, nick, words), flag)
    decreases |flags|
  {
    if flags != "" && !m.stopped {
      var n := Flag(m, flags[0], clients, fd, nick, words);
      var rest := Marks(n, flags[1..], clients, fd, nick, words);
      FlagSwitches(m, flags[0], clients, fd, nick, words);
      MarksAreDone(n, flags[1..], clients, fd, nick, words, flag);
      assert ([(m.sign, flags[0])] + rest)[1..] == rest && [] + rest == rest;
    }
  }

  /** A flag string that begins with a sign and holds no other sign is announced as it
      was carried out, unless an operator flag ends the command. */
  lemma {:induction false} OneSignThroughout(m: Machine, flags: string, clients: map<int, ClientRec>, fd: int,
                                             nick: string, words: seq<string>)
    requires forall c | c in flags && IsSign(c) :: c == m.sign
    ensures forall mark | mark in Marks(m, flags, clients, fd, nick, words) :: mark.0 == m.sign
    decreases |flags|
  {
    if flags != "" && !m.stopped {
      OneFlagSign(m, flags[0], clients, fd, nick, words);
      assert flags[0] in flags && (IsSign(flags[0]) ==> flags[0] == m.sign);
      assert forall c | c in flags[1..] :: c in flags;
      OneSignThroughout(Flag(m, flags[0], clients, fd, nick, words), flags[1..], clients, fd, nick, words);
    }
  }

  lemma PlainFlagsAreHeard(c: ChannelRec, flags: string, clients: map<int, ClientRec>, fd: int, nick: string,
                           words: seq<string>)
    requires flags != "" && IsSign(flags[0]) && forall f | f in flags && IsSign(f) :: f == flags[0]
    requires !Interpret(Start(c), flags, clients, fd, nick, words).stopped
    ensures Heard(Interpret(Start(c), flags, clients, fd, nick, words), fd)
         == Marks(Start(c), flags, clients, fd, nick, words)
  {
    var n := Start(c).(sign := flags[0]);
    assert Flag(Start(c), flags[0], clients, fd, nick, words) == n;
    OneSignThroughout(n, flags[1..], clients, fd, nick, words);
    HeardIff(c, flags, clients, fd, nick, words);
  }

  /** A flag string with two signs: the announcement says that +i was set, and it was
      taken away. */
  lemma MixedSigns(c: ChannelRec, clients: map<int, ClientRec>, fd: int, nick: string, words: seq<string>)
    requires !c.topicOn && c.inviteOn
    ensures var m := Interpret(Start(c), "+t-i", clients, fd, nick, words);
      m.message == "+ti" && m.chan == c.(topicOn := true, inviteOn := false) && !m.stopped
  {
    var a := Start(c).(sign := '+');
    var b := FlagT(a);
    var d := b.(sign := '-');
    assert "+t-i"[1..] == "t-i" && "t-i"[1..] == "-i" && "-i"[1..] == "i" && "i"[1..] == "";
    assert Interpret(FlagI(d), "", clients, fd, nick, words) == FlagI(d);
    assert Interpret(d, "i", clients, fd, nick, words) == FlagI(d);
    assert Interpret(b, "-i", clients, fd, nick, words) == FlagI(d);
    assert Interpret(a, "t-i", clients, fd, nick, words) == FlagI(d);
    assert b.message == "+t" && FlagI(d).message == "+t" + "i";
  }

  /** A flag that ends the command after another one counted: the topic is restricted,
      and nobody is told. */
  lemma StoppedEarly(c: ChannelRec, clients: map<int, ClientRec>, fd: int, nick: string, words: seq<string>)
    requires !c.topicOn && |words| > FIRST_PARAMETER && Find(clients, words[FIRST_PARAMETER]).None?
    ensures var m := Interpret(Start(c), "+to", clients, fd, nick, words);
      m.stopped && m.chan == c.(topicOn := true)
  {
    var a := Start(c).(sign := '+');
    var b := FlagT(a);
    assert "+to"[1..] == "to" && "to"[1..] == "o" && "o"[1..] == "";
    assert Interpret(a, "to", clients, fd, nick, words) == Interpret(b, "o", clients, fd, nick, words);
    assert Flag(b, 'o', clients, fd, nick, words) == FlagO(b, clients, fd, nick, words);
  }

  const UNSIGNED := ['\0', 'i', 't']

  /** A flag string without a sign: two letters are announced, and nothing changed. */
  lemma Unsigned(c: ChannelRec, clients: map<int, ClientRec>, fd: int, nick: string, words: seq<string>)
    ensures var m := Interpret(Start(c), "it", clients, fd, nick, words);
      m.message == UNSIGNED && m.chan == c && !m.stopped && m.values == [] && m.plus == "" && m.errors == []
  {
    var a := FlagI(Start(c));
    var b := FlagT(a);
    assert "it"[1..] == "t" && "t"[1..] == "";
    assert Interpret(b, "", clients, fd, nick, words) == b;
    assert Interpret(a, "t", clients, fd, nick, words) == b;
    assert a.message == ['\0'] + ['i'] && b.message == ['\0', 'i'] + ['t'];
  }

  /** What MODE does to the one channel it names. */
  function Result(s: State, fd: int, cmd: seq<string>): Machine
    requires Permitted(s, fd, cmd)
  {
    Interpret(Start(s.channels[cmd[1]]), cmd[2], s.clients, fd, Who(s, fd).nick, cmd)
  }

  lemma ResultIsSound(s: State, fd: int, cmd: seq<string>)
    requires Inv(s) && Permitted(s, fd, cmd)
    ensures Sound(Result(s, fd, cmd), s.channels[cmd[1]], fd, cmd)
  {
    var c := s.channels[cmd[1]];
    assert ChannelOk(s, cmd[1]);
    InterpretKeepsSound(Start(c), cmd[2], s, c, fd, cmd);
  }

  /** Whoever is made operator by MODE was asked for by a flag o under a plus, whoever
      is unmade by a flag o under a minus, each with a parameter that names it. */
  lemma ResultOrders(s: State, fd: int, cmd: seq<string>, g: int)
    requires Inv(s) && Permitted(s, fd, cmd)
    ensures var before, after := s.channels[cmd[1]].operators, Result(s, fd, cmd).chan.operators;
      && (g in after && g !in before ==> Orders(s.clients, cmd, '+', g))
      && (g !in after && g in before ==> Orders(s.clients, cmd, '-', g))
  {
    assert ChannelOk(s, cmd[1]);
    assert cmd[2][0..] == cmd[2];
    InterpretOrders(Start(s.channels[cmd[1]]), cmd[2], 0, s.clients, fd, Who(s, fd).nick, cmd, g);
  }

  lemma SayEachIsOutput(s: State, fd: int, lines: seq<Reply>)
    requires fd in s.clients
    ensures OnlyOutput(s, SayEach(s, fd, lines))
  {
  }

  lemma FinishEffect(s: State, fd: int, name: string, m: Machine)
    requires Inv(s) && fd in s.clients && name in s.channels
    requires m.chan.name == name && m.chan.members == s.channels[name].members && NoDup(m.chan.invites)
    requires NoDup(m.chan.operators) && forall g | g in m.chan.operators :: g in m.chan.members
    requires (!m.chan.keyOn ==> m.chan.key == "") && (!m.chan.limitOn ==> m.chan.limit == 0)
    ensures var t := Finish(s, fd, name, m);
      && Inv(t) && t.password == s.password && SamePass(s, t) && t.clients.Keys == s.clients.Keys
      && t.channels == s.channels[name := m.chan]
  {
    var e := SayEach(s, fd, m.errors);
    SayEachIsOutput(s, fd, m.errors);
    OutputKeepsInv(s, e);
    ChannelKeepsInv(e, name, m.chan);
    var t := Apply(s, fd, name, m);
    TellKeepsInv(t, m.chan.members, Relay(Who(t, fd).Prefix(), MODE, [name, Announcement(m, fd), m.plus]));
  }

  /** The errors go to the issuer; what was changed is announced once to each member
      and to nobody else, unless the interpreter stopped early. */
  lemma ModeTells(s: State, fd: int, cmd: seq<string>)
    requires Inv(s) && fd in s.clients && Permitted(s, fd, cmd)
    ensures var t, m := Mode(s, fd, cmd), Result(s, fd, cmd);
      && t.clients.Keys == s.clients.Keys
      && forall g | g in s.clients :: t.clients[g] == s.clients[g].(out := s.clients[g].out
            + (if g == fd then m.errors else [])
            + if !m.stopped && Announcement(m, fd) != "" && IsMember(s, g, cmd[1])
              then [Relay(s.clients[fd].Prefix(), MODE, [cmd[1], Announcement(m, fd), m.plus])] else [])
  {
    ResultIsSound(s, fd, cmd);
    assert ChannelOk(s, cmd[1]);
  }

  /** The line each member gets, if any. */
  function Announcements(s: State, fd: int, cmd: seq<string>): seq<Reply>
    requires Permitted(s, fd, cmd)
  {
    var m := Result(s, fd, cmd);
    if m.stopped || Announcement(m, fd) == "" then []
    else [Relay(Who(s, fd).Prefix(), MODE, [cmd[1], Announcement(m, fd), m.plus])]
  }

  /** What is read off it. */
  function Learned(lines: seq<Reply>): seq<(char, char)> {
    if lines == [] || !lines[0].Relay? || |lines[0].params| < 2 then [] else Read(FlagPart(lines[0].params[1]), '\0')
  }

  function Done(s: State, fd: int, cmd: seq<string>): seq<(char, char)>
    requires Permitted(s, fd, cmd)
  {
    Marks(Start(s.channels[cmd[1]]), cmd[2], s.clients, fd, Who(s, fd).nick, cmd)
  }

  /** MODE as a whole: only an operator of the channel gets anything changed, only
      in that channel, and it is still operator afterwards, whatever flags and
      parameters it sent and wherever the interpreter stopped. */
  lemma ModeByOperator(s: State, fd: int, cmd: seq<string>)
    requires Inv(s) && fd in s.clients
    ensures var t := Mode(s, fd, cmd);
      && Inv(t) && t.password == s.password && SamePass(s, t) && t.clients.Keys == s.clients.Keys
      && t.channels == (if Permitted(s, fd, cmd) then s.channels[cmd[1] := Result(s, fd, cmd).chan] else s.channels)
      && (Permitted(s, fd, cmd) ==>
            && IsOperator(t, fd, cmd[1])
            && Sound(Result(s, fd, cmd), s.channels[cmd[1]], fd, cmd))
  {
    if Permitted(s, fd, cmd) {
      ResultIsSound(s, fd, cmd);
      assert ChannelOk(s, cmd[1]);
      FinishEffect(s, fd, cmd[1], Result(s, fd, cmd));
    } else if |cmd| < 2 {
      SayKeepsInv(s, fd, Numeric(461, []));
    } else if s.clients[fd].nick == cmd[1] {
    } else if cmd[1] !in s.channels {
      SayKeepsInv(s, fd, Numeric(403, [s.clients[fd].nick, cmd[1]]));
    } else if |cmd| == 2 {
      SayKeepsInv(s, fd, Describe(s, fd, cmd[1]));
    } else if |cmd[2]| != 1 {
      SayKeepsInv(s, fd, Numeric(482, [s.clients[fd].nick, cmd[1]]));
    }
  }

  /** The line a member gets tells what was done, flag by flag and each with its sign,
      exactly when nothing was done, or the command came to its end and all that was
      done was done under one sign, a plus or a minus. What was done accounts for the
      modes of the channel, so then the member knows them from what they were. */
  lemma AnnouncementIff(s: State, fd: int, cmd: seq<string>)
    requires Inv(s) && fd in s.clients && Permitted(s, fd, cmd)
    ensures var t, done, lines := Mode(s, fd, cmd), Done(s, fd, cmd), Announcements(s, fd, cmd);
      && t.clients.Keys == s.clients.Keys && cmd[1] in t.channels
      && (forall g | g in s.clients && g != fd && IsMember(s, g, cmd[1]) ::
            t.clients[g].out == s.clients[g].out + lines)
      && (Learned(lines) == done <==> done == [] || (!Result(s, fd, cmd).stopped && OneSign(done)))
      && (forall flag | flag in {'i', 't', 'k', 'l'} ::
            IsOn(t.channels[cmd[1]], flag) == Replay(IsOn(s.channels[cmd[1]], flag), done, flag))
  {
    var c, nick, m := s.channels[cmd[1]], s.clients[fd].nick, Result(s, fd, cmd);
    ModeTells(s, fd, cmd);
    ModeByOperator(s, fd, cmd);
    HeardIff(c, cmd[2], s.clients, fd, nick, cmd);
    assert Read("", '\0') == [];
    assert Announcement(m, fd) == "" ==> FlagPart(Announcement(m, fd)) == "";
    forall flag | flag in {'i', 't', 'k', 'l'}
      ensures IsOn(m.chan, flag) == Replay(IsOn(c, flag), Done(s, fd, cmd), flag)
    {
      MarksAreDone(Start(c), cmd[2], s.clients, fd, nick, cmd, flag);
    }
  }
}
