/** MODE once more, in two passes instead of one: first the words are read into a list
    of orders, without any channel being changed; then the orders are carried out. */
module ModeReference {
  import opened Seqs
  import opened IrcState
  import opened ModeSpec

  datatype Order =
    | Switch(flag: char, sign: char)       // i or t, under plus, minus or no sign at all
    | Lock(key: string) | Unlock
    | Cap(number: string) | Uncap
    | Give(fd: int, nick: string) | Take(fd: int, nick: string)
    | Unknown(flag: char)
    | Refused(line: Option<Reply>)         // the command ends here
  {
    function Sign(): char {
      match this
      case Switch(_, sign) => sign
      case Lock(_) => '+'
      case Cap(_) => '+'
      case Give(_, _) => '+'
      case _ => '-'
    }

    function Letter(): char {
      match this
      case Switch(flag, _) => flag
      case Lock(_) => 'k'
      case Unlock => 'k'
      case Cap(_) => 'l'
      case Uncap => 'l'
      case Unknown(flag) => flag
      case _ => 'o'
    }
  }

  /** What reading needs to know besides the words. */
  datatype Scene = Scene(clients: map<int, ClientRec>, members: seq<int>, name: string, me: string)

  /** Where reading stands; `limited` says whether the channel would have a limit here. */
  datatype Place = Place(sign: char, cursor: nat, limited: bool)

  // ---- reading -------------------------------------------------------------

  /** The order of an operator flag. */
  function ReadOperator(p: Place, words: seq<string>, scene: Scene): (seq<Order>, Place)
    requires p.cursor < |words|
  {
    var word := words[p.cursor];
    var target := Find(scene.clients, word);
    if target.None? then ([Refused(Some(Numeric(401, [scene.me, word])))], p)
    else
      var c := scene.clients[target.value];
      if c.nick == scene.me then ([Refused(None)], p)
      else if c.fd !in scene.members then ([Refused(Some(Numeric(441, [scene.me, word, scene.name])))], p)
      else if p.sign == '+' then ([Give(c.fd, c.nick)], p.(cursor := p.cursor + 1))
      else if p.sign == '-' then ([Take(c.fd, c.nick)], p.(cursor := p.cursor + 1))
      else ([], p)
  }

  function ReadLimitFlag(p: Place, words: seq<string>): (seq<Order>, Place) {
    var given := p.cursor < |words|;
    if p.sign == '-' && !p.limited then ([], p)
    else if given && !AllDigits(words[p.cursor]) then ([], p.(cursor := p.cursor + 1))
    else if p.sign == '+' && given then ([Cap(words[p.cursor])], p.(cursor := p.cursor + 1, limited := true))
    else if p.sign == '-' then ([Uncap], p.(limited := false))
    else ([], p)
  }

  /** The order of one flag, if it is one, and where reading goes on. */
  function ReadFlag(p: Place, flag: char, words: seq<string>, scene: Scene): (seq<Order>, Place) {
    if flag == '+' || flag == '-' then ([], p.(sign := flag))
    else if flag == 'i' || flag == 't' then ([Switch(flag, p.sign)], p)
    else if flag == 'k' then
      if p.sign == '+' && p.cursor < |words| then ([Lock(words[p.cursor])], p.(cursor := p.cursor + 1))
      else if p.sign == '-' then ([Unlock], p)
      else ([], p)
    else if flag == 'l' then ReadLimitFlag(p, words)
    else if flag == 'o' then if p.cursor < |words| then ReadOperator(p, words, scene) else ([], p)
    else ([Unknown(flag)], p)
  }

  function Orders(p: Place, flags: string, words: seq<string>, scene: Scene): seq<Order>
    decreases |flags|
  {
    if flags == "" then []
    else
      var (orders, q) := ReadFlag(p, flags[0], words, scene);
      orders + if orders != [] && orders[0].Refused? then [] else Orders(q, flags[1..], words, scene)
  }

  // ---- carrying out --------------------------------------------------------

  function Carry(c: ChannelRec, order: Order): ChannelRec {
    match order
    case Switch(flag, sign) =>
      if sign != '+' && sign != '-' then c
      else if flag == 'i' then c.(inviteOn := sign == '+')
      else c.(topicOn := sign == '+')
    case Lock(key) => c.(key := key, keyOn := true)
    case Unlock => c.(key := "", keyOn := false)
    case Cap(number) => c.(limit := if AllDigits(number) then Decimal(number) else 0, limitOn := true)
    case Uncap => c.(limit := 0, limitOn := false)
    case Give(fd, _) => c.(operators := Add(c.operators, fd))
    case Take(fd, _) => c.(operators := Drop(c.operators, fd))
    case _ => c
  }

  function CarryAll(c: ChannelRec, orders: seq<Order>): ChannelRec
    decreases |orders|
  {
    if orders == [] then c else CarryAll(Carry(c, orders[0]), orders[1..])
  }

  /** The order is announced: a switch that stands as asked already is not. */
  predicate Counts(c: ChannelRec, order: Order) {
    match order
    case Switch(flag, sign) =>
      (sign != '+' && sign != '-') || (if flag == 'i' then c.inviteOn else c.topicOn) != (sign == '+')
    case Unlock => c.keyOn
    case Uncap => c.limitOn
    case Unknown(_) => false
    case Refused(_) => false
    case _ => true
  }

  function MarkOf(c: ChannelRec, order: Order): seq<(char, char)> {
    if Counts(c, order) then [(order.Sign(), order.Letter())] else []
  }

  /** The orders that count, as sign and letter. */
  function Counted(c: ChannelRec, orders: seq<Order>): seq<(char, char)>
    decreases |orders|
  {
    if orders == [] then [] else MarkOf(c, orders[0]) + Counted(Carry(c, orders[0]), orders[1..])
  }

  function ParameterOf(order: Order): seq<string> {
    match order
    case Lock(key) => [key]
    case Cap(number) => [number]
    case _ => []
  }

  /** The parameters that are announced. */
  function Used(orders: seq<Order>): seq<string> {
    if orders == [] then [] else ParameterOf(orders[0]) + Used(orders[1..])
  }

  function ComplaintOf(order: Order, me: string): seq<Reply> {
    match order
    case Unknown(flag) => [Numeric(472, [me, [flag]])]
    case Refused(line) => if line.Some? then [line.value] else []
    case _ => []
  }

  /** The error lines for the issuer. */
  function Complaints(orders: seq<Order>, me: string): seq<Reply> {
    if orders == [] then [] else ComplaintOf(orders[0], me) + Complaints(orders[1..], me)
  }

  function NamedBy(order: Order, nick: string): string {
    match order
    case Give(_, n) => n
    case Take(_, n) => n
    case _ => nick
  }

  /** The nickname that is announced: the last one that was made or unmade operator. */
  function LastNamed(orders: seq<Order>, nick: string): string
    decreases |orders|
  {
    if orders == [] then nick else LastNamed(orders[1..], NamedBy(orders[0], nick))
  }

  /** Something was refused, and the command ended there. */
  predicate Ends(orders: seq<Order>) {
    orders != [] && (orders[0].Refused? || Ends(orders[1..]))
  }

  // ---- the two agree -------------------------------------------------------

  /** n is m after these orders. */
  ghost predicate After(m: Machine, orders: seq<Order>, me: string, n: Machine) {
    && n.chan == CarryAll(m.chan, orders)
    && n.values == m.values + Used(orders)
    && n.errors == m.errors + Complaints(orders, me)
    && n.plus == LastNamed(orders, m.plus)
    && n.stopped == (m.stopped || Ends(orders))
  }

  /** n is m after this one. */
  ghost predicate AfterOne(m: Machine, order: Order, me: string, n: Machine) {
    && n.chan == Carry(m.chan, order)
    && n.values == m.values + ParameterOf(order)
    && n.errors == m.errors + ComplaintOf(order, me)
    && n.plus == NamedBy(order, m.plus)
    && n.stopped == (m.stopped || order.Refused?)
  }

  lemma AfterNone(m: Machine, me: string)
    ensures After(m, [], me, m)
  {
    assert m.values + [] == m.values && m.errors + [] == m.errors;
  }

  lemma AfterMore(m: Machine, order: Order, rest: seq<Order>, me: string, n: Machine, o: Machine)
    requires AfterOne(m, order, me, n) && After(n, rest, me, o)
    ensures After(m, [order] + rest, me, o)
    ensures Counted(m.chan, [order] + rest) == MarkOf(m.chan, order) + Counted(n.chan, rest)
  {
    assert ([order] + rest)[1..] == rest;
    Regrouped(m.values, ParameterOf(order), Used(rest));
    Regrouped(m.errors, ComplaintOf(order, me), Complaints(rest, me));
  }

  /** The place in the words that the machine has reached. */
  function PlaceOf(m: Machine): Place {
    Place(m.sign, m.cursor, m.chan.limitOn)
  }

  /** One flag does what its order says, and the place moves on alike. */
  ghost predicate Follows(m: Machine, flag: char, orders: seq<Order>, q: Place, me: string, n: Machine) {
    && q == PlaceOf(n)
    && (orders == [] ==> After(m, [], me, n) && n.message == m.message)
    && (orders != [] ==>
          |orders| == 1 && AfterOne(m, orders[0], me, n)
          && MarkOf(m.chan, orders[0]) == if n.message != m.message then [(m.sign, flag)] else [])
  }

  lemma SwitchFollows(m: Machine, flag: char, me: string)
    requires flag == 'i' || flag == 't'
    ensures Follows(m, flag, [Switch(flag, m.sign)], PlaceOf(m), me, if flag == 'i' then FlagI(m) else FlagT(m))
  {
    MarkIsNew(m, flag);
    assert m.values + [] == m.values && m.errors + [] == m.errors;
  }

  lemma KeyFollows(m: Machine, words: seq<string>, scene: Scene)
    requires !m.chan.keyOn ==> m.chan.key == ""
    ensures var (orders, q) := ReadFlag(PlaceOf(m), 'k', words, scene);
      Follows(m, 'k', orders, q, scene.me, FlagK(m, words))
  {
    MarkIsNew(m, 'k');
    AfterNone(m, scene.me);
    assert m.values + [] == m.values && m.errors + [] == m.errors;
  }

  lemma LimitFollows(m: Machine, words: seq<string>, me: string)
    requires !m.chan.limitOn ==> m.chan.limit == 0
    ensures var (orders, q) := ReadLimitFlag(PlaceOf(m), words);
      Follows(m, 'l', orders, q, me, FlagL(m, words))
  {
    MarkIsNew(m, 'l');
    AfterNone(m, me);
    assert m.values + [] == m.values && m.errors + [] == m.errors;
  }

  /** The scene is the one the machine plays in, with an issuer who runs the channel. */
  ghost predicate Plays(m: Machine, scene: Scene, fd: int) {
    m.chan.members == scene.members && m.chan.name == scene.name && fd in m.chan.operators
  }

  lemma GiveFollows(m: Machine, c: ClientRec, me: string)
    requires m.sign == '+' || m.sign == '-'
    ensures var n := if m.sign == '+' then Grant(m, c) else Revoke(m, c);
      Follows(m, 'o', [if m.sign == '+' then Give(c.fd, c.nick) else Take(c.fd, c.nick)], PlaceOf(n), me, n)
  {
    MarkIsNew(m.(cursor := m.cursor + 1), 'o');
    assert m.values + [] == m.values && m.errors + [] == m.errors;
  }

  lemma StopFollows(m: Machine, line: Option<Reply>, me: string)
    requires !m.stopped
    ensures var n := m.Stop(if line.Some? then [line.value] else []);
      Follows(m, 'o', [Refused(line)], PlaceOf(m), me, n)
  {
    assert m.values + [] == m.values;
  }

  lemma OperatorFollows(m: Machine, words: seq<string>, scene: Scene, fd: int)
    requires Plays(m, scene, fd) && m.cursor < |words| && !m.stopped
    ensures var (orders, q) := ReadOperator(PlaceOf(m), words, scene);
      Follows(m, 'o', orders, q, scene.me, FlagO(m, scene.clients, fd, scene.me, words))
  {
    var orders := ReadOperator(PlaceOf(m), words, scene).0;
    if orders == [] {
      AfterNone(m, scene.me);
    } else if orders[0].Refused? {
      StopFollows(m, orders[0].line, scene.me);
    } else {
      GiveFollows(m, scene.clients[Find(scene.clients, words[m.cursor]).value], scene.me);
    }
  }

  lemma FlagFollows(m: Machine, flag: char, words: seq<string>, scene: Scene, fd: int)
    requires Plays(m, scene, fd) && !m.stopped
    requires (!m.chan.keyOn ==> m.chan.key == "") && (!m.chan.limitOn ==> m.chan.limit == 0)
    ensures var (orders, q) := ReadFlag(PlaceOf(m), flag, words, scene);
      Follows(m, flag, orders, q, scene.me, Flag(m, flag, scene.clients, fd, scene.me, words))
  {
    AfterNone(m, scene.me);
    assert m.values + [] == m.values;
    if flag == 'i' || flag == 't' {
      SwitchFollows(m, flag, scene.me);
    } else if flag == 'k' {
      KeyFollows(m, words, scene);
    } else if flag == 'l' {
      LimitFollows(m, words, scene.me);
    } else if flag == 'o' && m.cursor < |words| {
      OperatorFollows(m, words, scene, fd);
    }
  }

  function SceneOf(s: State, fd: int, c: ChannelRec): Scene {
    Scene(s.clients, c.members, c.name, Who(s, fd).nick)
  }

  /** Reading goes on behind the first flag, unless its order was refused. */
  lemma OrdersFirst(p: Place, flags: string, words: seq<string>, scene: Scene)
    requires flags != ""
    ensures var (orders, q) := ReadFlag(p, flags[0], words, scene);
      var rest := Orders(q, flags[1..], words, scene);
      && |orders| <= 1
      && Orders(p, flags, words, scene)
         == if orders == [] then rest else if orders[0].Refused? then orders else [orders[0]] + rest
  {
    var (orders, q) := ReadFlag(p, flags[0], words, scene);
    var rest := Orders(q, flags[1..], words, scene);
    assert orders + [] == orders;
    if orders == [] {
      assert orders + rest == rest;
    } else {
      assert orders == [orders[0]];
    }
  }

  /** What Interpret and Marks are, seen from the first flag. */
  lemma InterpretFirst(m: Machine, flags: string, clients: map<int, ClientRec>, fd: int, nick: string,
                       words: seq<string>)
    requires flags != "" && !m.stopped
    ensures var n := Flag(m, flags[0], clients, fd, nick, words);
      var mark := if n.message != m.message then [(m.sign, flags[0])] else [];
      && Interpret(m, flags, clients, fd, nick, words) == Interpret(n, flags[1..], clients, fd, nick, words)
      && Marks(m, flags, clients, fd, nick, words) == mark + Marks(n, flags[1..], clients, fd, nick, words)
      && (n.stopped ==> Interpret(n, flags[1..], clients, fd, nick, words) == n
                        && Marks(n, flags[1..], clients, fd, nick, words) == [])
  {
  }

  /** n is m after the orders, and what counted on the way are the orders that count. */
  ghost predicate Agrees(m: Machine, orders: seq<Order>, me: string, n: Machine, marks: seq<(char, char)>) {
    After(m, orders, me, n) && marks == Counted(m.chan, orders)
  }

  lemma AgreesMore(m: Machine, flag: char, orders: seq<Order>, q: Place, rest: seq<Order>, me: string, n: Machine,
                   o: Machine, marks: seq<(char, char)>)
    requires Follows(m, flag, orders, q, me, n) && Agrees(n, rest, me, o, marks)
    ensures var mark := if n.message != m.message then [(m.sign, flag)] else [];
      Agrees(m, if orders == [] then rest else [orders[0]] + rest, me, o, mark + marks)
  {
    if orders == [] {
      assert m.values + [] == m.values && m.errors + [] == m.errors && [] + marks == marks;
    } else {
      AfterMore(m, orders[0], rest, me, n, o);
    }
  }

  /** The machine after the flags is the machine after the orders read from them, and
      the flags that counted are the orders that count. */
  lemma {:induction false} InterpretFollows(m: Machine, flags: string, s: State, fd: int, c: ChannelRec,
                                            words: seq<string>)
    requires Inv(s) && fd in s.clients && Sound(m, c, fd, words) && !m.stopped
    ensures var scene := SceneOf(s, fd, c);
      Agrees(m, Orders(PlaceOf(m), flags, words, scene), scene.me,
             Interpret(m, flags, s.clients, fd, scene.me, words), Marks(m, flags, s.clients, fd, scene.me, words))
    decreases |flags|
  {
    var scene := SceneOf(s, fd, c);
    AfterNone(m, scene.me);
    if flags != "" {
      var n, rest := Flag(m, flags[0], s.clients, fd, scene.me, words), flags[1..];
      var (orders, q) := ReadFlag(PlaceOf(m), flags[0], words, scene);
      FlagFollows(m, flags[0], words, scene, fd);
      FlagKeepsSound(m, flags[0], s, c, fd, words);
      OrdersFirst(PlaceOf(m), flags, words, scene);
      InterpretFirst(m, flags, s.clients, fd, scene.me, words);
      if n.stopped {
        AfterNone(n, scene.me);
        AgreesMore(m, flags[0], orders, q, [], scene.me, n, n, []);
        assert [orders[0]] + [] == orders;
      } else {
        InterpretFollows(n, rest, s, fd, c, words);
        AgreesMore(m, flags[0], orders, q, Orders(q, rest, words, scene), scene.me, n,
                   Interpret(n, rest, s.clients, fd, scene.me, words), Marks(n, rest, s.clients, fd, scene.me, words));
      }
    }
  }

  // ---- the whole command ---------------------------------------------------

  /** Each parameter that is not empty, behind a space. */
  function Spaced(values: seq<string>): string {
    if values == [] then "" else (if values[0] == "" then "" else " " + values[0]) + Spaced(values[1..])
  }

  lemma {:induction false} WithValuesIs(message: string, values: seq<string>)
    ensures WithValues(message, values) == message + Spaced(values)
    decreases |values|
  {
    if values == [] {
      assert message + "" == message;
    } else {
      var head := if values[0] == "" then "" else " " + values[0];
      WithValuesIs(message + head, values[1..]);
      assert message + "" == message && message + (" " + values[0]) == message + " " + values[0];
      Regrouped(message, head, Spaced(values[1..]));
    }
  }

  /** A parameter is used only by an order that counts. */
  lemma {:induction false} NothingUsed(c: ChannelRec, orders: seq<Order>)
    ensures Counted(c, orders) == [] ==> Used(orders) == []
    decreases |orders|
  {
    if orders != [] {
      NothingUsed(Carry(c, orders[0]), orders[1..]);
    }
  }

  /** What the members are told: the first sign, the letters, the parameters. */
  function Text(marks: seq<(char, char)>, values: seq<string>): string
    requires marks != []
  {
    [marks[0].0] + Letters(marks) + Spaced(values)
  }

  /** The orders in the words of a command for this channel. */
  function OrdersIn(s: State, fd: int, cmd: seq<string>): seq<Order>
    requires |cmd| > 2 && cmd[1] in s.channels
  {
    var c := s.channels[cmd[1]];
    Orders(Place('\0', 3, c.limitOn), cmd[2], cmd, Scene(s.clients, c.members, cmd[1], Who(s, fd).nick))
  }

  lemma ResultFollows(s: State, fd: int, cmd: seq<string>)
    requires Inv(s) && fd in s.clients && Permitted(s, fd, cmd)
    ensures var c, m, orders := s.channels[cmd[1]], Result(s, fd, cmd), OrdersIn(s, fd, cmd);
      && m.chan == CarryAll(c, orders) && m.values == Used(orders) && m.plus == LastNamed(orders, "")
      && m.errors == Complaints(orders, s.clients[fd].nick) && m.stopped == Ends(orders)
      && m.message == (if Counted(c, orders) == [] then "" else [Counted(c, orders)[0].0] + Letters(Counted(c, orders)))
  {
    var c := s.channels[cmd[1]];
    assert ChannelOk(s, cmd[1]);
    InterpretFollows(Start(c), cmd[2], s, fd, c, cmd);
    MessageIsMarks(Start(c), cmd[2], s.clients, fd, s.clients[fd].nick, cmd);
    var orders := OrdersIn(s, fd, cmd);
    assert [] + Used(orders) == Used(orders);
    assert [] + Complaints(orders, s.clients[fd].nick) == Complaints(orders, s.clients[fd].nick);
  }

  lemma AnnouncementIs(s: State, fd: int, cmd: seq<string>)
    requires Inv(s) && fd in s.clients && Permitted(s, fd, cmd)
    ensures var c, orders := s.channels[cmd[1]], OrdersIn(s, fd, cmd);
      Announcement(Result(s, fd, cmd), fd)
      == if Counted(c, orders) == [] then "" else Text(Counted(c, orders), Used(orders))
  {
    var m := Result(s, fd, cmd);
    ResultFollows(s, fd, cmd);
    ResultIsSound(s, fd, cmd);
    WithValuesIs(m.message, m.values);
    NothingUsed(s.channels[cmd[1]], OrdersIn(s, fd, cmd));
    assert "" + "" == "";
  }

  /** The lines that everybody gets: the errors go to the issuer; then, if the command
      came to its end and something counted, every member is told once. */
  function LinesFor(s: State, fd: int, cmd: seq<string>, g: int): seq<Reply>
    requires |cmd| > 2 && cmd[1] in s.channels
  {
    var c, me, orders := s.channels[cmd[1]], Who(s, fd), OrdersIn(s, fd, cmd);
    (if g == fd then Complaints(orders, me.nick) else [])
    + if !Ends(orders) && Counted(c, orders) != [] && g in c.members
      then [Relay(UserOrigin(me.nick, me.user, me.server), MODE,
                  [cmd[1], Text(Counted(c, orders), Used(orders)), LastNamed(orders, "")])]
      else []
  }

  /** MODE by an operator is its orders, read off the words and carried out in turn: the
      channel they make, the errors and the announcement; nothing else changes. */
  lemma ModeIsItsOrders(s: State, fd: int, cmd: seq<string>)
    requires Inv(s) && fd in s.clients && |cmd| > 2 && |cmd[2]| != 1 && s.clients[fd].nick != cmd[1]
    requires cmd[1] in s.channels && fd in s.channels[cmd[1]].operators
    ensures var t := Mode(s, fd, cmd);
      && t.password == s.password && t.clients.Keys == s.clients.Keys
      && t.channels == s.channels[cmd[1] := CarryAll(s.channels[cmd[1]], OrdersIn(s, fd, cmd))]
      && forall g | g in s.clients ::
           t.clients[g] == s.clients[g].(out := s.clients[g].out + LinesFor(s, fd, cmd, g))
  {
    var m, t := Result(s, fd, cmd), Mode(s, fd, cmd);
    ResultFollows(s, fd, cmd);
    AnnouncementIs(s, fd, cmd);
    ResultIsSound(s, fd, cmd);
    assert ChannelOk(s, cmd[1]);
    forall g | g in s.clients ensures t.clients[g] == s.clients[g].(out := s.clients[g].out + LinesFor(s, fd, cmd, g)) {
      FinishedLines(s, fd, cmd, g);
    }
  }

  lemma LinesAre(s: State, fd: int, cmd: seq<string>, g: int)
    requires Inv(s) && fd in s.clients && Permitted(s, fd, cmd)
    ensures var m := Result(s, fd, cmd);
      LinesFor(s, fd, cmd, g) == (if g == fd then m.errors else [])
        + if !m.stopped && Announcement(m, fd) != "" && IsMember(s, g, cmd[1])
          then [Relay(s.clients[fd].Prefix(), MODE, [cmd[1], Announcement(m, fd), m.plus])] else []
  {
    ResultFollows(s, fd, cmd);
    AnnouncementIs(s, fd, cmd);
  }

  lemma FinishedLines(s: State, fd: int, cmd: seq<string>, g: int)
    requires Inv(s) && fd in s.clients && g in s.clients && Permitted(s, fd, cmd)
    ensures Mode(s, fd, cmd).clients.Keys == s.clients.Keys
    ensures Mode(s, fd, cmd).clients[g] == s.clients[g].(out := s.clients[g].out + LinesFor(s, fd, cmd, g))
  {
    var m := Result(s, fd, cmd);
    var line := if !m.stopped && Announcement(m, fd) != "" && IsMember(s, g, cmd[1])
                then [Relay(s.clients[fd].Prefix(), MODE, [cmd[1], Announcement(m, fd), m.plus])] else [];
    ModeTells(s, fd, cmd);
    LinesAre(s, fd, cmd, g);
    Regrouped(s.clients[g].out, if g == fd then m.errors else [], line);
  }

  // ---- the operator flag alone ---------------------------------------------

  /** +o with the nickname of another member makes it operator, -o unmakes it. */
  lemma OperatorAlone(s: State, fd: int, cmd: seq<string>, g: int)
    requires Inv(s) && fd in s.clients && |cmd| == 4 && (cmd[2] == "+o" || cmd[2] == "-o")
    requires cmd[1] in s.channels && fd in s.channels[cmd[1]].operators && s.clients[fd].nick != cmd[1]
    requires IsMember(s, g, cmd[1]) && g in s.clients && s.clients[g].fd == g
    requires s.clients[g].nick == cmd[3] && cmd[3] != s.clients[fd].nick && cmd[3] != "*"
    ensures var c, t, me := s.channels[cmd[1]], Mode(s, fd, cmd), s.clients[fd];
      && t.channels == s.channels[cmd[1] := c.(operators := if cmd[2] == "+o" then Add(c.operators, g)
                                                            else Drop(c.operators, g))]
      && forall h | h in s.clients :: h in t.clients && t.clients[h] == s.clients[h].(out := s.clients[h].out
           + if h in c.members then [Relay(UserOrigin(me.nick, me.user, me.server), MODE, [cmd[1], cmd[2], cmd[3]])]
             else [])
  {
    var c := s.channels[cmd[1]];
    var sign := cmd[2][0];
    FindIsUnique(s, g);
    OneOrder(s, fd, cmd, g);
    ModeIsItsOrders(s, fd, cmd);
    forall h | h in s.clients
      ensures LinesFor(s, fd, cmd, h)
           == if h in c.members then [Relay(UserOrigin(s.clients[fd].nick, s.clients[fd].user, s.clients[fd].server),
                                             MODE, [cmd[1], cmd[2], cmd[3]])] else []
    {
    }
  }

  lemma OneAlone(c: ChannelRec, order: Order, me: string)
    ensures CarryAll(c, [order]) == Carry(c, order) && Counted(c, [order]) == MarkOf(c, order)
    ensures Used([order]) == ParameterOf(order) && Complaints([order], me) == ComplaintOf(order, me)
    ensures LastNamed([order], "") == NamedBy(order, "") && Ends([order]) == order.Refused?
  {
    assert [order][1..] == [];
  }

  lemma OneRead(s: State, fd: int, cmd: seq<string>, g: int)
    requires fd in s.clients && |cmd| == 4 && (cmd[2] == "+o" || cmd[2] == "-o") && cmd[1] in s.channels
    requires Find(s.clients, cmd[3]) == Some(g) && s.clients[g].fd == g && g in s.channels[cmd[1]].members
    requires s.clients[g].nick == cmd[3] && cmd[3] != s.clients[fd].nick
    ensures OrdersIn(s, fd, cmd) == [if cmd[2] == "+o" then Give(g, cmd[3]) else Take(g, cmd[3])]
  {
    var c := s.channels[cmd[1]];
    var scene := Scene(s.clients, c.members, cmd[1], s.clients[fd].nick);
    var p := Place('\0', 3, c.limitOn);
    var q := p.(sign := cmd[2][0]);
    var order := if cmd[2] == "+o" then Give(g, cmd[3]) else Take(g, cmd[3]);
    assert cmd[2][1..] == "o" && "o"[1..] == "";
    OrdersFirst(p, cmd[2], cmd, scene);
    OrdersFirst(q, "o", cmd, scene);
    assert ReadFlag(q, 'o', cmd, scene).0 == [order];
    assert Orders(q.(cursor := 4), "", cmd, scene) == [] && [order] + [] == [order];
  }

  lemma OneOrder(s: State, fd: int, cmd: seq<string>, g: int)
    requires fd in s.clients && |cmd| == 4 && (cmd[2] == "+o" || cmd[2] == "-o") && cmd[1] in s.channels
    requires Find(s.clients, cmd[3]) == Some(g) && s.clients[g].fd == g && g in s.channels[cmd[1]].members
    requires s.clients[g].nick == cmd[3] && cmd[3] != s.clients[fd].nick
    ensures var order := if cmd[2] == "+o" then Give(g, cmd[3]) else Take(g, cmd[3]);
      var orders, c := OrdersIn(s, fd, cmd), s.channels[cmd[1]];
      && orders == [order] && CarryAll(c, orders) == Carry(c, order) && Used(orders) == [] && !Ends(orders)
      && Complaints(orders, s.clients[fd].nick) == [] && LastNamed(orders, "") == cmd[3]
      && Counted(c, orders) == [(cmd[2][0], 'o')] && Text(Counted(c, orders), []) == cmd[2]
  {
    var order := if cmd[2] == "+o" then Give(g, cmd[3]) else Take(g, cmd[3]);
    OneRead(s, fd, cmd, g);
    OneAlone(s.channels[cmd[1]], order, s.clients[fd].nick);
    assert [(cmd[2][0], 'o')][1..] == [] && Letters([(cmd[2][0], 'o')]) == "o";
  }
}
