/** MODE as the server carries it out: the channel is changed flag by flag. */
module ModeCommand {
  import opened Seqs
  import opened IrcState
  import opened ServerObjects
  import opened Effects
  import opened ModeSpec

  /** The variables of the interpreter's loop. */
  datatype Locals = Locals(sign: char, cursor: nat, message: string, plus: string, values: seq<string>)
  {
    /** The flag counts as set; the first one also announces its sign. */
    function Marked(flag: char): Locals {
      this.(message := (if message == "" then [sign] else message) + [flag])
    }
  }

  ghost function LocalsOf(m: Machine): Locals {
    Locals(m.sign, m.cursor, m.message, m.plus, m.values)
  }

  /** The state with the channel as it is now and the errors so far. */
  ghost function At(s: State, fd: int, name: string, c: ChannelRec, errors: seq<Reply>): State {
    PutChannel(SayEach(s, fd, errors), name, c)
  }

  ghost predicate StandsAt(server: Server, s: State, fd: int, name: string, c: ChannelRec, errors: seq<Reply>)
    reads server
  {
    server.State() == At(s, fd, name, c, errors) && fd in s.clients && name in s.channels && c.name == name
  }

  /** The server is where the interpreter m, started in s, has got to. */
  ghost predicate Stands(server: Server, s: State, fd: int, name: string, m: Machine, p: Locals)
    reads server
  {
    StandsAt(server, s, fd, name, m.chan, m.errors) && p == LocalsOf(m) && !m.stopped
  }

  lemma AtChannel(s: State, fd: int, name: string, c: ChannelRec, errors: seq<Reply>, d: ChannelRec)
    ensures PutChannel(At(s, fd, name, c, errors), name, d) == At(s, fd, name, d, errors)
  {
  }

  lemma AtError(s: State, fd: int, name: string, c: ChannelRec, errors: seq<Reply>, e: Reply)
    requires fd in s.clients
    ensures Say(At(s, fd, name, c, errors), fd, e) == At(s, fd, name, c, errors + [e])
  {
    assert s.clients[fd].out + errors + [e] == s.clients[fd].out + (errors + [e]);
  }

  lemma AtStart(s: State, fd: int, name: string)
    requires fd in s.clients && name in s.channels
    ensures At(s, fd, name, s.channels[name], []) == s
  {
    assert s.clients[fd].out + [] == s.clients[fd].out;
    assert SayEach(s, fd, []).clients == s.clients;
    assert s.channels[name := s.channels[name]] == s.channels;
  }

  /** Where the interpreter reads, it reads what was there at the start. */
  lemma AtShows(s: State, fd: int, name: string, c: ChannelRec, errors: seq<Reply>)
    requires fd in s.clients
    ensures var t := At(s, fd, name, c, errors);
      name in t.channels && t.channels[name] == c && fd in t.clients && t.clients[fd].nick == s.clients[fd].nick
  {
  }

  lemma AtFinds(s: State, fd: int, name: string, c: ChannelRec, errors: seq<Reply>, nick: string)
    requires fd in s.clients
    ensures var t := At(s, fd, name, c, errors);
      && t.clients.Keys == s.clients.Keys && Find(t.clients, nick) == Find(s.clients, nick)
      && forall g | g in s.clients :: t.clients[g].nick == s.clients[g].nick && t.clients[g].fd == s.clients[g].fd
  {
    FindAgrees(s.clients, At(s, fd, name, c, errors).clients, nick);
  }

  // ---- the changes ---------------------------------------------------------

  lemma SameName(c: ChannelRec, flag: char, sign: char, id: int)
    ensures WithMode(c, flag, sign, id).name == c.name
  {
  }

  method Change(server: Server, ghost s: State, fd: int, name: string, ghost c: ChannelRec, ghost errors: seq<Reply>,
                flag: char, sign: char, id: int)
    requires server.Valid() && StandsAt(server, s, fd, name, c, errors)
    modifies server`channelRecs, server.channelObjects
    ensures server.Valid() && StandsAt(server, s, fd, name, WithMode(c, flag, sign, id), errors)
  {
    ghost var d := WithMode(c, flag, sign, id);
    SameName(c, flag, sign, id);
    AtShows(s, fd, name, c, errors);
    AtChannel(s, fd, name, c, errors, d);
    server.SetMode(name, flag, sign, id);
  }

  method PutKey(server: Server, ghost s: State, fd: int, name: string, ghost c: ChannelRec, ghost errors: seq<Reply>,
                key: string)
    requires server.Valid() && StandsAt(server, s, fd, name, c, errors)
    modifies server`channelRecs, server.channelObjects
    ensures server.Valid() && StandsAt(server, s, fd, name, c.(key := key), errors)
  {
    AtShows(s, fd, name, c, errors);
    AtChannel(s, fd, name, c, errors, c.(key := key));
    server.SetKey(name, key);
  }

  method PutLimit(server: Server, ghost s: State, fd: int, name: string, ghost c: ChannelRec, ghost errors: seq<Reply>,
                  limit: nat)
    requires server.Valid() && StandsAt(server, s, fd, name, c, errors)
    modifies server`channelRecs, server.channelObjects
    ensures server.Valid() && StandsAt(server, s, fd, name, c.(limit := limit), errors)
  {
    AtShows(s, fd, name, c, errors);
    AtChannel(s, fd, name, c, errors, c.(limit := limit));
    server.SetLimit(name, limit);
  }

  method SwitchKey(server: Server, ghost s: State, fd: int, name: string, ghost c: ChannelRec, ghost errors: seq<Reply>,
                   key: string, sign: char)
    requires server.Valid() && StandsAt(server, s, fd, name, c, errors)
    modifies server`channelRecs, server.channelObjects
    ensures server.Valid() && StandsAt(server, s, fd, name, WithMode(c.(key := key), 'k', sign, fd), errors)
  {
    PutKey(server, s, fd, name, c, errors, key);
    Change(server, s, fd, name, c.(key := key), errors, 'k', sign, fd);
  }

  method SwitchLimit(server: Server, ghost s: State, fd: int, name: string, ghost c: ChannelRec,
                     ghost errors: seq<Reply>, limit: nat, sign: char)
    requires server.Valid() && StandsAt(server, s, fd, name, c, errors)
    modifies server`channelRecs, server.channelObjects
    ensures server.Valid() && StandsAt(server, s, fd, name, WithMode(c.(limit := limit), 'l', sign, fd), errors)
  {
    PutLimit(server, s, fd, name, c, errors, limit);
    Change(server, s, fd, name, c.(limit := limit), errors, 'l', sign, fd);
  }

  method Complain(server: Server, ghost s: State, fd: int, ghost name: string, ghost c: ChannelRec,
                  ghost errors: seq<Reply>, e: Reply)
    requires server.Valid() && StandsAt(server, s, fd, name, c, errors)
    modifies server`clientRecs, server.clientObjects
    ensures server.Valid() && StandsAt(server, s, fd, name, c, errors + [e])
  {
    AtError(s, fd, name, c, errors, e);
    server.Send(fd, e);
  }

  /** At most one line. */
  method ComplainOnce(server: Server, ghost s: State, fd: int, ghost name: string, ghost c: ChannelRec,
                      ghost errors: seq<Reply>, lines: seq<Reply>)
    requires server.Valid() && StandsAt(server, s, fd, name, c, errors) && |lines| <= 1
    modifies server`clientRecs, server.clientObjects
    ensures server.Valid() && StandsAt(server, s, fd, name, c, errors + lines)
  {
    if |lines| == 0 {
      assert errors + lines == errors;
    } else {
      assert lines == [lines[0]];
      Complain(server, s, fd, name, c, errors, lines[0]);
    }
  }

  // ---- the flags -----------------------------------------------------------

  /** What a flag has done: the channel, the loop's variables, nothing else. */
  ghost predicate Did(m: Machine, n: Machine, c: ChannelRec, q: Locals) {
    n.chan == c && LocalsOf(n) == q && n.errors == m.errors && n.stopped == m.stopped
  }

  lemma DidI(m: Machine, fd: int)
    ensures var n, p := FlagI(m), LocalsOf(m);
      if Redundant(m.chan.inviteOn, m.sign) then n == m
      else Did(m, n, WithMode(m.chan, 'i', m.sign, fd), p.Marked('i'))
  {
  }

  lemma DidT(m: Machine, fd: int)
    ensures var n, p := FlagT(m), LocalsOf(m);
      if Redundant(m.chan.topicOn, m.sign) then n == m
      else Did(m, n, WithMode(m.chan, 't', m.sign, fd), p.Marked('t'))
  {
  }

  lemma DidK(m: Machine, words: seq<string>, fd: int)
    ensures var n, p := FlagK(m, words), LocalsOf(m);
      if m.sign == '+' && m.cursor < |words| then
        Did(m, n, WithMode(m.chan.(key := words[m.cursor]), 'k', '+', fd),
            p.(values := p.values + [words[p.cursor]], cursor := p.cursor + 1).Marked('k'))
      else if m.sign == '-' && m.chan.keyOn then
        Did(m, n, WithMode(m.chan.(key := ""), 'k', '-', fd), p.Marked('k'))
      else n == m
  {
  }

  lemma DidLPlus(m: Machine, words: seq<string>, fd: int)
    requires m.sign == '+' && m.cursor < |words| && AllDigits(words[m.cursor])
    ensures var p := LocalsOf(m);
      Did(m, FlagL(m, words), WithMode(m.chan.(limit := Decimal(words[m.cursor])), 'l', '+', fd),
          p.(values := p.values + [words[p.cursor]], cursor := p.cursor + 1).Marked('l'))
  {
  }

  lemma DidLMinus(m: Machine, words: seq<string>, fd: int)
    requires m.sign == '-' && m.chan.limitOn && (m.cursor < |words| ==> AllDigits(words[m.cursor]))
    ensures Did(m, FlagL(m, words), WithMode(m.chan.(limit := 0), 'l', '-', fd), LocalsOf(m).Marked('l'))
  {
  }

  /** Otherwise the limit flag at most passes over a parameter that is no number. */
  lemma DidLNothing(m: Machine, words: seq<string>)
    ensures var n := FlagL(m, words);
      && (m.sign == '-' && !m.chan.limitOn ==> n == m)
      && (!(m.sign == '-' && !m.chan.limitOn) && m.cursor < |words| && !AllDigits(words[m.cursor]) ==>
            n == m.(cursor := m.cursor + 1))
      && (m.sign != '-' && (m.sign != '+' || m.cursor >= |words|) && (m.cursor < |words| ==> AllDigits(words[m.cursor]))
          ==> n == m)
  {
  }

  lemma DidO(m: Machine, c: ClientRec)
    requires m.sign == '+' || m.sign == '-'
    ensures var n, p := if m.sign == '+' then Grant(m, c) else Revoke(m, c), LocalsOf(m);
      Did(m, n, WithMode(m.chan, 'o', m.sign, c.fd), p.(plus := c.nick, cursor := p.cursor + 1).Marked('o'))
  {
  }

  method OnI(server: Server, ghost s: State, fd: int, name: string, ghost m: Machine, p: Locals) returns (q: Locals)
    requires server.Valid() && Stands(server, s, fd, name, m, p)
    modifies server`channelRecs, server.channelObjects
    ensures server.Valid() && Stands(server, s, fd, name, FlagI(m), q)
  {
    DidI(m, fd);
    AtShows(s, fd, name, m.chan, m.errors);
    var on := server.channels[name].IsOn('i');
    if (p.sign == '+' && on) || (p.sign == '-' && !on) {
      return p;
    }
    Change(server, s, fd, name, m.chan, m.errors, 'i', p.sign, fd);
    q := p.Marked('i');
  }

  method OnT(server: Server, ghost s: State, fd: int, name: string, ghost m: Machine, p: Locals) returns (q: Locals)
    requires server.Valid() && Stands(server, s, fd, name, m, p)
    modifies server`channelRecs, server.channelObjects
    ensures server.Valid() && Stands(server, s, fd, name, FlagT(m), q)
  {
    DidT(m, fd);
    AtShows(s, fd, name, m.chan, m.errors);
    var on := server.channels[name].IsOn('t');
    if (p.sign == '+' && on) || (p.sign == '-' && !on) {
      return p;
    }
    Change(server, s, fd, name, m.chan, m.errors, 't', p.sign, fd);
    q := p.Marked('t');
  }

  method OnK(server: Server, ghost s: State, fd: int, name: string, ghost m: Machine, p: Locals, cmd: seq<string>)
    returns (q: Locals)
    requires server.Valid() && Stands(server, s, fd, name, m, p)
    modifies server`channelRecs, server.channelObjects
    ensures server.Valid() && Stands(server, s, fd, name, FlagK(m, cmd), q)
  {
    DidK(m, cmd, fd);
    AtShows(s, fd, name, m.chan, m.errors);
    q := p;
    if p.sign == '-' && !server.channels[name].IsOn('k') {
      return;
    }
    if |cmd| > p.cursor {
      if p.sign == '+' {
        SwitchKey(server, s, fd, name, m.chan, m.errors, cmd[p.cursor], '+');
        q := p.(values := p.values + [cmd[p.cursor]], cursor := p.cursor + 1).Marked('k');
      }
    }
    if p.sign == '-' {
      SwitchKey(server, s, fd, name, m.chan, m.errors, "", '-');
      q := p.Marked('k');
    }
  }

  method IsNumber(w: string) returns (digits: bool)
    ensures digits == AllDigits(w)
  {
    for i := 0 to |w|
      invariant AllDigits(w[..i])
    {
      if !('0' <= w[i] <= '9') {
        return false;
      }
      assert w[..i + 1] == w[..i] + [w[i]];
    }
    assert w[..|w|] == w;
    digits := true;
  }

  method Number(w: string) returns (n: nat)
    requires AllDigits(w)
    ensures n == Decimal(w)
  {
    n := 0;
    for i := 0 to |w|
      invariant AllDigits(w[..i]) && n == Decimal(w[..i])
    {
      assert w[..i + 1][..i] == w[..i];
      n := 10 * n + (w[i] as int - '0' as int);
    }
    assert w[..|w|] == w;
  }

  method ReadLimit(w: string) returns (limit: Option<nat>)
    ensures limit == if AllDigits(w) then Some(Decimal(w)) else None
  {
    var digits := IsNumber(w);
    if !digits {
      return None;
    }
    var n := Number(w);
    limit := Some(n);
  }

  method RaiseLimit(server: Server, ghost s: State, fd: int, name: string, ghost m: Machine, p: Locals,
                    cmd: seq<string>, limit: nat) returns (q: Locals)
    requires server.Valid() && Stands(server, s, fd, name, m, p) && p.sign == '+' && p.cursor < |cmd|
    requires AllDigits(cmd[p.cursor]) && limit == Decimal(cmd[p.cursor])
    modifies server`channelRecs, server.channelObjects
    ensures server.Valid() && Stands(server, s, fd, name, FlagL(m, cmd), q)
  {
    DidLPlus(m, cmd, fd);
    SwitchLimit(server, s, fd, name, m.chan, m.errors, limit, '+');
    q := p.(values := p.values + [cmd[p.cursor]], cursor := p.cursor + 1).Marked('l');
  }

  method DropLimit(server: Server, ghost s: State, fd: int, name: string, ghost m: Machine, p: Locals,
                   ghost cmd: seq<string>) returns (q: Locals)
    requires server.Valid() && Stands(server, s, fd, name, m, p) && p.sign == '-' && m.chan.limitOn
    requires p.cursor < |cmd| ==> AllDigits(cmd[p.cursor])
    modifies server`channelRecs, server.channelObjects
    ensures server.Valid() && Stands(server, s, fd, name, FlagL(m, cmd), q)
  {
    DidLMinus(m, cmd, fd);
    SwitchLimit(server, s, fd, name, m.chan, m.errors, 0, '-');
    q := p.Marked('l');
  }

  method OnL(server: Server, ghost s: State, fd: int, name: string, ghost m: Machine, p: Locals, cmd: seq<string>)
    returns (q: Locals)
    requires server.Valid() && Stands(server, s, fd, name, m, p)
    modifies server`channelRecs, server.channelObjects
    ensures server.Valid() && Stands(server, s, fd, name, FlagL(m, cmd), q)
  {
    DidLNothing(m, cmd);
    AtShows(s, fd, name, m.chan, m.errors);
    if p.sign == '-' && !server.channels[name].IsOn('l') {
      return p;
    }
    var limit := None;
    if |cmd| > p.cursor {
      limit := ReadLimit(cmd[p.cursor]);
      if limit.None? {
        return p.(cursor := p.cursor + 1);
      }
    }
    if p.sign == '+' && limit.Some? {
      q := RaiseLimit(server, s, fd, name, m, p, cmd, limit.value);
    } else if p.sign == '-' {
      q := DropLimit(server, s, fd, name, m, p, cmd);
    } else {
      q := p;
    }
  }

  /** Where the machine is after the flag, and whether it has stopped there. */
  ghost predicate Reached(server: Server, s: State, fd: int, name: string, m: Machine, q: Locals, stop: bool)
    reads server
  {
    && stop == m.stopped && StandsAt(server, s, fd, name, m.chan, m.errors)
    && (!stop ==> q == LocalsOf(m))
  }

  method Objection(server: Server, fd: int, name: string, word: string, sign: char) returns (lines: Option<seq<Reply>>)
    requires server.Valid() && fd in server.clientRecs
    requires name in server.channelRecs && server.channelRecs[name].name == name
    ensures lines == ModeSpec.Objection(server.channelRecs[name], server.clientRecs, fd, server.clientRecs[fd].nick,
                                        word, sign)
  {
    var me := server.clients[fd].nick;
    var target := server.FindClient(word);
    if target.None? {
      return Some([Numeric(401, [me, word])]);
    }
    var other := server.clients[target.value];
    if me == other.nick {
      return Some([]);
    }
    var inside := server.channels[name].HasMember(other.fd);
    if !inside {
      return Some([Numeric(441, [me, word, name])]);
    }
    if sign == '-' {
      var operator := server.channels[name].HasOperator(fd);
      if !operator {
        return Some([Numeric(482, [me, name])]);
      }
    }
    return None;
  }

  /** The clients as they are have the nicknames and descriptors of the start. */
  lemma ObjectionAgrees(s: State, fd: int, name: string, m: Machine, word: string, sign: char)
    requires fd in s.clients
    ensures var t, nick := At(s, fd, name, m.chan, m.errors), s.clients[fd].nick;
      && ModeSpec.Objection(m.chan, t.clients, fd, nick, word, sign)
         == ModeSpec.Objection(m.chan, s.clients, fd, nick, word, sign)
  {
    AtFinds(s, fd, name, m.chan, m.errors, word);
  }

  method ObjectionNow(server: Server, ghost s: State, fd: int, name: string, ghost m: Machine, p: Locals, word: string)
    returns (lines: Option<seq<Reply>>)
    requires server.Valid() && Stands(server, s, fd, name, m, p)
    ensures lines == ModeSpec.Objection(m.chan, s.clients, fd, s.clients[fd].nick, word, m.sign)
  {
    AtShows(s, fd, name, m.chan, m.errors);
    ObjectionAgrees(s, fd, name, m, word, p.sign);
    lines := Objection(server, fd, name, word, p.sign);
  }

  method Promote(server: Server, ghost s: State, fd: int, name: string, ghost m: Machine, p: Locals, ghost c: ClientRec,
                 nick: string, id: int) returns (q: Locals)
    requires server.Valid() && Stands(server, s, fd, name, m, p) && (p.sign == '+' || p.sign == '-')
    requires c.nick == nick && c.fd == id
    modifies server`channelRecs, server.channelObjects
    ensures server.Valid()
    ensures Stands(server, s, fd, name, if m.sign == '+' then Grant(m, c) else Revoke(m, c), q)
  {
    DidO(m, c);
    Change(server, s, fd, name, m.chan, m.errors, 'o', p.sign, id);
    q := p.(plus := nick, cursor := p.cursor + 1).Marked('o');
  }

  method OnTarget(server: Server, ghost s: State, fd: int, name: string, ghost m: Machine, p: Locals, word: string)
    returns (q: Locals)
    requires server.Valid() && Stands(server, s, fd, name, m, p) && (p.sign == '+' || p.sign == '-')
    requires Find(s.clients, word).Some?
    modifies server`channelRecs, server.channelObjects
    ensures server.Valid()
    ensures var c := s.clients[Find(s.clients, word).value];
      Stands(server, s, fd, name, if m.sign == '+' then Grant(m, c) else Revoke(m, c), q)
  {
    AtFinds(s, fd, name, m.chan, m.errors, word);
    var target := server.FindClient(word);
    var other := server.clients[target.value];
    q := Promote(server, s, fd, name, m, p, s.clients[target.value], other.nick, other.fd);
  }

  method OnO(server: Server, ghost s: State, fd: int, name: string, ghost m: Machine, p: Locals, cmd: seq<string>)
    returns (q: Locals, stop: bool)
    requires server.Valid() && Stands(server, s, fd, name, m, p)
    modifies server`clientRecs, server`channelRecs, server.clientObjects, server.channelObjects
    ensures server.Valid()
    ensures Reached(server, s, fd, name, FlagO(m, s.clients, fd, s.clients[fd].nick, cmd), q, stop)
  {
    q, stop := p, false;
    if |cmd| <= p.cursor {
      return;
    }
    var objection := ObjectionNow(server, s, fd, name, m, p, cmd[p.cursor]);
    if objection.Some? {
      stop := true;
      ComplainOnce(server, s, fd, name, m.chan, m.errors, objection.value);
    } else if p.sign == '+' || p.sign == '-' {
      q := OnTarget(server, s, fd, name, m, p, cmd[p.cursor]);
    }
  }

  method OnOther(server: Server, ghost s: State, fd: int, name: string, ghost m: Machine, p: Locals, flag: char)
    requires server.Valid() && Stands(server, s, fd, name, m, p)
    modifies server`clientRecs, server.clientObjects
    ensures server.Valid()
    ensures Stands(server, s, fd, name, m.(errors := m.errors + [Numeric(472, [s.clients[fd].nick, [flag]])]), p)
  {
    AtShows(s, fd, name, m.chan, m.errors);
    Complain(server, s, fd, name, m.chan, m.errors, Numeric(472, [server.clients[fd].nick, [flag]]));
  }

  method OnFlag(server: Server, ghost s: State, fd: int, name: string, ghost m: Machine, p: Locals, flag: char,
                cmd: seq<string>)
    returns (q: Locals, stop: bool)
    requires server.Valid() && Stands(server, s, fd, name, m, p)
    modifies server`clientRecs, server`channelRecs, server.clientObjects, server.channelObjects
    ensures server.Valid()
    ensures Reached(server, s, fd, name, Flag(m, flag, s.clients, fd, s.clients[fd].nick, cmd), q, stop)
  {
    q, stop := p, false;
    if flag == '+' || flag == '-' {
      q := p.(sign := flag);
    } else if flag == 'i' {
      q := OnI(server, s, fd, name, m, p);
    } else if flag == 't' {
      q := OnT(server, s, fd, name, m, p);
    } else if flag == 'k' {
      q := OnK(server, s, fd, name, m, p, cmd);
    } else if flag == 'l' {
      q := OnL(server, s, fd, name, m, p, cmd);
    } else if flag == 'o' {
      q, stop := OnO(server, s, fd, name, m, p, cmd);
    } else {
      OnOther(server, s, fd, name, m, p, flag);
    }
  }

  // ---- the loop ------------------------------------------------------------

  lemma InterpretStep(m: Machine, flags: string, i: nat, clients: map<int, ClientRec>, fd: int, nick: string,
                      words: seq<string>)
    requires i < |flags| && !m.stopped
    ensures var n := Flag(m, flags[i], clients, fd, nick, words);
      Interpret(m, flags[i..], clients, fd, nick, words)
      == if n.stopped then n else Interpret(n, flags[i + 1..], clients, fd, nick, words)
  {
    assert flags[i..][0] == flags[i] && flags[i..][1..] == flags[i + 1..];
  }

  /** The signs in front are skipped, the last of them counts. */
  method LeadingSigns(flags: string, ghost m: Machine, ghost clients: map<int, ClientRec>, ghost fd: int,
                      ghost nick: string, ghost words: seq<string>) returns (i: nat, sign: char)
    requires !m.stopped && m.sign == '\0'
    ensures i <= |flags|
    ensures Interpret(m.(sign := sign), flags[i..], clients, fd, nick, words)
         == Interpret(m, flags, clients, fd, nick, words)
  {
    i, sign := 0, '\0';
    assert flags[i..] == flags && m.(sign := sign) == m;
    while i < |flags| && (flags[i] == '+' || flags[i] == '-')
      invariant i <= |flags|
      invariant Interpret(m.(sign := sign), flags[i..], clients, fd, nick, words)
             == Interpret(m, flags, clients, fd, nick, words)
    {
      InterpretStep(m.(sign := sign), flags, i, clients, fd, nick, words);
      sign := flags[i];
      i := i + 1;
    }
  }

  /** The interpreter from the first flag that is not a sign to its end. */
  method RunFlags(server: Server, ghost s: State, fd: int, name: string, ghost start: Machine, first: Locals,
                  from: nat, flags: string, cmd: seq<string>) returns (p: Locals, stop: bool)
    requires server.Valid() && Stands(server, s, fd, name, start, first) && from <= |flags|
    modifies server`clientRecs, server`channelRecs, server.clientObjects, server.channelObjects
    ensures server.Valid()
    ensures Reached(server, s, fd, name, Interpret(start, flags[from..], s.clients, fd, s.clients[fd].nick, cmd),
                    p, stop)
  {
    ghost var m := start;
    ghost var nick := s.clients[fd].nick;
    p := first;
    var i := from;
    while i < |flags|
      invariant i <= |flags| && server.Valid() && Stands(server, s, fd, name, m, p)
      invariant Interpret(m, flags[i..], s.clients, fd, nick, cmd)
        == Interpret(start, flags[from..], s.clients, fd, nick, cmd)
    {
      InterpretStep(m, flags, i, s.clients, fd, nick, cmd);
      p, stop := OnFlag(server, s, fd, name, m, p, flags[i], cmd);
      if stop {
        return;
      }
      m := Flag(m, flags[i], s.clients, fd, nick, cmd);
      i := i + 1;
    }
    stop := false;
  }

  // ---- the announcement ----------------------------------------------------

  method AppendValues(message: string, values: seq<string>) returns (text: string)
    ensures text == WithValues(message, values)
  {
    text := message;
    var i := 0;
    assert values[i..] == values;
    while i < |values|
      invariant i <= |values|
      invariant WithValues(text, values[i..]) == WithValues(message, values)
    {
      assert values[i..][0] == values[i] && values[i..][1..] == values[i + 1..];
      if |values[i]| != 0 {
        text := text + " " + values[i];
      }
      i := i + 1;
    }
  }

  method AnnounceModes(server: Server, ghost s: State, fd: int, name: string, ghost m: Machine, p: Locals)
    requires server.Valid() && Stands(server, s, fd, name, m, p) && Reachable(server.State(), name)
    modifies server`clientRecs, server.clientObjects
    ensures server.Valid() && server.State() == Finish(s, fd, name, m)
  {
    AtShows(s, fd, name, m.chan, m.errors);
    var message := p.message;
    var operator := server.channels[name].HasOperator(fd);
    if operator {
      message := AppendValues(message, p.values);
    }
    if message == "" {
      return;
    }
    MessageAll(server, name, None, Relay(server.clients[fd].Prefix(), MODE, [name, message, p.plus]));
  }

  // ---- the command ---------------------------------------------------------

  /** Channel::getMode */
  method FlagsOf(channel: Channel) returns (flags: string)
    requires channel.alive
    ensures flags == ModeFlags(channel.Rec())
  {
    flags := "";
    if channel.IsOn('t') {
      flags := flags + "t";
    }
    if channel.IsOn('i') {
      flags := flags + "i";
    }
    if channel.IsOn('l') {
      flags := flags + "l";
    }
    if channel.IsOn('k') {
      flags := flags + "k";
    }
  }

  method Answer(server: Server, fd: int, name: string)
    requires server.Valid() && fd in server.clientRecs && name in server.channelRecs
    modifies server`clientRecs, server.clientObjects
    ensures server.Valid()
    ensures server.State() == Say(old(server.State()), fd, Describe(old(server.State()), fd, name))
  {
    var channel := server.channels[name];
    var flags := FlagsOf(channel);
    var operator := channel.HasOperator(fd);
    var key := if !channel.IsOn('k') then None else if operator then Some(channel.Key()) else Some("<key>");
    var limit := if channel.IsOn('l') then Some(channel.Limit()) else None;
    var line := ModeIs(server.clients[fd].nick, name, flags, key, limit);
    assert line == Describe(server.State(), fd, name);
    server.Send(fd, line);
  }

  lemma ResultReachable(s: State, fd: int, cmd: seq<string>)
    requires Inv(s) && fd in s.clients && Permitted(s, fd, cmd)
    ensures s.channels[cmd[1]].name == cmd[1]
    ensures Reachable(Apply(s, fd, cmd[1], Result(s, fd, cmd)), cmd[1])
  {
    ResultIsSound(s, fd, cmd);
    assert ChannelOk(s, cmd[1]);
  }

  /** The leading signs and then the loop, from the channel as it is. */
  method RunAll(server: Server, fd: int, name: string, flags: string, cmd: seq<string>) returns (p: Locals, stop: bool)
    requires server.Valid() && fd in server.clientRecs && name in server.channelRecs
    requires server.channelRecs[name].name == name
    modifies server`clientRecs, server`channelRecs, server.clientObjects, server.channelObjects
    ensures server.Valid()
    ensures var s := old(server.State());
      Reached(server, s, fd, name,
              Interpret(Start(s.channels[name]), flags, s.clients, fd, s.clients[fd].nick, cmd), p, stop)
  {
    ghost var s := server.State();
    ghost var start := Start(s.channels[name]);
    AtStart(s, fd, name);
    var i, sign := LeadingSigns(flags, start, s.clients, fd, s.clients[fd].nick, cmd);
    p, stop := RunFlags(server, s, fd, name, start.(sign := sign), Locals(sign, FIRST_PARAMETER, "", "", []), i,
                        flags, cmd);
  }

  method ChangeModes(server: Server, fd: int, cmd: seq<string>)
    requires server.Valid() && Inv(server.State()) && fd in server.clientRecs && Permitted(server.State(), fd, cmd)
    modifies server`clientRecs, server`channelRecs, server.clientObjects, server.channelObjects
    ensures server.Valid()
    ensures server.State() == Finish(old(server.State()), fd, cmd[1], Result(old(server.State()), fd, cmd))
  {
    ghost var s := server.State();
    ResultReachable(s, fd, cmd);
    var p, stop := RunAll(server, fd, cmd[1], cmd[2], cmd);
    if !stop {
      AnnounceModes(server, s, fd, cmd[1], Result(s, fd, cmd), p);
    }
  }

  /** MODE is its specification: the loop reads no parameter past the end. */
  method Mode(server: Server, fd: int, cmd: seq<string>)
    requires server.Valid() && Inv(server.State()) && fd in server.clientRecs
    modifies server`clientRecs, server`channelRecs, server.clientObjects, server.channelObjects
    ensures server.Valid()
    ensures server.State() == ModeSpec.Mode(old(server.State()), fd, cmd)
  {
    var nick := server.clients[fd].nick;
    if |cmd| < 2 {
      server.Send(fd, Numeric(461, []));
      return;
    }
    if nick == cmd[1] {
      return;
    }
    if cmd[1] !in server.channels {
      server.Send(fd, Numeric(403, [nick, cmd[1]]));
      return;
    }
    if |cmd| == 2 {
      Answer(server, fd, cmd[1]);
      return;
    }
    if |cmd[2]| == 1 {
      return;
    }
    var operator := server.channels[cmd[1]].HasOperator(fd);
    if !operator {
      server.Send(fd, Numeric(482, [nick, cmd[1]]));
      return;
    }
    ChangeModes(server, fd, cmd);
  }
}
