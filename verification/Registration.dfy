/** PASS and USER: the steps of signing up that do not touch nicknames. */
module PassSpec {
  import opened IrcState

  function Pass(s: State, fd: int, cmd: seq<string>): State {
    if Who(s, fd).passOk then Say(s, fd, Numeric(462, []))
    else if |cmd| < 2 then Say(Say(s, fd, Numeric(461, [])), fd, Usage(PASS))
    else if cmd[1] != s.password then EraseClient(s, fd)
    else PutClient(s, fd, Who(s, fd).(passOk := true))
  }

  lemma PassKeepsInv(s: State, fd: int, cmd: seq<string>)
    requires Inv(s) && fd in s.clients
    ensures Inv(Pass(s, fd, cmd)) && Shrinks(s, Pass(s, fd, cmd))
  {
    var t, c := Pass(s, fd, cmd), s.clients[fd];
    assert ClientOk(s, fd);
    if c.passOk {
      SayKeepsInv(s, fd, Numeric(462, []));
    } else if |cmd| < 2 {
      SayTwiceKeepsInv(s, fd, Numeric(461, []), Usage(PASS));
    } else if cmd[1] != s.password {
      EraseClientKeepsInv(s, fd);
    } else {
      ClientKeepsInv(s, fd, c.(passOk := true));
    }
  }

  /** PASS is accepted with the server's password and with nothing else. A wrong
      password costs the connection, and then the client was in no channel. */
  lemma PassGate(s: State, fd: int, cmd: seq<string>)
    requires Inv(s) && fd in s.clients && !s.clients[fd].passOk
    ensures var t := Pass(s, fd, cmd);
            && (fd in t.clients && t.clients[fd].passOk <==> |cmd| >= 2 && cmd[1] == s.password)
            && (fd !in t.clients <==> |cmd| >= 2 && cmd[1] != s.password)
            && (fd !in t.clients ==> forall n :: !IsMember(s, fd, n))
            && (forall g | g in s.clients && g != fd :: g in t.clients && t.clients[g] == s.clients[g])
  {
    assert ClientOk(s, fd);
    forall n ensures !IsMember(s, fd, n) {
      if n in s.channels {
        assert ChannelOk(s, n);
      }
    }
  }
}

module UserSpec {
  import opened IrcState
  import opened Wire

  predicate Malformed(cmd: seq<string>) {
    |cmd| < 5 || (|cmd| > 5 && !(cmd[4] != "" && cmd[4][0] == ':'))
  }

  function User(s: State, fd: int, cmd: seq<string>): State {
    if Who(s, fd).userOk then Say(s, fd, Numeric(462, []))
    else if !Who(s, fd).passOk then EraseClient(s, fd)
    else if Malformed(cmd) then Say(Say(s, fd, Numeric(461, [])), fd, Usage(USER))
    else PutClient(s, fd, Who(s, fd).(user := cmd[1], host := cmd[2], server := cmd[3],
                                      realname := JoinWords(cmd[4..]), userOk := true))
  }

  /** USER costs the connection exactly when PASS is missing, and then the client was in
      no channel; it is accepted once, with five well-formed words, and stores them. */
  lemma UserGate(s: State, fd: int, cmd: seq<string>)
    requires Inv(s) && fd in s.clients && !s.clients[fd].userOk
    ensures var t, c := User(s, fd, cmd), s.clients[fd];
      && (fd !in t.clients <==> !c.passOk)
      && (fd !in t.clients ==> forall n :: !IsMember(s, fd, n))
      && (fd in t.clients && t.clients[fd].userOk <==> c.passOk && !Malformed(cmd))
      && (fd in t.clients && t.clients[fd].userOk ==>
            t.clients[fd] == c.(user := cmd[1], host := cmd[2], server := cmd[3],
                                realname := JoinWords(cmd[4..]), userOk := true))
      && (forall g | g in s.clients && g != fd :: g in t.clients && t.clients[g] == s.clients[g])
  {
    assert ClientOk(s, fd);
    forall n ensures !IsMember(s, fd, n) {
      if n in s.channels {
        assert ChannelOk(s, n);
      }
    }
  }

  lemma UserKeepsInv(s: State, fd: int, cmd: seq<string>)
    requires Inv(s) && fd in s.clients
    ensures Inv(User(s, fd, cmd)) && Shrinks(s, User(s, fd, cmd)) && SamePass(s, User(s, fd, cmd))
  {
    var t, c := User(s, fd, cmd), s.clients[fd];
    assert ClientOk(s, fd);
    if c.userOk {
      SayKeepsInv(s, fd, Numeric(462, []));
    } else if c.passOk && Malformed(cmd) {
      SayTwiceKeepsInv(s, fd, Numeric(461, []), Usage(USER));
    } else if !c.passOk {
      EraseClientKeepsInv(s, fd);
    } else {
      ClientKeepsInv(s, fd, t.clients[fd]);
    }
  }
}
