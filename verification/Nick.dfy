/** NICK: finding a free nickname, and telling everybody who shares a channel. */
module NickSpec {
  import opened Seqs
  import opened IrcState

  ghost function AtLeastAsLong(clients: map<int, ClientRec>, nick: string): set<int> {
    set g | g in clients && |clients[g].nick| >= |nick|
  }

  lemma LongerIsRarer(clients: map<int, ClientRec>, nick: string)
    requires Find(clients, nick).Some?
    ensures AtLeastAsLong(clients, nick + "_") < AtLeastAsLong(clients, nick)
  {
    var g := Find(clients, nick).value;
    assert g in AtLeastAsLong(clients, nick) && g !in AtLeastAsLong(clients, nick + "_");
  }

  /** Underscores are appended until no client has the nickname. */
  function FreshNick(clients: map<int, ClientRec>, nick: string): string
    decreases AtLeastAsLong(clients, nick)
  {
    if Find(clients, nick).None? then nick
    else
      LongerIsRarer(clients, nick);
      FreshNick(clients, nick + "_")
  }

  ghost predicate InUse(clients: map<int, ClientRec>, nick: string) {
    exists g | g in clients :: clients[g].nick == nick
  }

  /** The result is the request with the fewest underscores that make it unused,
      so the check for a nickname in use that follows the loop never fires. */
  lemma {:induction false} FewestUnderscores(clients: map<int, ClientRec>, nick: string) returns (k: nat)
    ensures FreshNick(clients, nick) == nick + Repeat('_', k)
    ensures !InUse(clients, nick + Repeat('_', k))
    ensures forall j | 0 <= j < k :: InUse(clients, nick + Repeat('_', j))
    decreases AtLeastAsLong(clients, nick)
  {
    if Find(clients, nick).None? {
      k := 0;
      assert nick + Repeat('_', 0) == nick;
    } else {
      LongerIsRarer(clients, nick);
      var m := FewestUnderscores(clients, nick + "_");
      k := m + 1;
      assert nick + Repeat('_', k) == nick + "_" + Repeat('_', m);
      forall j | 0 <= j < k ensures InUse(clients, nick + Repeat('_', j)) {
        if j == 0 {
          assert nick + Repeat('_', 0) == nick;
        } else {
          assert nick + Repeat('_', j) == nick + "_" + Repeat('_', j - 1);
        }
      }
    }
  }

  /** The clients met when the members of the channels are visited in order. */
  function Visit(s: State, chans: seq<string>): seq<int> {
    if chans == [] then []
    else Visit(s, chans[..|chans| - 1]) + ChannelAt(s, chans[|chans| - 1]).members
  }

  function Ids(s: State, group: seq<int>): seq<int> {
    seq(|group|, i requires 0 <= i < |group| => Who(s, group[i]).fd)
  }

  /** Who gets the line: a client is skipped when the descriptor it stores was
      met before. */
  function Targets(s: State, visit: seq<int>): seq<int> {
    if visit == [] then []
    else
      var before, g := Targets(s, visit[..|visit| - 1]), visit[|visit| - 1];
      if Who(s, g).fd in Ids(s, before) then before else before + [g]
  }

  function Line(s: State, fd: int, nick: string): Reply {
    Relay(Who(s, fd).Prefix(), NICK, [nick])
  }

  function Announce(s: State, fd: int, nick: string): State {
    if Who(s, fd).chans == [] then Say(s, fd, Line(s, fd, nick))
    else Tell(s, Targets(s, Visit(s, Who(s, fd).chans)), Line(s, fd, nick))
  }

  function Rename(s: State, fd: int, nick: string): State {
    PutClient(s, fd, Who(s, fd).(nick := nick, nickOk := true))
  }

  function Nick(s: State, fd: int, cmd: seq<string>): State {
    if !Who(s, fd).passOk then EraseClient(s, fd)
    else if |cmd| < 2 then Say(s, fd, Numeric(431, []))
    else
      var nick := FreshNick(s.clients, cmd[1]);
      if !ValidNick(nick) then Say(Say(s, fd, Numeric(432, [])), fd, Usage(NICK))
      else Rename(Announce(s, fd, nick), fd, nick)
  }

  /** NICK with these words gets past every check. */
  predicate Accepted(s: State, fd: int, cmd: seq<string>) {
    Who(s, fd).passOk && |cmd| >= 2 && ValidNick(FreshNick(s.clients, cmd[1]))
  }

  lemma AnnounceIsOutput(s: State, fd: int, nick: string)
    requires fd in s.clients
    ensures OnlyOutput(s, Announce(s, fd, nick))
  {
  }

  /** A valid nickname that nobody uses keeps nicknames unique. */
  lemma RenameKeepsInv(s: State, fd: int, nick: string)
    requires Inv(s) && fd in s.clients && s.clients[fd].passOk
    requires ValidNick(nick) && !InUse(s.clients, nick)
    ensures Inv(Rename(s, fd, nick))
  {
    assert ClientOk(s, fd);
    var c := s.clients[fd].(nick := nick, nickOk := true);
    var clients := s.clients[fd := c];
    forall f, g | f in clients && g in clients && f != g && clients[f].nick == clients[g].nick
      ensures f != fd && g != fd
    {
    }
    ClientKeepsInv(s, fd, c);
  }

  lemma NickKeepsInv(s: State, fd: int, cmd: seq<string>)
    requires Inv(s) && fd in s.clients
    ensures Inv(Nick(s, fd, cmd))
  {
    var c := s.clients[fd];
    assert ClientOk(s, fd);
    if !c.passOk {
      EraseClientKeepsInv(s, fd);
    } else if |cmd| < 2 {
      SayKeepsInv(s, fd, Numeric(431, []));
    } else if !Accepted(s, fd, cmd) {
      SayTwiceKeepsInv(s, fd, Numeric(432, []), Usage(NICK));
    } else {
      var nick := FreshNick(s.clients, cmd[1]);
      var k := FewestUnderscores(s.clients, cmd[1]);
      var m := Announce(s, fd, nick);
      AnnounceIsOutput(s, fd, nick);
      OutputKeepsInv(s, m);
      assert !InUse(m.clients, nick) by {
        assert !InUse(s.clients, nick);
      }
      RenameKeepsInv(m, fd, nick);
    }
  }

  /** Channels are not touched, and the password flag is not either. */
  lemma NickShrinks(s: State, fd: int, cmd: seq<string>)
    requires fd in s.clients
    ensures Shrinks(s, Nick(s, fd, cmd)) && SamePass(s, Nick(s, fd, cmd))
    ensures Nick(s, fd, cmd).channels == s.channels
  {
    if Accepted(s, fd, cmd) {
      AnnounceIsOutput(s, fd, FreshNick(s.clients, cmd[1]));
    }
  }

  // ---- once to everybody who shares a channel ------------------------------

  ghost predicate Shares(s: State, f: int, g: int) {
    exists n :: IsMember(s, f, n) && IsMember(s, g, n)
  }

  lemma {:induction false} VisitMeets(s: State, chans: seq<string>, g: int)
    requires forall n | n in chans :: n in s.channels
    ensures g in Visit(s, chans) <==> exists n :: n in chans && IsMember(s, g, n)
  {
    if chans != [] {
      var front, last := chans[..|chans| - 1], chans[|chans| - 1];
      assert chans == front + [last];
      VisitMeets(s, front, g);
      if g in s.channels[last].members {
        assert IsMember(s, g, last);
      }
    }
  }

  lemma {:induction false} TargetsAreVisited(s: State, visit: seq<int>)
    ensures forall g | g in Targets(s, visit) :: g in visit
    ensures forall g | g in visit :: Who(s, g).fd in Ids(s, Targets(s, visit))
    ensures forall i, j | 0 <= i < j < |Targets(s, visit)| ::
              Who(s, Targets(s, visit)[i]).fd != Who(s, Targets(s, visit)[j]).fd
  {
    if visit != [] {
      var front, g := visit[..|visit| - 1], visit[|visit| - 1];
      assert visit == front + [g];
      TargetsAreVisited(s, front);
      var before, after := Targets(s, front), Targets(s, visit);
      if after != before {
        assert Ids(s, after) == Ids(s, before) + [Who(s, g).fd];
        forall i | 0 <= i < |before| ensures Who(s, before[i]).fd != Who(s, g).fd {
          assert Ids(s, before)[i] == Who(s, before[i]).fd;
        }
      }
    }
  }

  lemma TargetOf(s: State, visit: seq<int>, g: int) returns (h: int)
    requires g in visit
    ensures h in Targets(s, visit) && h in visit && Who(s, h).fd == Who(s, g).fd
  {
    TargetsAreVisited(s, visit);
    var t := Targets(s, visit);
    assert Who(s, g).fd in Ids(s, t);
    var i :| 0 <= i < |t| && Ids(s, t)[i] == Who(s, g).fd;
    h := t[i];
  }

  /** Nobody who was visited earlier stores the same descriptor. */
  ghost predicate MetFirst(s: State, visit: seq<int>, g: int) {
    exists i | 0 <= i < |visit| ::
      visit[i] == g && forall j | 0 <= j < i :: Who(s, visit[j]).fd != Who(s, g).fd
  }

  /** The descriptors that were written down are those of the clients met. */
  lemma IdsMeet(s: State, visit: seq<int>, d: int)
    ensures d in Ids(s, Targets(s, visit)) <==> exists j :: 0 <= j < |visit| && Who(s, visit[j]).fd == d
  {
    TargetsAreVisited(s, visit);
    var t := Targets(s, visit);
    if d in Ids(s, t) {
      var i :| 0 <= i < |t| && Ids(s, t)[i] == d;
      assert t[i] in visit;
      var j :| 0 <= j < |visit| && visit[j] == t[i];
    }
    if j :| 0 <= j < |visit| && Who(s, visit[j]).fd == d {
      assert visit[j] in visit;
    }
  }

  lemma MetMore(s: State, front: seq<int>, last: int, g: int)
    ensures MetFirst(s, front + [last], g) <==>
      MetFirst(s, front, g) || (g == last && forall j | 0 <= j < |front| :: Who(s, front[j]).fd != Who(s, g).fd)
  {
    var visit := front + [last];
    assert forall j | 0 <= j < |front| :: visit[j] == front[j];
    if MetFirst(s, front, g) {
      var i :| 0 <= i < |front| && front[i] == g && forall j | 0 <= j < i :: Who(s, front[j]).fd != Who(s, g).fd;
      assert visit[i] == g;
    } else if g == last && forall j | 0 <= j < |front| :: Who(s, front[j]).fd != Who(s, g).fd {
      assert visit[|front|] == g;
    }
    if MetFirst(s, visit, g) {
      var i :| 0 <= i < |visit| && visit[i] == g && forall j | 0 <= j < i :: Who(s, visit[j]).fd != Who(s, g).fd;
      assert i < |front| ==> front[i] == g;
    }
  }

  /** The ones who are told are the ones met first. */
  lemma {:induction false} TargetsIff(s: State, visit: seq<int>, g: int)
    ensures g in Targets(s, visit) <==> MetFirst(s, visit, g)
  {
    if visit != [] {
      var front, last := visit[..|visit| - 1], visit[|visit| - 1];
      assert visit == front + [last];
      TargetsIff(s, front, g);
      MetMore(s, front, last, g);
      IdsMeet(s, front, Who(s, last).fd);
    }
  }

  /** Everybody who was visited is told exactly when the stored descriptors of
      the visited clients differ. */
  lemma AllToldIff(s: State, visit: seq<int>)
    ensures (forall g | g in visit :: g in Targets(s, visit))
       <==> forall g, h | g in visit && h in visit && g != h :: Who(s, g).fd != Who(s, h).fd
  {
    var t := Targets(s, visit);
    TargetsAreVisited(s, visit);
    if forall g, h | g in visit && h in visit && g != h :: Who(s, g).fd != Who(s, h).fd {
      forall g | g in visit ensures g in t {
        var h := TargetOf(s, visit, g);
      }
    }
    if forall g | g in visit :: g in t {
      forall g, h | g in visit && h in visit && g != h ensures Who(s, g).fd != Who(s, h).fd {
        var i :| 0 <= i < |t| && t[i] == g;
        var j :| 0 <= j < |t| && t[j] == h;
        if i < j {
          assert Who(s, t[i]).fd != Who(s, t[j]).fd;
        } else {
          assert Who(s, t[j]).fd != Who(s, t[i]).fd;
        }
      }
    }
  }

  lemma NickTells(s: State, fd: int, cmd: seq<string>, g: int)
    requires fd in s.clients && g in s.clients && s.clients[fd].chans != [] && Accepted(s, fd, cmd)
    ensures var t, line := Nick(s, fd, cmd), Line(s, fd, FreshNick(s.clients, cmd[1]));
      && t.clients.Keys == s.clients.Keys
      && t.clients[g].out
         == s.clients[g].out + if MetFirst(s, Visit(s, s.clients[fd].chans), g) then [line] else []
  {
    TargetsIff(s, Visit(s, s.clients[fd].chans), g);
    assert s.clients[g].out + [] == s.clients[g].out;
  }

  /** A change of nickname by a client in channels: nobody gets more than one
      line, nobody outside its channels gets one, and everybody who shares a
      channel with it gets one exactly when no two of them store the same
      descriptor, however many channels they share. The line names the old
      nickname as its origin. */
  lemma NickOnce(s: State, fd: int, cmd: seq<string>)
    requires Inv(s) && fd in s.clients && s.clients[fd].chans != [] && Accepted(s, fd, cmd)
    ensures var t, line := Nick(s, fd, cmd), Line(s, fd, FreshNick(s.clients, cmd[1]));
      && t.clients.Keys == s.clients.Keys
      && (forall g | g in s.clients ::
            t.clients[g].out == s.clients[g].out || t.clients[g].out == s.clients[g].out + [line])
      && (forall g | g in s.clients && !Shares(s, fd, g) :: t.clients[g].out == s.clients[g].out)
      && ((forall g | g in s.clients && Shares(s, fd, g) :: t.clients[g].out == s.clients[g].out + [line])
          <==> forall g, h | g in s.clients && h in s.clients && Shares(s, fd, g) && Shares(s, fd, h) && g != h ::
                 s.clients[g].fd != s.clients[h].fd)
      && line.origin.nick == s.clients[fd].nick
  {
    var t, line := Nick(s, fd, cmd), Line(s, fd, FreshNick(s.clients, cmd[1]));
    var visit := Visit(s, s.clients[fd].chans);
    var told := Targets(s, visit);
    VisitIsShared(s, fd);
    TargetsAreVisited(s, visit);
    AllToldIff(s, visit);
    forall g | g in s.clients
      ensures t.clients[g].out == if g in told then s.clients[g].out + [line] else s.clients[g].out
    {
    }
    forall g | g in s.clients ensures s.clients[g].out != s.clients[g].out + [line] {
      assert |s.clients[g].out| != |s.clients[g].out + [line]|;
    }
  }

  lemma VisitIsShared(s: State, fd: int)
    requires Inv(s) && fd in s.clients
    ensures forall g :: g in Visit(s, s.clients[fd].chans) <==> Shares(s, fd, g)
    ensures forall g :: Shares(s, fd, g) ==> g in s.clients
  {
    var chans := s.clients[fd].chans;
    assert ClientOk(s, fd);
    forall n | n in chans ensures n in s.channels {
      assert IsMember(s, fd, n);
    }
    forall g ensures g in Visit(s, chans) <==> Shares(s, fd, g) {
      VisitMeets(s, chans, g);
      if g in Visit(s, chans) {
        var n :| n in chans && IsMember(s, g, n);
        assert IsMember(s, fd, n);
      }
      if Shares(s, fd, g) {
        var n :| IsMember(s, fd, n) && IsMember(s, g, n);
        assert ChannelOk(s, n);
        assert n in chans;
      }
    }
    forall g | Shares(s, fd, g) ensures g in s.clients {
      var n :| IsMember(s, fd, n) && IsMember(s, g, n);
      assert ChannelOk(s, n);
    }
  }
}
