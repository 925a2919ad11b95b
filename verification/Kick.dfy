/** KICK: channels and nicknames are paired up; the first unknown or own nickname
    ends the command. */
module KickSpec {
  import opened Seqs
  import opened IrcState
  import opened Wire

  function Line(s: State, fd: int, name: string, nick: string, extra: seq<string>): Reply {
    var message := if extra == [] then nick else nick + " " + extra[0];
    Relay(Who(s, fd).Prefix(), KICK, [name, message, Who(s, fd).nick])
  }

  function KickError(s: State, fd: int, name: string, nick: string): Reply {
    var target := Find(s.clients, nick);
    if name !in s.channels then Numeric(403, [Who(s, fd).nick, name])
    else if target.None? || s.clients[target.value].fd == -1 then Numeric(401, [Who(s, fd).nick, nick])
    else Numeric(441, [Who(s, fd).nick, nick, name])
  }

  /** One channel with its nickname: the state afterwards, and whether to go on. */
  function KickOne(s: State, fd: int, name: string, nick: string, extra: seq<string>): (State, bool) {
    if name !in s.channels then (Say(s, fd, KickError(s, fd, name, nick)), true)
    else
      var target := Find(s.clients, nick);
      if target.None? || s.clients[target.value].fd == -1 then
        (Say(s, fd, KickError(s, fd, name, nick)), false)
      else if s.clients[target.value].nick == Who(s, fd).nick then (s, false)
      else if target.value !in s.channels[name].members then
        (Say(s, fd, KickError(s, fd, name, nick)), true)
      else (Depart(s, target.value, name, Line(s, fd, name, nick, extra)), true)
  }

  function KickAll(s: State, fd: int, names: seq<string>, nicks: seq<string>, extra: seq<string>): State
    decreases |names|
  {
    if names == [] || nicks == [] then s
    else
      var (t, more) := KickOne(s, fd, names[0], nicks[0], extra);
      if more then KickAll(t, fd, names[1..], nicks[1..], extra) else t
  }

  /** A nickname is there whenever the loop reaches for one. */
  predicate KickAllDefined(s: State, fd: int, names: seq<string>, nicks: seq<string>, extra: seq<string>)
    decreases |names|
  {
    names == [] ||
    (nicks != [] &&
     var (t, more) := KickOne(s, fd, names[0], nicks[0], extra);
     more ==> KickAllDefined(t, fd, names[1..], nicks[1..], extra))
  }

  /** The first listed channel the issuer does not run, if there is one. */
  function FirstForeign(s: State, fd: int, names: seq<string>): Option<string> {
    if names == [] then None
    else if names[0] in s.channels && fd !in s.channels[names[0]].operators then Some(names[0])
    else FirstForeign(s, fd, names[1..])
  }

  function Kick(s: State, fd: int, cmd: seq<string>): State {
    if |cmd| < 3 then Say(s, fd, Numeric(461, []))
    else
      var names := Split(cmd[1], ',');
      var foreign := FirstForeign(s, fd, names);
      if foreign.Some? then Say(s, fd, Numeric(482, [Who(s, fd).nick, foreign.value]))
      else KickAll(s, fd, names, Split(cmd[2], ','), cmd[3..])
  }

  predicate KickDefined(s: State, fd: int, cmd: seq<string>) {
    |cmd| < 3 || FirstForeign(s, fd, Split(cmd[1], ',')).Some? ||
    KickAllDefined(s, fd, Split(cmd[1], ','), Split(cmd[2], ','), cmd[3..])
  }

  lemma {:induction false} FirstForeignMeans(s: State, fd: int, names: seq<string>)
    ensures FirstForeign(s, fd, names).None?
       <==> forall n | n in names && n in s.channels :: fd in s.channels[n].operators
  {
    if names != [] {
      FirstForeignMeans(s, fd, names[1..]);
      assert forall n :: n in names <==> n == names[0] || n in names[1..];
    }
  }

  // ---- what is removed, read off the state before the command --------------

  /** The pair at the front of the lists stops the command. */
  predicate Stops(s: State, fd: int, name: string, nick: string) {
    var target := Find(s.clients, nick);
    name in s.channels &&
    (target.None? || s.clients[target.value].fd == -1 || s.clients[target.value].nick == Who(s, fd).nick)
  }

  /** How many pairs are carried out. */
  function Reach(s: State, fd: int, names: seq<string>, nicks: seq<string>): (k: nat)
    ensures k <= |names| && k <= |nicks|
  {
    if names == [] || nicks == [] || Stops(s, fd, names[0], nicks[0]) then 0
    else 1 + Reach(s, fd, names[1..], nicks[1..])
  }

  ghost predicate Kicked(s: State, fd: int, names: seq<string>, nicks: seq<string>, g: int, n: string) {
    exists i | 0 <= i < Reach(s, fd, names, nicks) :: names[i] == n && Find(s.clients, nicks[i]) == Some(g)
  }

  /** The loop reaches past the last nickname exactly when there are fewer nicknames
      than channels and none of them stops the command. */
  lemma {:induction false} DefinedIff(s: State, fd: int, names: seq<string>, nicks: seq<string>, extra: seq<string>)
    requires Inv(s) && fd in s.clients
    ensures KickAllDefined(s, fd, names, nicks, extra)
       <==> |names| <= |nicks| || Reach(s, fd, names, nicks) < |nicks|
    decreases |names|
  {
    if names != [] && nicks != [] {
      KickOneFrame(s, fd, names[0], nicks[0], extra);
      var (t, more) := KickOne(s, fd, names[0], nicks[0], extra);
      if more {
        DefinedIff(t, fd, names[1..], nicks[1..], extra);
        ReachAgrees(s, t, fd, names[1..], nicks[1..]);
      }
    }
  }

  /** Everything KICK looks at to find its targets. */
  ghost predicate SameFaces(s: State, t: State) {
    && t.channels.Keys == s.channels.Keys && t.clients.Keys == s.clients.Keys
    && forall g | g in s.clients :: t.clients[g].nick == s.clients[g].nick && t.clients[g].fd == s.clients[g].fd
  }

  lemma {:induction false} ReachAgrees(s: State, t: State, fd: int, names: seq<string>, nicks: seq<string>)
    requires SameFaces(s, t)
    ensures Reach(s, fd, names, nicks) == Reach(t, fd, names, nicks)
  {
    if names != [] && nicks != [] {
      FindAgrees(s.clients, t.clients, nicks[0]);
      ReachAgrees(s, t, fd, names[1..], nicks[1..]);
    }
  }

  lemma KickedAgrees(s: State, t: State, fd: int, names: seq<string>, nicks: seq<string>, g: int, n: string)
    requires SameFaces(s, t)
    ensures Kicked(s, fd, names, nicks, g, n) <==> Kicked(t, fd, names, nicks, g, n)
  {
    ReachAgrees(s, t, fd, names, nicks);
    forall i | 0 <= i < |nicks| ensures Find(s.clients, nicks[i]) == Find(t.clients, nicks[i]) {
      FindAgrees(s.clients, t.clients, nicks[i]);
    }
  }

  lemma KickedSplits(s: State, fd: int, names: seq<string>, nicks: seq<string>, g: int, n: string)
    requires names != [] && nicks != [] && !Stops(s, fd, names[0], nicks[0])
    ensures Kicked(s, fd, names, nicks, g, n)
       <==> (names[0] == n && Find(s.clients, nicks[0]) == Some(g)) || Kicked(s, fd, names[1..], nicks[1..], g, n)
  {
    var k := Reach(s, fd, names[1..], nicks[1..]);
    if Kicked(s, fd, names, nicks, g, n) {
      var i :| 0 <= i < k + 1 && names[i] == n && Find(s.clients, nicks[i]) == Some(g);
      if i > 0 {
        assert names[1..][i - 1] == n && nicks[1..][i - 1] == nicks[i];
      }
    }
    if Kicked(s, fd, names[1..], nicks[1..], g, n) {
      var i :| 0 <= i < k && names[1..][i] == n && Find(s.clients, nicks[1..][i]) == Some(g);
      assert names[i + 1] == n && nicks[i + 1] == nicks[1..][i];
    }
  }

  /** The issuer runs every listed channel that exists. */
  ghost predicate RunsAll(s: State, fd: int, names: seq<string>) {
    forall n | n in names && n in s.channels :: fd in s.channels[n].operators
  }

  lemma DepartKeepsFaces(s: State, target: int, name: string, line: Reply)
    requires name in s.channels && target in s.clients
    ensures SameFaces(s, Depart(s, target, name, line))
  {
  }

  /** The pair takes its target out of its channel. */
  predicate Hits(s: State, fd: int, name: string, nick: string) {
    !Stops(s, fd, name, nick) && name in s.channels && Find(s.clients, nick).value in s.channels[name].members
  }

  lemma KickOneFrame(s: State, fd: int, name: string, nick: string, extra: seq<string>)
    requires Inv(s) && fd in s.clients
    ensures var (t, more) := KickOne(s, fd, name, nick, extra);
      Inv(t) && Shrinks(s, t) && SamePass(s, t) && SameFaces(s, t) && more == !Stops(s, fd, name, nick)
  {
    var t := KickOne(s, fd, name, nick, extra).0;
    if Hits(s, fd, name, nick) {
      var target := Find(s.clients, nick).value;
      DepartEffect(s, target, name, Line(s, fd, name, nick, extra));
      DepartKeepsFaces(s, target, name, Line(s, fd, name, nick, extra));
    } else if t != s {
      SayKeepsInv(s, fd, KickError(s, fd, name, nick));
    }
  }

  /** One pair: at most its target loses at most its channel, and the issuer still
      runs every channel it ran. */
  lemma KickOneEffect(s: State, fd: int, name: string, nick: string, extra: seq<string>)
    requires Inv(s) && fd in s.clients
    ensures var (t, more) := KickOne(s, fd, name, nick, extra);
      && (forall g, n :: IsMember(t, g, n)
            <==> IsMember(s, g, n) && !(more && n == name && Find(s.clients, nick) == Some(g)))
      && (forall g, n :: IsOperator(t, g, n)
            <==> IsOperator(s, g, n) && !(more && n == name && Find(s.clients, nick) == Some(g)))
      && (forall n :: IsOperator(s, fd, n) ==> IsOperator(t, fd, n))
  {
    if name in s.channels {
      assert ChannelOk(s, name);
    }
    if Hits(s, fd, name, nick) {
      DepartEffect(s, Find(s.clients, nick).value, name, Line(s, fd, name, nick, extra));
    }
  }

  /** The operator check made before the loop stays true through every iteration,
      repeated channel names included, and the pairs removed are the ones that can
      be read off the state before the command. */
  lemma {:induction false} KickAllEffect(s: State, fd: int, names: seq<string>, nicks: seq<string>, extra: seq<string>)
    requires Inv(s) && fd in s.clients && RunsAll(s, fd, names)
    ensures var t := KickAll(s, fd, names, nicks, extra);
      && Inv(t) && Shrinks(s, t) && SamePass(s, t) && SameFaces(s, t) && RunsAll(t, fd, names)
      && (forall g, n :: IsMember(t, g, n) <==> IsMember(s, g, n) && !Kicked(s, fd, names, nicks, g, n))
      && (forall g, n :: IsOperator(t, g, n) <==> IsOperator(s, g, n) && !Kicked(s, fd, names, nicks, g, n))
      && (forall n :: IsOperator(s, fd, n) ==> IsOperator(t, fd, n))
    decreases |names|
  {
    if names != [] && nicks != [] {
      var (m, more) := KickOne(s, fd, names[0], nicks[0], extra);
      KickOneFrame(s, fd, names[0], nicks[0], extra);
      KickOneEffect(s, fd, names[0], nicks[0], extra);
      forall n | n in names && n in m.channels ensures fd in m.channels[n].operators {
        assert IsOperator(s, fd, n);
        assert IsOperator(m, fd, n);
      }
      if more {
        var rest, nicks' := names[1..], nicks[1..];
        KickAllEffect(m, fd, rest, nicks', extra);
        var t := KickAll(m, fd, rest, nicks', extra);
        ShrinksTwice(s, m, t);
        forall g, n
          ensures Kicked(s, fd, names, nicks, g, n)
             <==> (n == names[0] && Find(s.clients, nicks[0]) == Some(g)) || Kicked(m, fd, rest, nicks', g, n)
        {
          KickedSplits(s, fd, names, nicks, g, n);
          KickedAgrees(s, m, fd, rest, nicks', g, n);
        }
        forall n | n in names && n in t.channels ensures fd in t.channels[n].operators {
          assert IsOperator(m, fd, n);
          assert IsOperator(t, fd, n);
        }
      }
    }
  }

  /** The issuer stays in, so a channel it removed somebody from is not empty. */
  lemma KickEmptiesNone(s: State, t: State, fd: int, names: seq<string>, nicks: seq<string>)
    requires Inv(s) && Inv(t) && t.channels.Keys == s.channels.Keys && RunsAll(s, fd, names)
    requires forall g, n :: IsMember(t, g, n) <==> IsMember(s, g, n) && !Kicked(s, fd, names, nicks, g, n)
    requires forall n :: IsOperator(s, fd, n) ==> IsOperator(t, fd, n)
    ensures EmptiesNone(s, t)
  {
    forall n | n in t.channels && s.channels[n].members != [] ensures t.channels[n].members != [] {
      var g := s.channels[n].members[0];
      assert IsMember(s, g, n) && ChannelOk(t, n);
      if !IsMember(t, g, n) {
        assert Kicked(s, fd, names, nicks, g, n) && n in names;
        assert IsOperator(s, fd, n) && IsOperator(t, fd, n);
      }
    }
  }

  /** KICK as a whole: the pairs of the i-th nickname with the i-th channel are
      removed, up to the first one that is unknown or the issuer's own. The issuer
      stays operator of everything it ran, and no channel is emptied. */
  lemma KickRemovesPairs(s: State, fd: int, cmd: seq<string>)
    requires Inv(s) && fd in s.clients && |cmd| >= 3 && RunsAll(s, fd, Split(cmd[1], ','))
    ensures var t, names, nicks := Kick(s, fd, cmd), Split(cmd[1], ','), Split(cmd[2], ',');
      && Inv(t) && Shrinks(s, t) && SamePass(s, t) && EmptiesNone(s, t)
      && (forall n :: IsOperator(s, fd, n) ==> IsOperator(t, fd, n))
      && (forall g, n :: IsMember(t, g, n) <==> IsMember(s, g, n) && !Kicked(s, fd, names, nicks, g, n))
      && (forall g, n :: IsOperator(t, g, n) <==> IsOperator(s, g, n) && !Kicked(s, fd, names, nicks, g, n))
  {
    var t, names, nicks := Kick(s, fd, cmd), Split(cmd[1], ','), Split(cmd[2], ',');
    FirstForeignMeans(s, fd, names);
    KickAllEffect(s, fd, names, nicks, cmd[3..]);
    KickEmptiesNone(s, t, fd, names, nicks);
  }

  /** One foreign channel anywhere in the list, and nothing but an error happens. */
  lemma KickRefused(s: State, fd: int, cmd: seq<string>)
    requires Inv(s) && fd in s.clients && (|cmd| < 3 || !RunsAll(s, fd, Split(cmd[1], ',')))
    ensures OnlyOutput(s, Kick(s, fd, cmd)) && Inv(Kick(s, fd, cmd))
  {
    if |cmd| >= 3 {
      var names := Split(cmd[1], ',');
      FirstForeignMeans(s, fd, names);
      SayKeepsInv(s, fd, Numeric(482, [s.clients[fd].nick, FirstForeign(s, fd, names).value]));
    } else {
      SayKeepsInv(s, fd, Numeric(461, []));
    }
  }

  // ---- what the others hear ------------------------------------------------

  /** The pair removes somebody who is in the channel and was not removed before. */
  predicate Removes(s: State, name: string, nick: string, gone: set<(int, string)>) {
    var target := Find(s.clients, nick);
    target.Some? && IsMember(s, target.value, name) && (target.value, name) !in gone
  }

  function LineFor(s: State, fd: int, g: int, name: string, nick: string, extra: seq<string>,
                   gone: set<(int, string)>): seq<Reply> {
    var me := Who(s, fd);
    if Removes(s, name, nick, gone) && IsMember(s, g, name) && (g, name) !in gone
    then [Relay(UserOrigin(me.nick, me.user, me.server), KICK,
                [name, if extra == [] then nick else nick + " " + extra[0], me.nick])]
    else []
  }

  /** What g hears of the lists: a line for each pair that removes somebody from a channel
      in which g still is. The pairs in `gone` were removed before. */
  function Lines(s: State, fd: int, g: int, names: seq<string>, nicks: seq<string>, extra: seq<string>,
                 gone: set<(int, string)>): seq<Reply>
    decreases |names|
  {
    if names == [] || nicks == [] || Stops(s, fd, names[0], nicks[0]) then []
    else
      LineFor(s, fd, g, names[0], nicks[0], extra, gone)
      + Lines(s, fd, g, names[1..], nicks[1..], extra, GoneAfter(s, names[0], nicks[0], gone))
  }

  predicate SameName(s: State, t: State, fd: int) {
    Who(t, fd).nick == Who(s, fd).nick && Who(t, fd).user == Who(s, fd).user && Who(t, fd).server == Who(s, fd).server
  }

  lemma DepartTellsAnother(s: State, target: int, g: int, n: string, line: Reply)
    requires Inv(s) && IsMember(s, target, n) && g in s.clients
    ensures var t := Depart(s, target, n, line);
      && g in t.clients && SameName(s, t, g)
      && t.clients[g].out == s.clients[g].out + if IsMember(s, g, n) then [line] else []
  {
    DepartTells(s, target, n, line);
    assert s.clients[g].out + [] == s.clients[g].out;
  }

  function HitLine(s: State, fd: int, g: int, name: string, nick: string, extra: seq<string>): seq<Reply> {
    if Hits(s, fd, name, nick) && IsMember(s, g, name) then [Line(s, fd, name, nick, extra)] else []
  }

  lemma KickOneTells(s: State, fd: int, g: int, name: string, nick: string, extra: seq<string>)
    requires Inv(s) && fd in s.clients && g in s.clients
    ensures var t := KickOne(s, fd, name, nick, extra).0;
      && g in t.clients && SameName(s, t, g)
      && (g == fd || t.clients[g].out == s.clients[g].out + HitLine(s, fd, g, name, nick, extra))
  {
    if Hits(s, fd, name, nick) {
      DepartTellsAnother(s, Find(s.clients, nick).value, g, name, Line(s, fd, name, nick, extra));
    } else {
      assert s.clients[g].out + [] == s.clients[g].out;
    }
  }

  /** The state in the middle of the lists: the pairs in `gone` are out. */
  ghost predicate Left(s: State, t: State, fd: int, gone: set<(int, string)>) {
    && SameFaces(s, t) && fd in t.clients && SameName(s, t, fd)
    && forall g, n :: IsMember(t, g, n) <==> IsMember(s, g, n) && (g, n) !in gone
  }

  function GoneAfter(s: State, name: string, nick: string, gone: set<(int, string)>): set<(int, string)> {
    if Removes(s, name, nick, gone) then gone + {(Find(s.clients, nick).value, name)} else gone
  }

  lemma LeftSees(s: State, t: State, fd: int, name: string, nick: string, gone: set<(int, string)>)
    requires Left(s, t, fd, gone)
    ensures Find(t.clients, nick) == Find(s.clients, nick)
    ensures Stops(t, fd, name, nick) <==> Stops(s, fd, name, nick)
    ensures Hits(t, fd, name, nick) <==> !Stops(s, fd, name, nick) && Removes(s, name, nick, gone)
  {
    FindAgrees(s.clients, t.clients, nick);
  }

  lemma LeftOneMore(s: State, t: State, fd: int, name: string, nick: string, extra: seq<string>,
                    gone: set<(int, string)>)
    requires Inv(t) && Left(s, t, fd, gone) && !Stops(s, fd, name, nick)
    ensures Left(s, KickOne(t, fd, name, nick, extra).0, fd, GoneAfter(s, name, nick, gone))
  {
    LeftSees(s, t, fd, name, nick, gone);
    KickOneFrame(t, fd, name, nick, extra);
    KickOneEffect(t, fd, name, nick, extra);
    KickOneTells(t, fd, fd, name, nick, extra);
  }

  lemma LeftTells(s: State, t: State, fd: int, g: int, name: string, nick: string, extra: seq<string>,
                  gone: set<(int, string)>)
    requires Inv(t) && g in t.clients && g != fd && Left(s, t, fd, gone) && !Stops(s, fd, name, nick)
    ensures var m := KickOne(t, fd, name, nick, extra).0;
      && Inv(m) && g in m.clients && KickOne(t, fd, name, nick, extra).1
      && m.clients[g].out == t.clients[g].out + LineFor(s, fd, g, name, nick, extra, gone)
  {
    LeftSees(s, t, fd, name, nick, gone);
    KickOneFrame(t, fd, name, nick, extra);
    KickOneTells(t, fd, g, name, nick, extra);
  }

  lemma LeftStops(s: State, t: State, fd: int, g: int, name: string, nick: string, extra: seq<string>,
                  gone: set<(int, string)>)
    requires Inv(t) && g in t.clients && g != fd && Left(s, t, fd, gone) && Stops(s, fd, name, nick)
    ensures var m := KickOne(t, fd, name, nick, extra).0;
      && g in m.clients && !KickOne(t, fd, name, nick, extra).1
      && m.clients[g].out == t.clients[g].out
  {
    LeftSees(s, t, fd, name, nick, gone);
    KickOneFrame(t, fd, name, nick, extra);
    KickOneTells(t, fd, g, name, nick, extra);
  }

  lemma {:induction false} KickAllTells(s: State, t: State, fd: int, g: int, names: seq<string>, nicks: seq<string>,
                                        extra: seq<string>, gone: set<(int, string)>)
    requires Inv(t) && g in t.clients && g != fd && Left(s, t, fd, gone)
    ensures var u := KickAll(t, fd, names, nicks, extra);
      g in u.clients && u.clients[g].out == t.clients[g].out + Lines(s, fd, g, names, nicks, extra, gone)
    decreases |names|
  {
    if names != [] && nicks != [] {
      if Stops(s, fd, names[0], nicks[0]) {
        LeftStops(s, t, fd, g, names[0], nicks[0], extra, gone);
      } else {
        var m, after := KickOne(t, fd, names[0], nicks[0], extra).0, GoneAfter(s, names[0], nicks[0], gone);
        LeftTells(s, t, fd, g, names[0], nicks[0], extra, gone);
        LeftOneMore(s, t, fd, names[0], nicks[0], extra, gone);
        KickAllTells(s, m, fd, g, names[1..], nicks[1..], extra, after);
        Regrouped(t.clients[g].out, LineFor(s, fd, g, names[0], nicks[0], extra, gone),
                  Lines(s, fd, g, names[1..], nicks[1..], extra, after));
      }
    }
  }

  /** Another client gets exactly one line for each pair that takes somebody out of a
      channel in which it still is, itself included, and none for a pair that names
      somebody who is out already. */
  lemma KickLines(s: State, fd: int, g: int, cmd: seq<string>)
    requires Inv(s) && fd in s.clients && g in s.clients && g != fd
    requires |cmd| >= 3 && RunsAll(s, fd, Split(cmd[1], ','))
    ensures var t := Kick(s, fd, cmd);
      && g in t.clients
      && t.clients[g].out
         == s.clients[g].out + Lines(s, fd, g, Split(cmd[1], ','), Split(cmd[2], ','), cmd[3..], {})
  {
    FirstForeignMeans(s, fd, Split(cmd[1], ','));
    KickAllTells(s, s, fd, g, Split(cmd[1], ','), Split(cmd[2], ','), cmd[3..], {});
  }

  // ---- the whole state afterwards ------------------------------------------

  /** Of a channel only members and operators differ, of a client only what it was written
      and the channels it lists. */
  ghost predicate OnlyMoved(s: State, t: State) {
    && t.password == s.password && t.clients.Keys == s.clients.Keys && t.channels.Keys == s.channels.Keys
    && (forall g | g in s.clients ::
          t.clients[g] == s.clients[g].(out := t.clients[g].out, chans := t.clients[g].chans))
    && forall n | n in s.channels ::
         t.channels[n] == s.channels[n].(members := t.channels[n].members, operators := t.channels[n].operators)
  }

  lemma MovedTwice(s: State, t: State, u: State)
    requires OnlyMoved(s, t) && OnlyMoved(t, u)
    ensures OnlyMoved(s, u)
  {
  }

  lemma TellMoves(s: State, group: seq<int>, line: Reply)
    ensures OnlyMoved(s, Tell(s, group, line))
  {
  }

  lemma LeaveMoves(s: State, target: int, n: string)
    requires target in s.clients && n in s.channels
    ensures OnlyMoved(s, Leave(s, target, n))
  {
  }

  lemma DepartMoves(s: State, target: int, n: string, line: Reply)
    requires target in s.clients && n in s.channels
    ensures OnlyMoved(s, Depart(s, target, n, line))
  {
    var m := Tell(s, s.channels[n].members, line);
    TellMoves(s, s.channels[n].members, line);
    LeaveMoves(m, target, n);
    MovedTwice(s, m, Leave(m, target, n));
  }

  lemma SayMoves(s: State, fd: int, line: Reply)
    requires fd in s.clients
    ensures OnlyMoved(s, Say(s, fd, line))
  {
  }

  lemma KickOneMoves(s: State, fd: int, name: string, nick: string, extra: seq<string>)
    requires Inv(s) && fd in s.clients
    ensures OnlyMoved(s, KickOne(s, fd, name, nick, extra).0)
  {
    if Hits(s, fd, name, nick) {
      DepartMoves(s, Find(s.clients, nick).value, name, Line(s, fd, name, nick, extra));
    } else {
      SayMoves(s, fd, KickError(s, fd, name, nick));
    }
  }

  /** What the issuer is written for a pair, and whether the command goes on. */
  function OwnLine(s: State, fd: int, name: string, nick: string, extra: seq<string>, gone: set<(int, string)>)
    : (seq<Reply>, bool)
  {
    var me, target := Who(s, fd), Find(s.clients, nick);
    if name !in s.channels then ([Numeric(403, [me.nick, name])], true)
    else if target.None? || s.clients[target.value].fd == -1 then ([Numeric(401, [me.nick, nick])], false)
    else if nick == me.nick then ([], false)
    else if !IsMember(s, target.value, name) || (target.value, name) in gone
    then ([Numeric(441, [me.nick, nick, name])], true)
    else ([Relay(UserOrigin(me.nick, me.user, me.server), KICK,
                 [name, if extra == [] then nick else nick + " " + extra[0], me.nick])], true)
  }

  function OwnLines(s: State, fd: int, names: seq<string>, nicks: seq<string>, extra: seq<string>,
                    gone: set<(int, string)>): seq<Reply>
    decreases |names|
  {
    if names == [] || nicks == [] then []
    else
      var (lines, more) := OwnLine(s, fd, names[0], nicks[0], extra, gone);
      if more then lines + OwnLines(s, fd, names[1..], nicks[1..], extra, GoneAfter(s, names[0], nicks[0], gone))
      else lines
  }

  lemma KickOneAnswers(s: State, fd: int, name: string, nick: string, extra: seq<string>)
    requires Inv(s) && fd in s.clients && (name in s.channels ==> fd in s.channels[name].operators)
    ensures var (t, more) := KickOne(s, fd, name, nick, extra);
      var (lines, on) := OwnLine(s, fd, name, nick, extra, {});
      fd in t.clients && more == on && t.clients[fd].out == s.clients[fd].out + lines
  {
    if name in s.channels {
      assert ChannelOk(s, name);
      if Find(s.clients, nick).Some? {
        assert ClientOk(s, Find(s.clients, nick).value);
      }
    }
    assert s.clients[fd].out + [] == s.clients[fd].out;
  }

  lemma OwnLineAgrees(s: State, t: State, fd: int, name: string, nick: string, extra: seq<string>,
                      gone: set<(int, string)>)
    requires Left(s, t, fd, gone)
    ensures OwnLine(t, fd, name, nick, extra, {}) == OwnLine(s, fd, name, nick, extra, gone)
  {
    FindAgrees(s.clients, t.clients, nick);
  }

  lemma {:induction false} KickAllOutcome(s: State, t: State, fd: int, names: seq<string>, nicks: seq<string>,
                                          extra: seq<string>, gone: set<(int, string)>)
    requires Inv(t) && Left(s, t, fd, gone) && RunsAll(t, fd, names)
    ensures var u := KickAll(t, fd, names, nicks, extra);
      OnlyMoved(t, u) && u.clients[fd].out == t.clients[fd].out + OwnLines(s, fd, names, nicks, extra, gone)
    decreases |names|
  {
    assert t.clients[fd].out + [] == t.clients[fd].out;
    if names != [] && nicks != [] {
      var (m, more) := KickOne(t, fd, names[0], nicks[0], extra);
      KickOneMoves(t, fd, names[0], nicks[0], extra);
      KickOneAnswers(t, fd, names[0], nicks[0], extra);
      OwnLineAgrees(s, t, fd, names[0], nicks[0], extra, gone);
      if more {
        KickOutcomeStep(s, t, fd, names, nicks, extra, gone);
        var after := GoneAfter(s, names[0], nicks[0], gone);
        KickAllOutcome(s, m, fd, names[1..], nicks[1..], extra, after);
        MovedTwice(t, m, KickAll(m, fd, names[1..], nicks[1..], extra));
        Regrouped(t.clients[fd].out, OwnLine(s, fd, names[0], nicks[0], extra, gone).0,
                  OwnLines(s, fd, names[1..], nicks[1..], extra, after));
      }
    }
  }

  /** The first pair, when it does not end the command. */
  lemma KickOutcomeStep(s: State, t: State, fd: int, names: seq<string>, nicks: seq<string>, extra: seq<string>,
                        gone: set<(int, string)>)
    requires Inv(t) && Left(s, t, fd, gone) && RunsAll(t, fd, names) && names != [] && nicks != []
    requires KickOne(t, fd, names[0], nicks[0], extra).1
    ensures var m := KickOne(t, fd, names[0], nicks[0], extra).0;
      Inv(m) && Left(s, m, fd, GoneAfter(s, names[0], nicks[0], gone)) && RunsAll(m, fd, names[1..])
  {
    var m := KickOne(t, fd, names[0], nicks[0], extra).0;
    KickOneFrame(t, fd, names[0], nicks[0], extra);
    KickOneEffect(t, fd, names[0], nicks[0], extra);
    LeftSees(s, t, fd, names[0], nicks[0], gone);
    LeftOneMore(s, t, fd, names[0], nicks[0], extra, gone);
    forall n | n in names[1..] && n in m.channels ensures fd in m.channels[n].operators {
      assert n in names && IsOperator(t, fd, n) && IsOperator(m, fd, n);
    }
  }

  /** KICK as a whole, for an issuer that runs every listed channel: which pairs leave is
      said by KickRemovesPairs; nothing else about any channel or client changes, and the
      issuer is answered pair by pair. */
  lemma KickOutcome(s: State, fd: int, cmd: seq<string>)
    requires Inv(s) && fd in s.clients && |cmd| >= 3 && RunsAll(s, fd, Split(cmd[1], ','))
    ensures var t := Kick(s, fd, cmd);
      && OnlyMoved(s, t)
      && t.clients[fd].out
         == s.clients[fd].out + OwnLines(s, fd, Split(cmd[1], ','), Split(cmd[2], ','), cmd[3..], {})
  {
    FirstForeignMeans(s, fd, Split(cmd[1], ','));
    KickAllOutcome(s, s, fd, Split(cmd[1], ','), Split(cmd[2], ','), cmd[3..], {});
  }

  /** Otherwise the first listed channel it does not run is named, and that is all. */
  lemma KickForeign(s: State, fd: int, cmd: seq<string>, i: nat)
    requires fd in s.clients && |cmd| >= 3 && i < |Split(cmd[1], ',')|
    requires var names := Split(cmd[1], ',');
      && names[i] in s.channels && fd !in s.channels[names[i]].operators
      && forall j | 0 <= j < i :: names[j] in s.channels ==> fd in s.channels[names[j]].operators
    ensures Kick(s, fd, cmd) == s.(clients := s.clients[fd := s.clients[fd].(
              out := s.clients[fd].out + [Numeric(482, [s.clients[fd].nick, Split(cmd[1], ',')[i]])])])
  {
    FirstForeignAt(s, fd, Split(cmd[1], ','), i);
  }

  lemma {:induction false} FirstForeignAt(s: State, fd: int, names: seq<string>, i: nat)
    requires i < |names| && names[i] in s.channels && fd !in s.channels[names[i]].operators
    requires forall j | 0 <= j < i :: names[j] in s.channels ==> fd in s.channels[names[j]].operators
    ensures FirstForeign(s, fd, names) == Some(names[i])
  {
    if i > 0 {
      assert names[0] in s.channels ==> fd in s.channels[names[0]].operators;
      FirstForeignAt(s, fd, names[1..], i - 1);
    }
  }
}
