/** JOIN as the server carries it out. */
module JoinCommand {
  import opened Seqs
  import opened IrcState
  import opened Wire
  import opened ServerObjects
  import opened Effects
  import JoinSpec

  lemma StillReachable(s: State, t: State, n: string)
    requires Reachable(s, n) && OnlyOutput(s, t)
    ensures Reachable(t, n)
  {
  }

  lemma TopicReachable(s: State, fd: int, n: string)
    requires Reachable(s, n) && fd in s.clients
    ensures Reachable(JoinSpec.SayTopic(s, fd, n), n)
  {
  }

  // ---- what the newcomer and the others are told ---------------------------

  /** The members with their nicknames; operators are marked. */
  method Entries(server: Server, n: string) returns (entries: seq<(bool, string)>)
    requires server.Valid() && n in server.channelRecs && Reachable(server.State(), n)
    ensures entries == JoinSpec.NameEntries(server.State(), n)
  {
    ghost var s := server.State();
    var list := server.channels[n].Members();
    assert list == ChannelAt(s, n).members;
    assert forall g | g in list :: g in s.clients;
    entries := [];
    for i := 0 to |list|
      invariant server.Valid() && server.State() == s
      invariant |entries| == i
      invariant forall j | 0 <= j < i :: entries[j] == JoinSpec.NameEntries(s, n)[j]
    {
      var g := list[i];
      assert g in list;
      var client := server.clients[g];
      var operator := server.channels[n].HasOperator(client.fd);
      entries := entries + [(operator, client.nick)];
    }
  }

  method SayList(server: Server, fd: int, n: string)
    requires server.Valid() && fd in server.clientRecs && n in server.channelRecs && Reachable(server.State(), n)
    modifies server`clientRecs, server.clientObjects
    ensures server.Valid()
    ensures var s := old(server.State());
      server.State() == Say(s, fd, NameList(Who(s, fd).nick, n, JoinSpec.NameEntries(s, n)))
  {
    var entries := Entries(server, n);
    server.Send(fd, NameList(server.clients[fd].nick, n, entries));
  }

  method SayNames(server: Server, fd: int, n: string)
    requires server.Valid() && fd in server.clientRecs && n in server.channelRecs && Reachable(server.State(), n)
    modifies server`clientRecs, server.clientObjects
    ensures server.Valid()
    ensures server.State() == JoinSpec.SayNames(old(server.State()), fd, n)
  {
    SayList(server, fd, n);
    server.Send(fd, Numeric(366, [server.clients[fd].nick, n]));
  }

  method SayTopic(server: Server, fd: int, n: string)
    requires server.Valid() && fd in server.clientRecs && n in server.channelRecs && Reachable(server.State(), n)
    modifies server`clientRecs, server.clientObjects
    ensures server.Valid() && Reachable(server.State(), n)
    ensures server.State() == JoinSpec.SayTopic(old(server.State()), fd, n)
  {
    TopicReachable(server.State(), fd, n);
    var topic := server.channels[n].Topic();
    if |topic| != 0 {
      server.Send(fd, Numeric(332, [server.clients[fd].nick, n, topic[1..]]));
    }
  }

  method TellJoin(server: Server, fd: int, n: string)
    requires server.Valid() && fd in server.clientRecs && n in server.channelRecs && Reachable(server.State(), n)
    modifies server`clientRecs, server.clientObjects
    ensures server.Valid() && Reachable(server.State(), n)
    ensures server.State() == JoinSpec.TellJoin(old(server.State()), fd, n)
  {
    ghost var s := server.State();
    MessageAll(server, n, None, Relay(server.clients[fd].Prefix(), JOIN, [n, ""]));
    StillReachable(s, server.State(), n);
  }

  // ---- one channel ---------------------------------------------------------

  method Inform(server: Server, fd: int, n: string)
    requires server.Valid() && fd in server.clientRecs && n in server.channelRecs && Reachable(server.State(), n)
    modifies server`clientRecs, server.clientObjects
    ensures server.Valid()
    ensures server.State() == JoinSpec.SayNames(JoinSpec.SayTopic(old(server.State()), fd, n), fd, n)
  {
    SayTopic(server, fd, n);
    SayNames(server, fd, n);
  }

  lemma EnterReachable(s: State, fd: int, n: string)
    requires Inv(s) && fd in s.clients && n in s.channels && fd !in s.channels[n].members
    ensures Reachable(IrcState.Enter(s, fd, n), n)
  {
    assert ChannelOk(s, n);
  }

  method Enter(server: Server, fd: int, n: string)
    requires server.Valid() && fd in server.clientRecs && n in server.channelRecs
    requires Reachable(IrcState.Enter(server.State(), fd, n), n)
    modifies server`clientRecs, server`channelRecs, server.clientObjects, server.channelObjects
    ensures server.Valid()
    ensures server.State() == JoinSpec.EnterAndTell(old(server.State()), fd, n)
  {
    EnterChannel(server, fd, n);
    TellJoin(server, fd, n);
    Inform(server, fd, n);
  }

  lemma CreateReachable(s: State, fd: int, n: string)
    requires fd in s.clients
    ensures Reachable(IrcState.Create(s, fd, n), n)
  {
  }

  /** The channel is constructed with its operator, who then becomes its member. */
  method Found(server: Server, fd: int, n: string)
    requires server.Valid() && fd in server.clientRecs && n !in server.channelRecs
    modifies server`clientRecs, server`channels, server`channelRecs, server`channelObjects
    modifies server.clientObjects, server.channelObjects
    ensures server.Valid() && fresh(server.channelObjects - old(server.channelObjects))
    ensures server.State() == IrcState.Create(old(server.State()), fd, n)
  {
    server.AppendNewChannel(fd, n);
    EnterChannel(server, fd, n);
  }

  method Create(server: Server, fd: int, n: string)
    requires server.Valid() && fd in server.clientRecs && n !in server.channelRecs
    modifies server`clientRecs, server`channels, server`channelRecs, server`channelObjects
    modifies server.clientObjects, server.channelObjects
    ensures server.Valid() && fresh(server.channelObjects - old(server.channelObjects))
    ensures server.State() == JoinSpec.CreateAndTell(old(server.State()), fd, n)
  {
    CreateReachable(server.State(), fd, n);
    Found(server, fd, n);
    TellJoin(server, fd, n);
    SayNames(server, fd, n);
  }

  /** The gates of an existing channel, in the order in which they are tried. */
  method Gates(server: Server, fd: int, name: string, key: Option<string>) returns (code: nat)
    requires server.Valid() && name in server.channelRecs
    ensures code == JoinSpec.Refusal(server.channelRecs[name], fd, key)
  {
    var channel := server.channels[name];
    var inside := channel.HasMember(fd);
    if inside {
      return 443;
    }
    if channel.IsOn('k') && key != Some(channel.Key()) {
      return 475;
    }
    if channel.IsOn('i') {
      var invited := channel.HasInvite(fd);
      if !invited {
        return 473;
      }
    }
    if channel.IsOn('l') && |channel.Members()| >= channel.Limit() {
      return 471;
    }
    code := 0;
  }

  method Refuse(server: Server, fd: int, name: string, code: nat)
    requires server.Valid() && fd in server.clientRecs
    modifies server`clientRecs, server.clientObjects
    ensures server.Valid()
    ensures var s := old(server.State()); server.State() == Say(s, fd, JoinSpec.RefusalLine(s, fd, name, code))
  {
    var nick := server.clients[fd].nick;
    server.Send(fd, Numeric(code, if code == 443 then [nick, nick, name] else [nick, name]));
  }

  method JoinExisting(server: Server, fd: int, name: string, key: Option<string>) returns (code: nat)
    requires server.Valid() && Inv(server.State()) && fd in server.clientRecs
    requires JoinSpec.IsChannelName(name) && name in server.channelRecs
    modifies server`clientRecs, server`channelRecs, server.clientObjects, server.channelObjects
    ensures server.Valid() && code == JoinSpec.Refusal(old(server.channelRecs)[name], fd, key)
    ensures server.State() == JoinSpec.JoinOne(old(server.State()), fd, name, key)
  {
    code := Gates(server, fd, name, key);
    if code == 0 {
      EnterReachable(server.State(), fd, name);
      Enter(server, fd, name);
    } else {
      Refuse(server, fd, name, code);
    }
  }

  method JoinChannel(server: Server, fd: int, name: string, key: Option<string>) returns (code: nat)
    requires server.Valid() && Inv(server.State()) && fd in server.clientRecs && JoinSpec.IsChannelName(name)
    modifies server`clientRecs, server`channels, server`channelRecs, server`channelObjects
    modifies server.clientObjects, server.channelObjects
    ensures server.Valid() && fresh(server.channelObjects - old(server.channelObjects))
    ensures server.State() == JoinSpec.JoinOne(old(server.State()), fd, name, key)
    ensures code
      == if name in old(server.channelRecs) then JoinSpec.Refusal(old(server.channelRecs)[name], fd, key) else 0
  {
    if name in server.channels {
      code := JoinExisting(server, fd, name, key);
    } else {
      Create(server, fd, name);
      code := 0;
    }
  }

  method RefuseName(server: Server, fd: int, name: string, key: Option<string>)
    requires server.Valid() && fd in server.clientRecs && !JoinSpec.IsChannelName(name)
    modifies server`clientRecs, server.clientObjects
    ensures server.Valid()
    ensures server.State() == JoinSpec.JoinOne(old(server.State()), fd, name, key)
  {
    Refuse(server, fd, name, 403);
  }

  /** One listed name. A channel that asks for a key ends a command without any. */
  method JoinName(server: Server, fd: int, name: string, key: Option<string>, keyless: bool) returns (more: bool)
    requires server.Valid() && Inv(server.State()) && fd in server.clientRecs && (keyless ==> key.None?)
    modifies server`clientRecs, server`channels, server`channelRecs, server`channelObjects
    modifies server.clientObjects, server.channelObjects
    ensures server.Valid() && fresh(server.channelObjects - old(server.channelObjects))
    ensures server.State() == JoinSpec.JoinOne(old(server.State()), fd, name, key)
    ensures more == !(keyless && JoinSpec.Blocks(old(server.State()), fd, name))
  {
    more := true;
    if name == "" || (name[0] != '#' && name[0] != '&') {
      RefuseName(server, fd, name, key);
    } else {
      var code := JoinChannel(server, fd, name, key);
      more := !(keyless && code == 475);
    }
  }

  // ---- the lists -----------------------------------------------------------

  method SplitNames(cmd: seq<string>) returns (names: seq<string>)
    requires |cmd| >= 2
    ensures names == JoinSpec.Names(cmd)
  {
    if ',' in cmd[1] {
      names := SplitAt(cmd[1], ',');
    } else {
      names := [cmd[1]];
    }
  }

  method SplitKeys(cmd: seq<string>, names: seq<string>) returns (keys: seq<string>)
    requires |cmd| >= 2 && names == JoinSpec.Names(cmd)
    ensures keys == JoinSpec.Keys(cmd)
  {
    keys := [];
    if |names| > 1 {
      if |cmd| >= 3 {
        if cmd[2] == "" {
          keys := [""];
        } else {
          keys := SplitAt(cmd[2], ',');
        }
      }
    } else if |cmd| >= 3 {
      keys := [cmd[2]];
    } else {
      keys := [""];
    }
  }

  /** The lists belong together: a key for each name as far as there are keys, and behind
      the last key only names that are not channels. */
  ghost predicate Lists(names: seq<string>, keys: seq<string>, hasKeys: bool, pairs: seq<Option<string>>) {
    && |pairs| == |names|
    && forall i | 0 <= i < |names| ::
         && pairs[i] == (if hasKeys && i < |keys| then Some(keys[i]) else None)
         && (hasKeys && i >= |keys| ==> !JoinSpec.IsChannelName(names[i]))
  }

  lemma ListsOf(cmd: seq<string>)
    requires |cmd| >= 2 && JoinSpec.JoinDefined(cmd)
    ensures Lists(JoinSpec.Names(cmd), JoinSpec.Keys(cmd), |cmd| > 2, JoinSpec.Paired(cmd))
  {
  }

  /** Where the key cursor stands when the i-th name is tried. */
  predicate CursorAt(hasKeys: bool, count: nat, i: nat, k: nat) {
    k <= count && (hasKeys ==> k == if i < count then i else count)
  }

  /** The cursor moves on with every name; it is stopped at the end only by names
      that are not channels. */
  function Moved(hasKeys: bool, name: string, count: nat, k: nat): nat {
    if JoinSpec.IsChannelName(name) then if hasKeys || k != count then k + 1 else k
    else if hasKeys && k != count then k + 1
    else k
  }

  lemma CursorInBounds(names: seq<string>, keys: seq<string>, hasKeys: bool, pairs: seq<Option<string>>, i: nat, k: nat)
    requires Lists(names, keys, hasKeys, pairs) && i < |names| && CursorAt(hasKeys, |keys|, i, k)
    ensures CursorAt(hasKeys, |keys|, i + 1, Moved(hasKeys, names[i], |keys|, k))
    ensures pairs[i] == if hasKeys && k < |keys| then Some(keys[k]) else None
  {
  }

  ghost predicate Pending(s: State, fd: int) {
    Inv(s) && fd in s.clients && s.clients[fd].Registered()
  }

  lemma StillPending(s: State, fd: int, name: string, key: Option<string>)
    requires Pending(s, fd)
    ensures Pending(JoinSpec.JoinOne(s, fd, name, key), fd)
  {
    JoinSpec.JoinOneEffect(s, fd, name, key);
  }

  /** Name by name: the states of the command, and after which name it ends. */
  ghost predicate StepAt(plan: seq<State>, fd: int, names: seq<string>, pairs: seq<Option<string>>, keyless: bool,
                         i: nat)
    requires |pairs| == |names| && i + 1 < |plan| <= |names| + 1
  {
    && Pending(plan[i], fd) && plan[i + 1] == JoinSpec.JoinOne(plan[i], fd, names[i], pairs[i])
    && (keyless && JoinSpec.Blocks(plan[i], fd, names[i]) ==> i + 2 == |plan|)
    && (i + 2 == |plan| ==> |plan| == |names| + 1 || (keyless && JoinSpec.Blocks(plan[i], fd, names[i])))
  }

  ghost predicate IsPlan(plan: seq<State>, fd: int, names: seq<string>, pairs: seq<Option<string>>, keyless: bool) {
    && |pairs| == |names| && 1 <= |plan| <= |names| + 1 && (names != [] ==> |plan| > 1)
    && forall i: nat | i + 1 < |plan| :: StepAt(plan, fd, names, pairs, keyless, i)
  }

  lemma PlanFirst(s: State, rest: seq<State>, fd: int, names: seq<string>, pairs: seq<Option<string>>, keyless: bool)
    requires names != [] && |pairs| == |names| && Pending(s, fd)
    requires !(keyless && JoinSpec.Blocks(s, fd, names[0]))
    requires IsPlan(rest, fd, names[1..], pairs[1..], keyless)
    requires rest[0] == JoinSpec.JoinOne(s, fd, names[0], pairs[0])
    ensures IsPlan([s] + rest, fd, names, pairs, keyless)
    ensures ([s] + rest)[|rest|] == rest[|rest| - 1]
  {
    var plan := [s] + rest;
    forall i: nat | i + 1 < |plan| ensures StepAt(plan, fd, names, pairs, keyless, i) {
      if i > 0 {
        assert StepAt(rest, fd, names[1..], pairs[1..], keyless, i - 1);
      }
    }
  }

  lemma PlanStops(s: State, t: State, fd: int, names: seq<string>, pairs: seq<Option<string>>, keyless: bool)
    requires names != [] && |pairs| == |names| && Pending(s, fd)
    requires keyless && JoinSpec.Blocks(s, fd, names[0]) && t == JoinSpec.JoinOne(s, fd, names[0], pairs[0])
    ensures IsPlan([s, t], fd, names, pairs, keyless)
  {
  }

  lemma {:induction false} PlanOf(s: State, fd: int, names: seq<string>, pairs: seq<Option<string>>, keyless: bool)
    returns (plan: seq<State>)
    requires |pairs| == |names| && Pending(s, fd)
    ensures IsPlan(plan, fd, names, pairs, keyless) && plan[0] == s
    ensures plan[|plan| - 1] == JoinSpec.JoinAll(s, fd, names, pairs, keyless)
    decreases |names|
  {
    if names == [] {
      plan := [s];
    } else {
      var t := JoinSpec.JoinOne(s, fd, names[0], pairs[0]);
      if keyless && JoinSpec.Blocks(s, fd, names[0]) {
        PlanStops(s, t, fd, names, pairs, keyless);
        plan := [s, t];
      } else {
        StillPending(s, fd, names[0], pairs[0]);
        var rest := PlanOf(t, fd, names[1..], pairs[1..], keyless);
        PlanFirst(s, rest, fd, names, pairs, keyless);
        plan := [s] + rest;
      }
    }
  }

  /** The i-th name with the cursor at k. */
  method JoinNext(server: Server, fd: int, names: seq<string>, keys: seq<string>, hasKeys: bool,
                  ghost pairs: seq<Option<string>>, ghost plan: seq<State>, i: nat, k: nat)
    returns (more: bool, next: nat)
    requires server.Valid() && Lists(names, keys, hasKeys, pairs) && IsPlan(plan, fd, names, pairs, keys == [])
    requires i + 1 < |plan| && server.State() == plan[i] && CursorAt(hasKeys, |keys|, i, k)
    modifies server`clientRecs, server`channels, server`channelRecs, server`channelObjects
    modifies server.clientObjects, server.channelObjects
    ensures server.Valid() && fresh(server.channelObjects - old(server.channelObjects))
    ensures server.State() == plan[i + 1] && CursorAt(hasKeys, |keys|, i + 1, next)
    ensures more && i + 1 < |names| <==> i + 2 < |plan|
  {
    assert StepAt(plan, fd, names, pairs, keys == [], i);
    CursorInBounds(names, keys, hasKeys, pairs, i, k);
    var key := if hasKeys && k < |keys| then Some(keys[k]) else None;
    more := JoinName(server, fd, names[i], key, |keys| == 0);
    next := Moved(hasKeys, names[i], |keys|, k);
  }

  method JoinListed(server: Server, fd: int, names: seq<string>, keys: seq<string>, hasKeys: bool,
                    ghost pairs: seq<Option<string>>, ghost plan: seq<State>)
    requires server.Valid() && Lists(names, keys, hasKeys, pairs) && IsPlan(plan, fd, names, pairs, keys == [])
    requires server.State() == plan[0]
    modifies server`clientRecs, server`channels, server`channelRecs, server`channelObjects
    modifies server.clientObjects, server.channelObjects
    ensures server.Valid() && fresh(server.channelObjects - old(server.channelObjects))
    ensures server.State() == plan[|plan| - 1]
  {
    var i, k, more := 0, 0, true;
    while more && i < |names|
      invariant server.Valid() && fresh(server.channelObjects - old(server.channelObjects))
      invariant i < |plan| && server.State() == plan[i] && CursorAt(hasKeys, |keys|, i, k)
      invariant more && i < |names| <==> i + 1 < |plan|
    {
      more, k := JoinNext(server, fd, names, keys, hasKeys, pairs, plan, i, k);
      i := i + 1;
    }
  }

  /** JOIN is its specification, and the key cursor never leaves the list. */
  method Join(server: Server, fd: int, cmd: seq<string>)
    requires server.Valid() && Pending(server.State(), fd) && (|cmd| >= 2 ==> JoinSpec.JoinDefined(cmd))
    modifies server`clientRecs, server`channels, server`channelRecs, server`channelObjects
    modifies server.clientObjects, server.channelObjects
    ensures server.Valid() && fresh(server.channelObjects - old(server.channelObjects))
    ensures server.State() == JoinSpec.Join(old(server.State()), fd, cmd)
  {
    if |cmd| < 2 {
      server.Send(fd, Numeric(461, []));
      return;
    }
    var names := SplitNames(cmd);
    var keys := SplitKeys(cmd, names);
    ghost var pairs := JoinSpec.Paired(cmd);
    ListsOf(cmd);
    ghost var plan := PlanOf(server.State(), fd, names, pairs, keys == []);
    JoinListed(server, fd, names, keys, |cmd| > 2, pairs, plan);
  }
}
