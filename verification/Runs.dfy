/** Whole runs of the server, from the empty state. */
module Runs {
  import opened Seqs
  import opened IrcState
  import opened Wire
  import QuitSpec
  import ModeSpec
  import opened Protocol
  import opened Relation

  ghost predicate StepAt(states: seq<State>, events: seq<Event>, i: int)
    requires 0 <= i < |events| < |states|
  {
    EventOk(states[i], events[i]) && states[i + 1] == Step(states[i], events[i])
  }

  /** states[i] is the state before event i; the last one is after all of them. */
  ghost predicate IsRun(states: seq<State>, events: seq<Event>) {
    && |states| == |events| + 1
    && states[0] == Initial(states[0].password)
    && forall i | 0 <= i < |events| :: StepAt(states, events, i)
  }

  /** Every reachable state satisfies the invariant. */
  lemma {:induction false} Reachable(states: seq<State>, events: seq<Event>, i: nat)
    requires IsRun(states, events) && i < |states|
    ensures Inv(states[i]) && states[i].password == states[0].password
  {
    if i > 0 {
      Reachable(states, events, i - 1);
      assert StepAt(states, events, i - 1);
      StepGood(states[i - 1], events[i - 1]);
    }
  }

  /** One step of a run, seen from a channel that exists before and after it. */
  lemma ChangeAt(states: seq<State>, events: seq<Event>, k: nat, n: string)
    requires IsRun(states, events) && k < |events|
    requires n in states[k].channels && n in states[k + 1].channels
    ensures LawfulChange(states[k].channels[n], states[k + 1].channels[n], Author(events[k]),
                         VerbIn(states[k], events[k]))
  {
    Reachable(states, events, k);
    assert StepAt(states, events, k);
    StepGood(states[k], events[k]);
  }

  /** One step of a run that creates a channel. */
  lemma CreationAt(states: seq<State>, events: seq<Event>, k: nat, n: string)
    requires IsRun(states, events) && k < |events|
    requires n !in states[k].channels && n in states[k + 1].channels
    ensures IsCommand(states, events, k, Author(events[k]), JOIN)
    ensures states[k + 1].channels[n].operators == [Author(events[k])]
  {
    Reachable(states, events, k);
    assert StepAt(states, events, k);
    StepGood(states[k], events[k]);
  }

  /** One step of a run that makes somebody count as having given the password. */
  lemma PassAt(states: seq<State>, events: seq<Event>, k: nat, fd: int)
    requires IsRun(states, events) && k < |events|
    requires Passed(states[k + 1], fd) && !Passed(states[k], fd)
    ensures Proves(states, events, k, fd)
  {
    Reachable(states, events, k);
    assert StepAt(states, events, k);
    StepGood(states[k], events[k]);
    Reachable(states, events, k + 1);
  }

  // ---- runs by their events ------------------------------------------------

  /** The state after these events. */
  function After(s: State, events: seq<Event>): State
    decreases |events|
  {
    if events == [] then s else After(Step(s, events[0]), events[1..])
  }

  /** Each of the events may happen when it comes. */
  ghost predicate Possible(s: State, events: seq<Event>)
    decreases |events|
  {
    events != [] ==> EventOk(s, events[0]) && Possible(Step(s, events[0]), events[1..])
  }

  lemma {:induction false} AfterBoth(s: State, a: seq<Event>, b: seq<Event>)
    ensures After(s, a + b) == After(After(s, a), b)
    ensures Possible(s, a + b) <==> Possible(s, a) && Possible(After(s, a), b)
    decreases |a|
  {
    if a == [] {
      assert a + b == b;
    } else {
      assert (a + b)[1..] == a[1..] + b;
      AfterBoth(Step(s, a[0]), a[1..], b);
    }
  }

  lemma {:induction false} StatesOf(s: State, events: seq<Event>) returns (states: seq<State>)
    requires Possible(s, events)
    ensures |states| == |events| + 1 && states[0] == s && states[|events|] == After(s, events)
    ensures forall i | 0 <= i < |events| :: StepAt(states, events, i)
    decreases |events|
  {
    if events == [] {
      states := [s];
    } else {
      var rest := StatesOf(Step(s, events[0]), events[1..]);
      states := [s] + rest;
      forall i | 0 <= i < |events| ensures StepAt(states, events, i) {
        assert i > 0 ==> StepAt(rest, events[1..], i - 1);
      }
    }
  }

  /** Events that are possible from the start make a run. */
  lemma RunOf(password: string, events: seq<Event>) returns (states: seq<State>)
    requires Possible(Initial(password), events)
    ensures IsRun(states, events) && states[0] == Initial(password)
    ensures states[|events|] == After(Initial(password), events) && Inv(states[|events|])
  {
    states := StatesOf(Initial(password), events);
    Reachable(states, events, |events|);
  }

  /** A run passes through the states its first events lead to. */
  lemma {:induction false} RunPrefix(states: seq<State>, events: seq<Event>, first: seq<Event>)
    requires IsRun(states, events) && first <= events
    ensures states[|first|] == After(states[0], first)
    decreases |first|
  {
    if first != [] {
      var front, last := first[..|first| - 1], first[|first| - 1];
      assert first == front + [last];
      RunPrefix(states, events, front);
      assert StepAt(states, events, |front|);
      AfterBoth(states[0], front, [last]);
      assert [last][1..] == [] && After(Step(states[|front|], last), []) == Step(states[|front|], last);
    }
  }

  // ---- who runs a channel --------------------------------------------------

  /** How somebody came to run a channel: by founding it in step `step`, or by a
      MODE in step `step` from somebody who came to run it by `before`. */
  datatype Chain = Founded(step: nat, who: int) | Granted(step: nat, who: int, before: Chain)
  {
    function Root(): nat {
      if Founded? then step else before.Root()
    }
  }

  ghost predicate IsCommand(states: seq<State>, events: seq<Event>, k: nat, fd: int, verb: Verb)
    requires k < |events| < |states|
  {
    events[k].Message? && events[k].fd == fd && VerbIn(states[k], events[k]) == verb
  }

  /** The chain is what it says: each link is the step that made its client operator,
      by MODE with the words that ask for it, from somebody who had stayed operator
      since its own link; the first one is the JOIN that created the channel. */
  ghost predicate Explains(states: seq<State>, events: seq<Event>, n: string, c: Chain)
    requires |events| < |states|
    decreases c
  {
    && c.step < |events|
    && IsOperator(states[c.step + 1], c.who, n) && !IsOperator(states[c.step], c.who, n)
    && match c
       case Founded(k, g) =>
         n !in states[k].channels && IsCommand(states, events, k, g, JOIN)
       case Granted(k, g, before) =>
         && Grants(states, events, k, before.who, g, n) && IsMember(states[k], g, n)
         && before.step < k && StaysOperator(states, before.who, n, before.step + 1, k)
         && Explains(states, events, n, before)
  }

  /** Step k is a MODE from f on this channel whose words ask for g to be made operator. */
  ghost predicate Grants(states: seq<State>, events: seq<Event>, k: nat, f: int, g: int, n: string)
    requires k < |events| < |states|
  {
    var cmd := Command(states[k], events[k]);
    && IsCommand(states, events, k, f, MODE)
    && |cmd| > 1 && cmd[1] == n && ModeSpec.Orders(states[k].clients, cmd, '+', g)
  }

  ghost predicate StaysOperator(states: seq<State>, g: int, n: string, i: nat, j: nat)
    requires j < |states|
  {
    forall m | i <= m <= j :: IsOperator(states[m], g, n)
  }

  ghost predicate Persists(states: seq<State>, n: string, i: nat, j: nat)
    requires j < |states|
  {
    forall k | i <= k <= j :: n in states[k].channels
  }

  lemma PersistsOn(states: seq<State>, n: string, i: nat, j: nat)
    requires 0 < j < |states| && Persists(states, n, i, j - 1) && n in states[j].channels
    ensures Persists(states, n, i, j)
  {
  }

  lemma OrdersAgree(s: State, t: State, cmd: seq<string>, sign: char, g: int)
    requires OnlyOutput(s, t) && ModeSpec.Orders(t.clients, cmd, sign, g)
    ensures ModeSpec.Orders(s.clients, cmd, sign, g)
  {
    var i: nat :| ModeSpec.FIRST_PARAMETER <= i < |cmd| &&
                  var target := Find(t.clients, cmd[i]); target.Some? && t.clients[target.value].fd == g;
    assert forall h | h in s.clients :: Quiet(s.clients[h], t.clients[h]);
    FindAgrees(s.clients, t.clients, cmd[i]);
    ModeSpec.NamedByParameter(s.clients, cmd, i);
  }

  /** Who becomes operator of a channel that exists is a member, made so by MODE from
      an operator, with the words that ask for it. */
  lemma GrantAt(states: seq<State>, events: seq<Event>, k: nat, n: string, g: int)
    requires IsRun(states, events) && k < |events| && n in states[k].channels
    requires IsOperator(states[k + 1], g, n) && !IsOperator(states[k], g, n)
    ensures Grants(states, events, k, Author(events[k]), g, n)
    ensures IsOperator(states[k], Author(events[k]), n) && IsMember(states[k], g, n)
  {
    ChangeAt(states, events, k, n);
    assert StepAt(states, events, k);
    Reachable(states, events, k);
    var s, e := states[k], events[k];
    StepMoves(s, e);
    var m := Hold(s, e.fd, Intake(Pending(s, e.fd), e.text).0);
    assert Appoints(m, e.fd, VerbIn(s, e), Command(s, e), n);
    assert AppointsByWords(m, states[k + 1], e.fd, Command(s, e), g, n);
    OrdersAgree(s, m, Command(s, e), '+', g);
  }

  /** Everybody who runs a channel got there by a finite chain of grants, each made by
      somebody who was operator from its own link on to somebody who was a member,
      that begins with the client whose JOIN created the channel; the channel has
      existed, and the client has run it, ever since. */
  lemma {:induction false} Provenance(states: seq<State>, events: seq<Event>, i: nat, g: int, n: string)
    returns (c: Chain)
    requires IsRun(states, events) && i < |states| && IsOperator(states[i], g, n)
    ensures Explains(states, events, n, c) && c.who == g && c.step < i
    ensures StaysOperator(states, g, n, c.step + 1, i)
    ensures Persists(states, n, c.Root() + 1, i) && c.Root() < i
  {
    if IsOperator(states[i - 1], g, n) {
      c := Provenance(states, events, i - 1, g, n);
      PersistsOn(states, n, c.Root() + 1, i);
    } else if n !in states[i - 1].channels {
      CreationAt(states, events, i - 1, n);
      c := Founded(i - 1, g);
    } else {
      GrantAt(states, events, i - 1, n, g);
      var before := Provenance(states, events, i - 1, Author(events[i - 1]), n);
      c := Granted(i - 1, g, before);
      assert c.Root() == before.Root();
      PersistsOn(states, n, before.Root() + 1, i);
    }
  }

  // ---- what cannot happen behind the operators' backs ----------------------

  /** Step k is this command from somebody who runs the channel. */
  ghost predicate ByOperator(states: seq<State>, events: seq<Event>, k: nat, n: string, verb: Verb)
    requires k < |events| < |states|
  {
    VerbIn(states[k], events[k]) == verb && IsOperator(states[k], Author(events[k]), n)
  }

  /** The channel is +t, and step k is not TOPIC from one of its operators. */
  ghost predicate Guarded(states: seq<State>, events: seq<Event>, k: nat, n: string)
    requires k < |events| < |states|
  {
    ChannelAt(states[k], n).topicOn && !ByOperator(states, events, k, n, TOPIC)
  }

  /** Flags, key and limit are the same, and nobody has become operator. */
  ghost predicate SameRule(c: ChannelRec, d: ChannelRec) {
    SameModes(c, d) && forall g | g in d.operators :: g in c.operators
  }

  lemma RuleAt(states: seq<State>, events: seq<Event>, k: nat, n: string)
    requires IsRun(states, events) && k < |events|
    requires n in states[k].channels && n in states[k + 1].channels
    ensures !ByOperator(states, events, k, n, MODE) ==> SameRule(states[k].channels[n], states[k + 1].channels[n])
    ensures Guarded(states, events, k, n) ==>
              states[k + 1].channels[n].topic == states[k].channels[n].topic
  {
    ChangeAt(states, events, k, n);
  }

  /** While a channel exists and none of its operators sends MODE, its flags, key
      and limit stay as they are and nobody becomes operator. */
  lemma {:induction false} ModesOnlyByOperators(states: seq<State>, events: seq<Event>, n: string, i: nat, j: nat)
    requires IsRun(states, events) && i <= j < |states| && Persists(states, n, i, j)
    requires forall k | i <= k < j :: !ByOperator(states, events, k, n, MODE)
    ensures SameRule(states[i].channels[n], states[j].channels[n])
  {
    if i < j {
      ModesOnlyByOperators(states, events, n, i, j - 1);
      RuleAt(states, events, j - 1, n);
    }
  }

  /** While a channel stays +t its topic changes only by TOPIC from an operator. */
  lemma {:induction false} TopicOnlyByOperators(states: seq<State>, events: seq<Event>, n: string, i: nat, j: nat)
    requires IsRun(states, events) && i <= j < |states| && Persists(states, n, i, j)
    requires forall k | i <= k < j :: Guarded(states, events, k, n)
    ensures states[j].channels[n].topic == states[i].channels[n].topic
  {
    if i < j {
      TopicOnlyByOperators(states, events, n, i, j - 1);
      RuleAt(states, events, j - 1, n);
    }
  }

  /** While a channel is +l with one limit it does not grow beyond that limit, or
      beyond the size it had when the limit was set. */
  lemma {:induction false} LimitHolds(states: seq<State>, events: seq<Event>, n: string, limit: nat, i: nat, j: nat)
    requires IsRun(states, events) && i <= j < |states| && Persists(states, n, i, j)
    requires forall k | i <= k <= j :: states[k].channels[n].limitOn && states[k].channels[n].limit == limit
    ensures |states[j].channels[n].members| <= limit
         || |states[j].channels[n].members| <= |states[i].channels[n].members|
  {
    if i < j {
      LimitHolds(states, events, n, limit, i, j - 1);
      ChangeAt(states, events, j - 1, n);
    }
  }

  // ---- the password --------------------------------------------------------

  /** Event k is the PASS by which fd proved that it knows the password. */
  ghost predicate Proves(states: seq<State>, events: seq<Event>, k: nat, fd: int)
    requires k < |events| < |states|
  {
    IsCommand(states, events, k, fd, PASS) &&
    var cmd := Command(states[k], events[k]);
    |cmd| >= 2 && cmd[1] == states[0].password
  }

  lemma {:induction false} LastRise(flags: seq<bool>) returns (k: nat)
    requires |flags| > 0 && !flags[0] && flags[|flags| - 1]
    ensures k < |flags| - 1 && !flags[k] && forall m | k < m < |flags| :: flags[m]
    decreases |flags|
  {
    var i := |flags| - 1;
    if flags[i - 1] {
      k := LastRise(flags[..i]);
      assert forall m | k < m < i :: flags[..i][m];
    } else {
      k := i - 1;
    }
  }

  predicate Passed(s: State, fd: int) {
    fd in s.clients && s.clients[fd].passOk
  }

  /** Who counts as having given the password sent it, on this very connection:
      the client has been there ever since. */
  lemma PasswordGiven(states: seq<State>, events: seq<Event>, i: nat, fd: int) returns (k: nat)
    requires IsRun(states, events) && i < |states| && Passed(states[i], fd)
    ensures k < i && Proves(states, events, k, fd)
    ensures forall m | k < m <= i :: Passed(states[m], fd)
  {
    var flags := seq(i + 1, m requires 0 <= m <= i => Passed(states[m], fd));
    k := LastRise(flags);
    assert !flags[k] && flags[k + 1];
    PassAt(states, events, k, fd);
    forall m | k < m <= i ensures Passed(states[m], fd) {
      assert flags[m];
    }
  }

  /** A member of a channel has completed PASS, NICK and USER, and gave the server's
      password; so a client that can still be erased for not having done so is in
      no channel. */
  lemma MembersGaveThePassword(states: seq<State>, events: seq<Event>, i: nat, g: int, n: string) returns (k: nat)
    requires IsRun(states, events) && i < |states| && IsMember(states[i], g, n)
    ensures g in states[i].clients && states[i].clients[g].Registered()
    ensures k < i && Proves(states, events, k, g)
  {
    Reachable(states, events, i);
    CopiesAgree(states[i]);
    k := PasswordGiven(states, events, i, g);
  }

  // ---- channels without members --------------------------------------------

  ghost predicate Populated(s: State) {
    forall n | n in s.channels :: s.channels[n].members != []
  }

  /** The event loses a connection that was alone in some channel. */
  ghost predicate Deserts(s: State, e: Event) {
    (e.Hangup? || e.Closed?) && e.fd in s.clients && exists n | n in s.channels :: s.channels[n].members == [e.fd]
  }

  /** A step leaves every channel populated exactly when it does not lose the
      connection of somebody who was alone in a channel. */
  lemma PopulatedIff(s: State, e: Event)
    requires Inv(s) && EventOk(s, e) && Populated(s)
    ensures Populated(Step(s, e)) <==> !Deserts(s, e)
  {
    StepGood(s, e);
    var t := Step(s, e);
    if (e.Hangup? || e.Closed?) && e.fd in s.clients {
      QuitSpec.DisconnectEmpties(s, e.fd);
      var d := QuitSpec.Disconnect(s, e.fd);
      assert d.channels == t.channels;
      assert Populated(t) <==> EmptiesNone(s, d);
    } else {
      assert EmptiesNone(s, t);
    }
  }

  /** No command ever leaves a channel without members. */
  lemma {:induction false} ChannelsArePopulated(states: seq<State>, events: seq<Event>, i: nat)
    requires IsRun(states, events) && i < |states|
    requires forall k | 0 <= k < i :: !Deserts(states[k], events[k])
    ensures Populated(states[i])
  {
    if i > 0 {
      ChannelsArePopulated(states, events, i - 1);
      Reachable(states, events, i - 1);
      assert StepAt(states, events, i - 1);
      PopulatedIff(states[i - 1], events[i - 1]);
    }
  }

  // ---- nicknames -----------------------------------------------------------

  /** In every reachable state two clients have the same nickname only if it is `*`
      and one of them has not chosen yet; any other nickname finds its owner. */
  lemma NicknamesIdentify(states: seq<State>, events: seq<Event>, i: nat, f: int, g: int)
    requires IsRun(states, events) && i < |states|
    requires f in states[i].clients && g in states[i].clients
    ensures var a, b := states[i].clients[f], states[i].clients[g];
      && (f != g && a.nick == b.nick ==> a.nick == "*" && !(a.nickOk && b.nickOk))
      && (a.nick != "*" ==> Find(states[i].clients, a.nick) == Some(f))
      && (a.nickOk ==> ValidNick(a.nick))
  {
    Reachable(states, events, i);
    assert ClientOk(states[i], f);
    if states[i].clients[f].nick != "*" {
      FindIsUnique(states[i], f);
    }
  }
}
