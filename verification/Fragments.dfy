/** Lines that arrive in pieces, alone or with other clients' events in between. */
module Fragments {
  import opened Seqs
  import opened IrcState
  import opened Wire
  import PassSpec
  import UserSpec
  import NickSpec
  import PartSpec
  import KickSpec
  import QuitSpec
  import JoinSpec
  import ModeSpec
  import TopicSpec
  import InviteSpec
  import PrivmsgSpec
  import opened Protocol
  import Runs

  // ---- pieces one after the other ------------------------------------------

  function Feed(s: State, fd: int, pieces: seq<string>): State
    decreases |pieces|
  {
    if pieces == [] then s else Feed(Step(s, Message(fd, pieces[0])), fd, pieces[1..])
  }

  lemma HoldTwice(s: State, fd: int, a: Buffer, b: Buffer)
    requires fd in s.clients
    ensures Hold(Hold(s, fd, a), fd, b) == Hold(s, fd, b)
  {
    assert Hold(Hold(s, fd, a), fd, b).clients == Hold(s, fd, b).clients;
  }

  lemma FragmentIsHeld(s: State, fd: int, f: string)
    requires fd in s.clients && IsFragment(f)
    ensures Step(s, Message(fd, f)) == Hold(s, fd, Buffer(s.clients[fd].held + f, true))
  {
  }

  /** The last piece brings the whole line to execution. */
  lemma LastPiece(s: State, fd: int, last: string)
    requires fd in s.clients && (s.clients[fd].partial || s.clients[fd].held == "")
    requires IsPlainLine(last)
    requires IsPlainLine(s.clients[fd].held + last)
    ensures Step(s, Message(fd, last))
         == Step(Hold(s, fd, Buffer("", false)), Message(fd, s.clients[fd].held + last))
  {
    var c := s.clients[fd];
    var whole, clean := c.held + last, Hold(s, fd, Buffer("", false));
    assert '\n' in whole;
    assert c.partial || whole == last;
    assert Intake(Pending(s, fd), last) == (Buffer("", false), Ready(Words(whole)));
    assert Intake(Pending(clean, fd), whole) == (Buffer("", false), Ready(Words(whole)));
    HoldTwice(s, fd, Buffer("", false), Buffer("", false));
  }

  /** However a line is cut up on its way, the server ends in the state it would
      reach had the line arrived whole. */
  lemma {:induction false} FragmentsMakeNoDifference(s: State, fd: int, fragments: seq<string>, last: string)
    requires fd in s.clients && (s.clients[fd].partial || s.clients[fd].held == "")
    requires forall f | f in fragments :: IsFragment(f)
    requires IsPlainLine(last)
    requires IsPlainLine(s.clients[fd].held + Concat(fragments) + last)
    ensures var whole := s.clients[fd].held + Concat(fragments) + last;
      Feed(s, fd, fragments + [last]) == Step(Hold(s, fd, Buffer("", false)), Message(fd, whole))
    decreases |fragments|
  {
    var held := s.clients[fd].held;
    if fragments == [] {
      assert fragments + [last] == [last] && [last][1..] == [];
      assert held + Concat(fragments) + last == held + last;
      LastPiece(s, fd, last);
      assert Feed(Step(s, Message(fd, last)), fd, []) == Step(s, Message(fd, last));
    } else {
      var f := fragments[0];
      FragmentIsHeld(s, fd, f);
      var m := Hold(s, fd, Buffer(held + f, true));
      assert (fragments + [last])[1..] == fragments[1..] + [last];
      assert m.clients[fd].held + Concat(fragments[1..]) + last == held + Concat(fragments) + last;
      FragmentsMakeNoDifference(m, fd, fragments[1..], last);
      HoldTwice(s, fd, Buffer(held + f, true), Buffer("", false));
    }
  }

  // ---- what others do to a half-received line ------------------------------

  /** Nobody but fd goes, or has its half-received line changed. */
  ghost predicate Bystanders(s: State, t: State, fd: int) {
    forall g | g in s.clients && g != fd ::
      g in t.clients && t.clients[g].held == s.clients[g].held && t.clients[g].partial == s.clients[g].partial
  }

  lemma {:induction false} PartBystanders(s: State, fd: int, names: seq<string>, reason: string)
    ensures Bystanders(s, PartSpec.PartAll(s, fd, names, reason), fd)
    decreases |names|
  {
    if names != [] {
      var m := PartSpec.PartOne(s, fd, names[0], reason);
      assert Bystanders(s, m, fd);
      PartBystanders(m, fd, names[1..], reason);
    }
  }

  lemma KickOneBystanders(s: State, fd: int, name: string, nick: string, extra: seq<string>)
    ensures Bystanders(s, KickSpec.KickOne(s, fd, name, nick, extra).0, fd)
  {
  }

  lemma {:induction false} KickBystanders(s: State, fd: int, names: seq<string>, nicks: seq<string>, extra: seq<string>)
    ensures Bystanders(s, KickSpec.KickAll(s, fd, names, nicks, extra), fd)
    decreases |names|
  {
    if names != [] && nicks != [] {
      KickOneBystanders(s, fd, names[0], nicks[0], extra);
      KickBystanders(KickSpec.KickOne(s, fd, names[0], nicks[0], extra).0, fd, names[1..], nicks[1..], extra);
    }
  }

  lemma EnterBystanders(s: State, fd: int, name: string)
    ensures Bystanders(s, JoinSpec.EnterAndTell(s, fd, name), fd)
  {
  }

  lemma CreateBystanders(s: State, fd: int, name: string)
    ensures Bystanders(s, JoinSpec.CreateAndTell(s, fd, name), fd)
  {
  }

  lemma JoinOneBystanders(s: State, fd: int, name: string, key: Option<string>)
    ensures Bystanders(s, JoinSpec.JoinOne(s, fd, name, key), fd)
  {
    EnterBystanders(s, fd, name);
    CreateBystanders(s, fd, name);
  }

  lemma {:induction false} JoinBystanders(s: State, fd: int, names: seq<string>, keys: seq<Option<string>>,
                                          keyless: bool)
    requires |names| == |keys|
    ensures Bystanders(s, JoinSpec.JoinAll(s, fd, names, keys, keyless), fd)
    decreases |names|
  {
    if names != [] {
      JoinOneBystanders(s, fd, names[0], keys[0]);
      JoinBystanders(JoinSpec.JoinOne(s, fd, names[0], keys[0]), fd, names[1..], keys[1..], keyless);
    }
  }

  lemma {:induction false} PrivmsgBystanders(s: State, fd: int, targets: seq<string>, text: string)
    ensures Bystanders(s, PrivmsgSpec.SendAll(s, fd, targets, text), fd)
    decreases |targets|
  {
    if targets != [] {
      var m := PrivmsgSpec.SendOne(s, fd, targets[0], text).0;
      assert Bystanders(s, m, fd);
      PrivmsgBystanders(m, fd, targets[1..], text);
    }
  }

  lemma ListBystanders(s: State, fd: int, cmd: seq<string>)
    ensures Bystanders(s, PartSpec.Part(s, fd, cmd), fd)
    ensures Bystanders(s, KickSpec.Kick(s, fd, cmd), fd)
    ensures Bystanders(s, QuitSpec.Quit(s, fd, cmd), fd)
    ensures Bystanders(s, JoinSpec.Join(s, fd, cmd), fd)
    ensures Bystanders(s, PrivmsgSpec.Privmsg(s, fd, cmd), fd)
  {
    if |cmd| >= 2 {
      PartBystanders(s, fd, Split(cmd[1], ','), ChannelMessage(2, cmd));
      JoinBystanders(s, fd, JoinSpec.Names(cmd), JoinSpec.Paired(cmd), JoinSpec.Keys(cmd) == []);
    }
    if |cmd| >= 3 {
      KickBystanders(s, fd, Split(cmd[1], ','), Split(cmd[2], ','), cmd[3..]);
      PrivmsgBystanders(s, fd, Split(cmd[1], ','), ChannelMessage(2, cmd));
    }
  }

  lemma ModeBystanders(s: State, fd: int, cmd: seq<string>)
    ensures Bystanders(s, ModeSpec.Mode(s, fd, cmd), fd)
  {
  }

  lemma TopicBystanders(s: State, fd: int, cmd: seq<string>)
    ensures Bystanders(s, TopicSpec.Topic(s, fd, cmd), fd)
    ensures Bystanders(s, InviteSpec.Invite(s, fd, cmd), fd)
  {
  }

  lemma SelfBystanders(s: State, fd: int, cmd: seq<string>)
    ensures Bystanders(s, PassSpec.Pass(s, fd, cmd), fd)
    ensures Bystanders(s, UserSpec.User(s, fd, cmd), fd)
    ensures Bystanders(s, NickSpec.Nick(s, fd, cmd), fd)
  {
  }

  lemma SignUpBystanders(s: State, fd: int, verb: Verb, cmd: seq<string>)
    ensures Bystanders(s, SignUp(s, fd, verb, cmd), fd)
  {
    SelfBystanders(s, fd, cmd);
  }

  lemma SignInBystanders(s: State, fd: int, verb: Verb, cmd: seq<string>)
    ensures Bystanders(s, SignIn(s, fd, verb, cmd), fd)
  {
    match verb
    case PASS | NICK | USER => SelfBystanders(s, fd, cmd);
    case PART | KICK | QUIT | JOIN | PRIVMSG => ListBystanders(s, fd, cmd);
    case MODE => ModeBystanders(s, fd, cmd);
    case TOPIC | INVITE => TopicBystanders(s, fd, cmd);
    case _ =>
  }

  lemma ExecuteBystanders(s: State, fd: int, cmd: seq<string>)
    ensures Bystanders(s, Execute(s, fd, cmd), fd)
  {
    SignUpBystanders(s, fd, Head(cmd), cmd);
    SignInBystanders(s, fd, Head(cmd), cmd);
  }

  /** The event is not the loss of this connection, and if it is a message from it,
      then one of the pieces. */
  ghost predicate LeavesOpen(e: Event, fd: int) {
    && (e.Message? && e.fd == fd ==> IsFragment(e.text))
    && (e.Hangup? || e.Closed? ==> e.fd != fd)
  }

  lemma OthersLeaveHeld(s: State, e: Event, fd: int)
    requires fd in s.clients && LeavesOpen(e, fd) && !(e.Message? && e.fd == fd)
    ensures var t := Step(s, e);
      fd in t.clients && t.clients[fd].held == s.clients[fd].held && t.clients[fd].partial == s.clients[fd].partial
  {
    if e.Message? {
      var (b, outcome) := Intake(Pending(s, e.fd), e.text);
      var m := Hold(s, e.fd, b);
      assert Bystanders(s, m, e.fd);
      if outcome.Ready? {
        ExecuteBystanders(m, e.fd, outcome.words);
      }
    }
  }

  /** What fd sends in one event, and in several. */
  function SentIn(e: Event, fd: int): string {
    if e.Message? && e.fd == fd then e.text else ""
  }

  function Sent(events: seq<Event>, fd: int): string {
    if events == [] then "" else SentIn(events[0], fd) + Sent(events[1..], fd)
  }

  /** What is held is what is pending; without a pending fragment it is nothing. */
  ghost predicate Holds(s: State, fd: int, text: string) {
    fd in s.clients && s.clients[fd].held == text && (s.clients[fd].partial || text == "")
  }

  lemma HeldStep(s: State, e: Event, fd: int, text: string)
    requires Holds(s, fd, text) && LeavesOpen(e, fd)
    ensures Holds(Step(s, e), fd, text + SentIn(e, fd))
  {
    if e.Message? && e.fd == fd {
      FragmentIsHeld(s, fd, e.text);
    } else {
      OthersLeaveHeld(s, e, fd);
    }
  }

  lemma SentRest(events: seq<Event>, fd: int, text: string)
    requires events != []
    ensures text + SentIn(events[0], fd) + Sent(events[1..], fd) == text + Sent(events, fd)
  {
    assert text + SentIn(events[0], fd) + Sent(events[1..], fd)
        == text + (SentIn(events[0], fd) + Sent(events[1..], fd));
  }

  /** No event of the list closes the line. */
  ghost predicate AllLeaveOpen(events: seq<Event>, fd: int) {
    forall i | 0 <= i < |events| :: LeavesOpen(events[i], fd)
  }

  lemma {:induction false} HeldAfter(s: State, events: seq<Event>, fd: int, text: string)
    requires Holds(s, fd, text) && AllLeaveOpen(events, fd)
    ensures Holds(Runs.After(s, events), fd, text + Sent(events, fd))
    decreases |events|
  {
    if events != [] {
      var e, rest := events[0], events[1..];
      SentRest(events, fd, text);
      HeldStep(s, e, fd, text);
      var t := Step(s, e);
      HeldAfter(t, rest, fd, text + SentIn(e, fd));
    }
  }

  /** Whatever else happens between the pieces of a line, commands of others and new
      or lost connections included, the piece that ends the line has the effect the
      whole line would have in its place. */
  lemma InterleavedFragments(s: State, fd: int, events: seq<Event>, last: string)
    requires fd in s.clients && (s.clients[fd].partial || s.clients[fd].held == "")
    requires AllLeaveOpen(events, fd)
    requires IsPlainLine(last)
    requires IsPlainLine(s.clients[fd].held + Sent(events, fd) + last)
    ensures var t, whole := Runs.After(s, events), s.clients[fd].held + Sent(events, fd) + last;
      && fd in t.clients
      && Step(t, Message(fd, last)) == Step(Hold(t, fd, Buffer("", false)), Message(fd, whole))
  {
    HeldAfter(s, events, fd, s.clients[fd].held);
    LastPiece(Runs.After(s, events), fd, last);
  }
}
