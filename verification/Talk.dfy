/** TOPIC, INVITE and PRIVMSG. */
module TopicSpec {
  import opened IrcState
  import opened Wire

  /** A lone colon empties the topic, whatever follows it. */
  function NewTopic(cmd: seq<string>): string
    requires |cmd| > 2
  {
    var joined := JoinWords(cmd[2..]);
    if cmd[2] == ":" then ""
    else if joined != "" && joined[0] == ':' then joined[1..]
    else joined
  }

  function SetTopic(s: State, fd: int, name: string, topic: string): State {
    var t := PutChannel(s, name, ChannelAt(s, name).(topic := topic));
    Tell(t, ChannelAt(s, name).members, Relay(ServerOrigin, TOPIC, [name, topic]))
  }

  /** The one line the issuer gets when the topic stays as it is. */
  function Answer(s: State, fd: int, cmd: seq<string>): Reply {
    var me := Who(s, fd).nick;
    if |cmd| < 2 then Numeric(461, [])
    else if cmd[1] !in s.channels then Numeric(403, [me, cmd[1]])
    else
      var c := s.channels[cmd[1]];
      if fd !in c.members then Numeric(442, [me, cmd[1]])
      else if |cmd| > 2 then Numeric(482, [me, cmd[1]])
      else if c.topic == "" then Numeric(331, [me, cmd[1]])
      else Numeric(332, [me, cmd[1], c.topic])
  }

  function Topic(s: State, fd: int, cmd: seq<string>): State {
    if Retitles(s, fd, cmd) then SetTopic(s, fd, cmd[1], NewTopic(cmd)) else Say(s, fd, Answer(s, fd, cmd))
  }

  /** These words change the topic: from a member, and under +t from an operator. */
  predicate Retitles(s: State, fd: int, cmd: seq<string>) {
    |cmd| > 2 && IsMember(s, fd, cmd[1]) && (s.channels[cmd[1]].topicOn ==> IsOperator(s, fd, cmd[1]))
  }

  lemma SetTopicEffect(s: State, fd: int, name: string, topic: string)
    requires Inv(s) && name in s.channels
    ensures var t := SetTopic(s, fd, name, topic);
      && Inv(t) && t.password == s.password && SamePass(s, t) && t.clients.Keys == s.clients.Keys
      && t.channels == s.channels[name := s.channels[name].(topic := topic)]
  {
    assert ChannelOk(s, name);
    var c := s.channels[name].(topic := topic);
    ChannelKeepsInv(s, name, c);
    TellKeepsInv(PutChannel(s, name, c), c.members, Relay(ServerOrigin, TOPIC, [name, topic]));
  }

  /** From the wire to the store: the topic is the text that was sent, exactly when the
      text is empty or does not begin with a space. */
  lemma TopicRoundTrip(verb: string, name: string, text: string)
    requires ' ' !in verb && ' ' !in name
    requires forall c | c in text :: !IsEol(c)
    ensures var words := Words(verb + " " + name + " :" + text + "\r\n");
      && |words| >= 3 && words[1] == StripEol(name)
      && (NewTopic(words) == text <==> text == "" || text[0] != ' ')
  {
    TrailingWords(verb, name, text);
    LoneColon(":" + text);
    assert (":" + text)[1..] == text;
  }

  /** The first word is a colon alone when nothing or a space follows it. */
  lemma LoneColon(body: string)
    requires body != "" && body[0] == ':' && forall c | c in body :: !IsEol(c)
    ensures var pieces := StripAll(Split(body + "\r\n", ' '));
      pieces != [] && (pieces[0] == ":" <==> body == ":" || body[1] == ' ')
  {
    var i := IndexOf(body, ' ');
    if i == |body| {
      OnePiece(body);
      assert |body| > 1 ==> body[1] in body;
    } else {
      var w, rest := body[..i], body[i + 1..];
      assert body + "\r\n" == w + [' '] + (rest + "\r\n");
      SplitHead(w, ' ', rest + "\r\n");
      StripClean(w);
    }
  }

  /** Whoever may set the topic stores the text as it was sent, if it does not begin
      with a space; otherwise the topic is emptied, whatever the text. */
  lemma TopicStored(s: State, fd: int, name: string, text: string)
    requires ' ' !in name && (forall c | c in name + text :: !IsEol(c)) && text != ""
    requires IsMember(s, fd, name) && (s.channels[name].topicOn ==> IsOperator(s, fd, name))
    ensures var t := Topic(s, fd, Words("TOPIC" + " " + name + " :" + text + "\r\n"));
      name in t.channels && t.channels[name].topic == if text[0] == ' ' then "" else text
  {
    var words := Words("TOPIC" + " " + name + " :" + text + "\r\n");
    TopicRoundTrip("TOPIC", name, text);
    StripClean(name);
    if text[0] == ' ' {
      SpaceEmpties("TOPIC", name, text);
    }
  }

  lemma SpaceEmpties(verb: string, name: string, text: string)
    requires ' ' !in verb && ' ' !in name
    requires (forall c | c in text :: !IsEol(c)) && text != "" && text[0] == ' '
    ensures var words := Words(verb + " " + name + " :" + text + "\r\n");
      |words| >= 3 && NewTopic(words) == ""
  {
    TrailingWords(verb, name, text);
    LoneColon(":" + text);
  }

  /** Every member is told the new topic once, the one who set it included, and
      nobody else hears of it; a refusal is heard by the issuer alone. */
  lemma TopicTells(s: State, fd: int, cmd: seq<string>)
    requires Inv(s) && fd in s.clients
    ensures var t := Topic(s, fd, cmd);
      && t.clients.Keys == s.clients.Keys
      && forall g | g in s.clients :: t.clients[g].out == s.clients[g].out +
           if Retitles(s, fd, cmd)
           then if IsMember(s, g, cmd[1]) then [Relay(ServerOrigin, TOPIC, [cmd[1], t.channels[cmd[1]].topic])] else []
           else if g == fd then [Answer(s, fd, cmd)] else []
  {
  }

  /** The topic is the text after the colon exactly for those who may set it. */
  lemma TopicByPermitted(s: State, fd: int, cmd: seq<string>)
    requires Inv(s) && fd in s.clients
    ensures var t := Topic(s, fd, cmd);
      && Inv(t) && t.password == s.password && SamePass(s, t) && t.clients.Keys == s.clients.Keys
      && t.channels == if Retitles(s, fd, cmd)
                       then s.channels[cmd[1] := s.channels[cmd[1]].(topic := NewTopic(cmd))] else s.channels
  {
    if Retitles(s, fd, cmd) {
      SetTopicEffect(s, fd, cmd[1], NewTopic(cmd));
    } else {
      SayKeepsInv(s, fd, Answer(s, fd, cmd));
    }
  }
}

module InviteSpec {
  import opened Seqs
  import opened IrcState
  import JoinSpec

  /** The first reason to refuse, as the error line, if there is one. Rights are
      looked up under the descriptor the client record stores. */
  function Refusal(s: State, fd: int, cmd: seq<string>): Option<Reply> {
    var me := Who(s, fd);
    if |cmd| < 3 then Some(Numeric(461, []))
    else
      var target := Find(s.clients, cmd[1]);
      if target.None? then Some(Numeric(401, [me.nick, cmd[1]]))
      else if cmd[2] !in s.channels then Some(Numeric(403, [me.nick, cmd[2]]))
      else
        var c := s.channels[cmd[2]];
        if me.fd !in c.members then Some(Numeric(442, [me.nick, cmd[2]]))
        else if me.fd !in c.operators then Some(Numeric(482, [me.nick, cmd[2]]))
        else if s.clients[target.value].fd in c.members then Some(Numeric(443, [me.nick, cmd[1], cmd[2]]))
        else None
  }

  function Summon(s: State, fd: int, target: int, nick: string, name: string): State {
    var t := Say(s, target, Relay(NickOrigin(Who(s, fd).nick), INVITE, [Who(s, target).nick, name]));
    var u := Say(t, fd, Numeric(341, [Who(s, fd).nick, nick, name]));
    PutChannel(u, name, ChannelAt(s, name).(invites := Add(ChannelAt(s, name).invites, Who(s, target).fd)))
  }

  function Invite(s: State, fd: int, cmd: seq<string>): State {
    var refusal := Refusal(s, fd, cmd);
    if refusal.Some? then Say(s, fd, refusal.value)
    else Summon(s, fd, Find(s.clients, cmd[1]).value, cmd[1], cmd[2])
  }

  /** Who may invite stores its own descriptor. */
  lemma InviterRuns(s: State, fd: int, cmd: seq<string>)
    requires Inv(s) && fd in s.clients && Refusal(s, fd, cmd).None?
    ensures IsOperator(s, fd, cmd[2]) && s.clients[fd].fd == fd
  {
    assert ChannelOk(s, cmd[2]) && ClientOk(s, fd);
    assert s.clients[fd].fd in s.clients && ClientOk(s, s.clients[fd].fd);
  }

  lemma SummonEffect(s: State, fd: int, target: int, nick: string, name: string)
    requires Inv(s) && fd in s.clients && target in s.clients && name in s.channels
    ensures var t := Summon(s, fd, target, nick, name);
      && Inv(t) && SamePass(s, t) && t.password == s.password
      && t.channels
        == s.channels[name := s.channels[name].(invites := Add(s.channels[name].invites, s.clients[target].fd))]
  {
    var c, id := s.channels[name], s.clients[target].fd;
    assert ChannelOk(s, name);
    AddNoDup(c.invites, id);
    var line := Relay(NickOrigin(Who(s, fd).nick), INVITE, [Who(s, target).nick, name]);
    SayKeepsInv(s, target, line);
    SayKeepsInv(Say(s, target, line), fd, Numeric(341, [Who(s, fd).nick, nick, name]));
    ChannelKeepsInv(Say(Say(s, target, line), fd, Numeric(341, [Who(s, fd).nick, nick, name])), name,
                    c.(invites := Add(c.invites, id)));
  }

  /** The name of the target and of the channel are known, and the issuer runs the
      channel under the descriptor it stores. */
  predicate MayInvite(s: State, fd: int, cmd: seq<string>) {
    && |cmd| >= 3 && Find(s.clients, cmd[1]).Some? && cmd[2] in s.channels
    && Who(s, fd).fd in s.channels[cmd[2]].members && Who(s, fd).fd in s.channels[cmd[2]].operators
  }

  /** A member of the channel is refused exactly when it stores its own descriptor;
      one that stores none is invited to where it is. Nobody else is refused. */
  lemma MemberRefusedIff(s: State, fd: int, cmd: seq<string>)
    requires Inv(s) && fd in s.clients && MayInvite(s, fd, cmd)
    ensures var g, n := Find(s.clients, cmd[1]).value, cmd[2];
      var refusal := Refusal(s, fd, cmd);
      && (refusal.Some? ==> refusal.value == Numeric(443, [s.clients[fd].nick, cmd[1], n]))
      && (refusal.Some? <==> IsMember(s, g, n) && s.clients[g].fd == g)
  {
    var g := Find(s.clients, cmd[1]).value;
    assert ClientOk(s, g) && ChannelOk(s, cmd[2]);
    assert forall h | h in s.channels[cmd[2]].members :: h in s.clients && ClientOk(s, h);
  }

  /** The invitation lets its target past the gate of an invite-only channel exactly
      when the target stores its own descriptor, or was invited before. */
  lemma InvitationCountsIff(s: State, fd: int, cmd: seq<string>, key: Option<string>)
    requires Inv(s) && fd in s.clients && MayInvite(s, fd, cmd)
    requires var g, n := Find(s.clients, cmd[1]).value, cmd[2];
      !IsMember(s, g, n) && s.channels[n].inviteOn && (s.channels[n].keyOn ==> key == Some(s.channels[n].key))
    ensures var g, n := Find(s.clients, cmd[1]).value, cmd[2];
      var t := Invite(s, fd, cmd);
      && n in t.channels
      && (JoinSpec.Refusal(t.channels[n], g, key) != 473 <==> s.clients[g].fd == g || g in s.channels[n].invites)
  {
    var g, n := Find(s.clients, cmd[1]).value, cmd[2];
    assert ClientOk(s, g);
    MemberRefusedIff(s, fd, cmd);
    SummonEffect(s, fd, g, cmd[1], n);
  }

  lemma SummonWrites(s: State, fd: int, target: int, nick: string, name: string)
    requires Inv(s) && fd in s.clients && target in s.clients && name in s.channels
    ensures var t := Summon(s, fd, target, nick, name);
      && (forall n | n in s.channels ::
            n in t.channels && t.channels[n] == s.channels[n].(invites := t.channels[n].invites))
      && (forall n, g | n in s.channels && g in t.channels[n].invites && g !in s.channels[n].invites ::
            n == name && g == s.clients[target].fd)
  {
    SummonEffect(s, fd, target, nick, name);
  }

  /** An invitation is written down by an operator of the channel, for a descriptor
      that is not in it, and it changes nothing else about any channel. */
  lemma InviteByOperator(s: State, fd: int, cmd: seq<string>)
    requires Inv(s) && fd in s.clients
    ensures var t := Invite(s, fd, cmd);
      && Inv(t) && SamePass(s, t) && t.password == s.password && t.channels.Keys == s.channels.Keys
      && (forall n | n in s.channels :: t.channels[n] == s.channels[n].(invites := t.channels[n].invites))
      && (forall n, g | n in s.channels && g in t.channels[n].invites && g !in s.channels[n].invites ::
            IsOperator(s, fd, n) && g !in s.channels[n].members)
  {
    var refusal := Refusal(s, fd, cmd);
    if refusal.Some? {
      SayKeepsInv(s, fd, refusal.value);
    } else {
      SummonEffect(s, fd, Find(s.clients, cmd[1]).value, cmd[1], cmd[2]);
      SummonWrites(s, fd, Find(s.clients, cmd[1]).value, cmd[1], cmd[2]);
      InviterRuns(s, fd, cmd);
    }
  }
}

module PrivmsgSpec {
  import opened Seqs
  import opened IrcState
  import opened Wire

  predicate IsChannelTarget(target: string) {
    target != "" && (target[0] == '#' || target[0] == '&')
  }

  /** One target: the state afterwards, and whether to go on. The line to a single
      client names the sender where a receiver would be expected. */
  function SendOne(s: State, fd: int, target: string, text: string): (State, bool) {
    if IsChannelTarget(target) then
      if target !in Who(s, fd).chans then (Say(s, fd, Numeric(404, [Who(s, fd).nick, target])), false)
      else
        (Tell(s, Drop(ChannelAt(s, target).members, fd), Relay(Who(s, fd).Prefix(), PRIVMSG, [target, text])), true)
    else
      var receiver := Find(s.clients, target);
      if receiver.None? then (s, true)
      else (Say(s, receiver.value, Relay(Who(s, fd).Prefix(), PRIVMSG, [Who(s, fd).nick, text])), true)
  }

  function SendAll(s: State, fd: int, targets: seq<string>, text: string): State
    decreases |targets|
  {
    if targets == [] then s
    else
      var (t, more) := SendOne(s, fd, targets[0], text);
      if more then SendAll(t, fd, targets[1..], text) else t
  }

  /** Every nickname that is reached belongs to somebody. */
  predicate AllKnown(s: State, fd: int, targets: seq<string>) {
    targets == [] ||
    if IsChannelTarget(targets[0]) then targets[0] in Who(s, fd).chans ==> AllKnown(s, fd, targets[1..])
    else Find(s.clients, targets[0]).Some? && AllKnown(s, fd, targets[1..])
  }

  function Privmsg(s: State, fd: int, cmd: seq<string>): State {
    if |cmd| < 3 then Say(s, fd, Numeric(461, []))
    else SendAll(s, fd, Split(cmd[1], ','), ChannelMessage(2, cmd))
  }

  predicate PrivmsgDefined(s: State, fd: int, cmd: seq<string>) {
    |cmd| < 3 || AllKnown(s, fd, Split(cmd[1], ','))
  }

  lemma {:induction false} SendAllIsOutput(s: State, fd: int, targets: seq<string>, text: string)
    requires fd in s.clients
    ensures OnlyOutput(s, SendAll(s, fd, targets, text))
    decreases |targets|
  {
    if targets != [] {
      var (t, more) := SendOne(s, fd, targets[0], text);
      var target := targets[0];
      if !IsChannelTarget(target) {
        var receiver := Find(s.clients, target);
        if receiver.Some? {
          SayIsOutput(s, receiver.value, Relay(Who(s, fd).Prefix(), PRIVMSG, [Who(s, fd).nick, text]));
        }
      } else if target in s.clients[fd].chans {
        TellIsOutput(s, Drop(ChannelAt(s, target).members, fd), Relay(Who(s, fd).Prefix(), PRIVMSG, [target, text]));
      } else {
        SayIsOutput(s, fd, Numeric(404, [Who(s, fd).nick, target]));
      }
      if more {
        SendAllIsOutput(t, fd, targets[1..], text);
        OutputTwice(s, t, SendAll(s, fd, targets, text));
      }
    }
  }

  lemma PrivmsgIsOutput(s: State, fd: int, cmd: seq<string>)
    requires Inv(s) && fd in s.clients
    ensures OnlyOutput(s, Privmsg(s, fd, cmd)) && Inv(Privmsg(s, fd, cmd))
  {
    if |cmd| < 3 {
      SayIsOutput(s, fd, Numeric(461, []));
    } else {
      SendAllIsOutput(s, fd, Split(cmd[1], ','), ChannelMessage(2, cmd));
    }
    OutputKeepsInv(s, Privmsg(s, fd, cmd));
  }

  /** The line to a single client carries, in the place of its nickname, the sender's: the
      two are the same exactly when the client writes to itself, or when sender and
      receiver are both called `*`, the one nickname two clients may have. */
  lemma AddressedIff(s: State, fd: int, target: string, text: string)
    requires Inv(s) && fd in s.clients
    requires !IsChannelTarget(target) && Find(s.clients, target).Some?
    ensures var g, t, me := Find(s.clients, target).value, SendOne(s, fd, target, text).0, s.clients[fd].nick;
      && t == PutClient(s, g, s.clients[g].Say(Relay(s.clients[fd].Prefix(), PRIVMSG, [me, text])))
      && (me == target <==> g == fd || (me == "*" && target == "*"))
  {
    if s.clients[fd].nick != "*" {
      FindIsUnique(s, fd);
    }
  }

  lemma ParsedMessage(name: string, text: string)
    requires IsChannelTarget(name) && ' ' !in name && ',' !in name && (forall c | c in name :: !IsEol(c))
    requires text != "" && forall c | c in text :: !IsEol(c)
    ensures var words := Words("PRIVMSG" + " " + name + " :" + text + "\r\n");
      |words| >= 3 && Split(words[1], ',') == [name] && ChannelMessage(2, words) == text
  {
    TrailingRoundTrip("PRIVMSG", name, text);
    StripClean(name);
    assert name[..|name|] == name;
    IndexIs(name, ',', |name|);
  }

  lemma SendToChannel(s: State, fd: int, name: string, text: string)
    requires Inv(s) && fd in s.clients && name in s.clients[fd].chans && IsChannelTarget(name)
    ensures var t := SendAll(s, fd, [name], text);
      && t.clients.Keys == s.clients.Keys
      && forall g | g in s.clients :: t.clients[g].out ==
           if IsMember(s, g, name) && g != fd
           then s.clients[g].out + [Relay(s.clients[fd].Prefix(), PRIVMSG, [name, text])]
           else s.clients[g].out
  {
    var t := SendOne(s, fd, name, text).0;
    assert [name][1..] == [];
    assert SendAll(t, fd, [], text) == t;
    assert ClientOk(s, fd) && IsMember(s, fd, name) && ChannelOk(s, name);
    DropNoDup(s.channels[name].members, fd);
  }

  /** From the wire to the receivers: a text of any shape arrives unchanged, once,
      with every other member of the channel and with nobody else. */
  lemma DeliveredVerbatim(s: State, fd: int, name: string, text: string)
    requires Inv(s) && fd in s.clients && name in s.clients[fd].chans
    requires IsChannelTarget(name) && ' ' !in name && ',' !in name && (forall c | c in name :: !IsEol(c))
    requires text != "" && forall c | c in text :: !IsEol(c)
    ensures var t := Privmsg(s, fd, Words("PRIVMSG" + " " + name + " :" + text + "\r\n"));
      && t.clients.Keys == s.clients.Keys
      && forall g | g in s.clients :: t.clients[g].out ==
           if IsMember(s, g, name) && g != fd
           then s.clients[g].out + [Relay(s.clients[fd].Prefix(), PRIVMSG, [name, text])]
           else s.clients[g].out
  {
    ParsedMessage(name, text);
    SendToChannel(s, fd, name, text);
  }
}
