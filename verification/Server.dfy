/** The objects of the server, as its classes hold and change them. */
module ServerObjects {
  import opened Seqs
  import opened IrcState

  /** std::find: the first place of x, or the end. */
  method FindIn<T(==)>(s: seq<T>, x: T) returns (i: nat)
    ensures i <= |s| && x !in s[..i]
    ensures i < |s| ==> s[i] == x
    ensures i < |s| <==> x in s
  {
    i := 0;
    while i < |s| && s[i] != x
      invariant i <= |s| && x !in s[..i]
    {
      i := i + 1;
    }
  }

  method EraseFrom<T(==)>(s: seq<T>, x: T) returns (t: seq<T>)
    ensures t == Drop(s, x)
  {
    var i := FindIn(s, x);
    if i < |s| {
      DropAt(s, x, i);
      t := s[..i] + s[i + 1..];
    } else {
      DropSame(s, x);
      t := s;
    }
  }

  class Client {
    ghost const slot: int           // the key under which the server holds it
    var fd: int
    var nick: string
    var user: string
    var host: string
    var server: string
    var realname: string
    var passOk: bool
    var nickOk: bool
    var userOk: bool
    var chans: seq<string>
    var out: seq<Reply>
    var held: string
    var partial: bool

    ghost function Rec(): ClientRec
      reads this
    {
      ClientRec(fd, nick, user, host, server, realname, passOk, nickOk, userOk, chans, out, held, partial)
    }

    constructor (slot: int, fd: int)
      ensures Rec() == NewClient(fd) && this.slot == slot
    {
      this.slot := slot;
      this.fd := fd;
      nick, user, host, server, realname := "*", "", "", "", "";
      passOk, nickOk, userOk := false, false, false;
      chans, out, held, partial := [], [], "", false;
    }

    predicate IsRegistered()
      reads this
      ensures IsRegistered() == Rec().Registered()
    {
      passOk && nickOk && userOk
    }

    function Prefix(): Origin
      reads this
      ensures Prefix() == Rec().Prefix()
    {
      UserOrigin(nick, user, server)
    }

    method AppendOut(line: Reply)
      modifies this`out
      ensures Rec() == old(Rec()).Say(line)
    {
      out := out + [line];
    }

    method AppendChannel(n: string)
      modifies this`chans
      ensures Rec() == old(Rec()).(chans := old(Rec()).chans + [n])
    {
      chans := chans + [n];
    }

    method DeleteChannel(n: string)
      modifies this`chans
      ensures Rec() == old(Rec()).(chans := Drop(old(Rec()).chans, n))
    {
      chans := EraseFrom(chans, n);
    }

    method SetNick(name: string)
      modifies this
      ensures Rec() == old(Rec()).(nick := name, nickOk := true)
    {
      nick := name;
      nickOk := true;
    }

    method SetPassed()
      modifies this`passOk
      ensures Rec() == old(Rec()).(passOk := true)
    {
      passOk := true;
    }

    method ClearOut()
      modifies this`out
      ensures Rec() == old(Rec()).(out := [])
    {
      out := [];
    }

    method SetHeld(text: string, flag: bool)
      modifies this
      ensures Rec() == old(Rec()).(held := text, partial := flag)
    {
      held, partial := text, flag;
    }

    method SetUserInfo(userName: string, hostName: string, serverName: string, realName: string)
      modifies this
      ensures Rec() == old(Rec()).(user := userName, host := hostName, server := serverName,
                                   realname := realName, userOk := true)
    {
      user, host, server, realname := userName, hostName, serverName, realName;
      userOk := true;
    }

    method SetRegistered(status: bool)
      modifies this`passOk, this`nickOk, this`userOk
      ensures passOk == nickOk == userOk == status
    {
      passOk, nickOk, userOk := status, status, status;
    }

    method ClearLists()
      modifies this`chans, this`out
      ensures chans == [] && out == []
    {
      chans, out := [], [];
    }

    method Reset()
      modifies this
      ensures Rec() == Wiped(old(Rec()))
    {
      SetRegistered(false);
      ClearLists();
      fd := -1;
      nick, user, host, server, realname := "", "", "", "", "";
    }
  }

  class Channel {
    ghost const slot: string        // the key under which the server holds it
    var name: string
    var operators: seq<int>
    var members: seq<int>
    var invites: seq<int>
    var topic: string
    var key: string
    var inviteOn: bool
    var topicOn: bool
    var keyOn: bool
    var limitOn: bool
    var limit: nat
    ghost var alive: bool           // until it is deleted

    ghost function Rec(): ChannelRec
      reads this
    {
      ChannelRec(name, operators, members, invites, topic, key, inviteOn, topicOn, keyOn, limitOn, limit)
    }

    constructor (name: string, creator: int)
      ensures Rec() == NewChannel(name, creator) && slot == name && alive
    {
      alive := true;
      this.slot := name;
      this.name := name;
      operators, members, invites := [creator], [], [];
      topic, key := "", "";
      inviteOn, topicOn, keyOn, limitOn, limit := false, false, false, false, 0;
    }

    // Only a channel that was not deleted may be read.

    function Name(): string
      reads this
      requires alive
    {
      name
    }

    function Members(): seq<int>
      reads this
      requires alive
    {
      members
    }

    function Topic(): string
      reads this
      requires alive
    {
      topic
    }

    function Key(): string
      reads this
      requires alive
    {
      key
    }

    function Limit(): nat
      reads this
      requires alive
    {
      limit
    }

    predicate IsOn(mode: char)
      reads this
      requires alive
    {
      if mode == 'i' then inviteOn else if mode == 't' then topicOn
      else if mode == 'k' then keyOn else mode == 'l' && limitOn
    }

    method AppendMember(fd: int)
      requires alive
      modifies this`members
      ensures Rec() == old(Rec()).(members := old(Rec()).members + [fd])
    {
      members := members + [fd];
    }

    method RemoveMember(fd: int)
      requires alive
      modifies this`members
      ensures Rec() == old(Rec()).(members := Drop(old(Rec()).members, fd))
    {
      members := EraseFrom(members, fd);
    }

    method AddOperator(fd: int)
      requires alive
      modifies this`operators
      ensures Rec() == old(Rec()).(operators := Add(old(Rec()).operators, fd))
    {
      var i := FindIn(operators, fd);
      if i == |operators| {
        operators := operators + [fd];
      }
    }

    method RemoveOperator(fd: int)
      requires alive
      modifies this`operators
      ensures Rec() == old(Rec()).(operators := Drop(old(Rec()).operators, fd))
    {
      operators := EraseFrom(operators, fd);
    }

    method AddInvite(fd: int)
      requires alive
      modifies this`invites
      ensures Rec() == old(Rec()).(invites := Add(old(Rec()).invites, fd))
    {
      var i := FindIn(invites, fd);
      if i == |invites| {
        invites := invites + [fd];
      }
    }

    method RemoveInvite(fd: int)
      requires alive
      modifies this`invites
      ensures Rec() == old(Rec()).(invites := Drop(old(Rec()).invites, fd))
    {
      invites := EraseFrom(invites, fd);
    }

    method SetMode(mode: char, sign: char, fd: int)
      requires alive
      modifies this
      ensures alive && Rec() == WithMode(old(Rec()), mode, sign, fd)
    {
      if mode == 'i' {
        if sign == '+' {
          inviteOn := true;
        } else if sign == '-' {
          inviteOn := false;
        }
      } else if mode == 't' {
        if sign == '+' {
          topicOn := true;
        } else if sign == '-' {
          topicOn := false;
        }
      } else if mode == 'l' {
        if sign == '+' {
          limitOn := true;
        } else if sign == '-' {
          limitOn := false;
        }
      } else if mode == 'k' {
        if sign == '+' {
          keyOn := true;
        } else if sign == '-' {
          keyOn := false;
        }
      } else if mode == 'o' {
        if sign == '+' {
          AddOperator(fd);
        } else if sign == '-' {
          RemoveOperator(fd);
        }
      }
    }

    method SetKey(key: string)
      requires alive
      modifies this`key
      ensures Rec() == old(Rec()).(key := key)
    {
      this.key := key;
    }

    method SetLimit(limit: nat)
      requires alive
      modifies this`limit
      ensures Rec() == old(Rec()).(limit := limit)
    {
      this.limit := limit;
    }

    method SetTopic(topic: string)
      requires alive
      modifies this`topic
      ensures Rec() == old(Rec()).(topic := topic)
    {
      this.topic := topic;
    }

    method HasMember(fd: int) returns (found: bool)
      requires alive
      ensures found <==> fd in Rec().members
    {
      var i := FindIn(members, fd);
      found := i < |members|;
    }

    method HasOperator(fd: int) returns (found: bool)
      requires alive
      ensures found <==> fd in Rec().operators
    {
      var i := FindIn(operators, fd);
      found := i < |operators|;
    }

    method HasInvite(fd: int) returns (found: bool)
      requires alive
      ensures found <==> fd in Rec().invites
    {
      var i := FindIn(invites, fd);
      found := i < |invites|;
    }
  }

  class Server {
    const password: string
    var clients: map<int, Client>
    var channels: map<string, Channel>
    var sendNick: seq<int>          // who got the line about a new nickname already

    ghost var clientRecs: map<int, ClientRec>
    ghost var channelRecs: map<string, ChannelRec>
    ghost var clientObjects: set<Client>       // every client that was constructed
    ghost var channelObjects: set<Channel>     // every channel that was constructed

    /** The state as a value. */
    ghost function State(): (s: IrcState.State)
      reads this
    {
      IrcState.State.State(password, clientRecs, channelRecs)
    }

    ghost predicate ClientsOk()
      reads this`clients, this`clientRecs, this`clientObjects, clientObjects
    {
      && clients.Keys == clientRecs.Keys
      && forall g | g in clients ::
           clients[g] in clientObjects && clients[g].slot == g && clients[g].Rec() == clientRecs[g]
    }

    ghost predicate ChannelsOk()
      reads this`channels, this`channelRecs, this`channelObjects, channelObjects
    {
      && channels.Keys == channelRecs.Keys
      && forall n | n in channels ::
           && channels[n] in channelObjects && channels[n].alive
           && channels[n].slot == n && channels[n].Rec() == channelRecs[n]
    }

    /** Every channel that was constructed and not deleted is in the map. */
    ghost predicate NoLeak()
      reads this`channels, this`channelObjects, channelObjects
    {
      forall c | c in channelObjects && c.alive :: c.slot in channels && channels[c.slot] == c
    }

    /** The maps hold objects of their own, described by State(), and none of them is
        deleted; nor is any object lost. */
    ghost predicate Valid()
      reads this, clientObjects, channelObjects
    {
      ClientsOk() && ChannelsOk() && NoLeak()
    }

    constructor (password: string)
      ensures Valid() && State() == Initial(password)
      ensures clientObjects == {} && channelObjects == {}
    {
      this.password := password;
      clients, channels, sendNick := map[], map[], [];
      clientRecs, channelRecs := map[], map[];
      clientObjects, channelObjects := {}, {};
    }

    /** The first client in key order with this nickname. */
    method FindClient(nick: string) returns (r: Option<int>)
      requires Valid()
      ensures r == Find(clientRecs, nick)
    {
      var rest := clients.Keys;
      while rest != {}
        invariant rest <= clients.Keys
        invariant forall g | g in clientRecs && g !in rest :: clientRecs[g].nick != nick
        decreases |rest|
      {
        var g := Least(rest);
        if clients[g].nick == nick {
          return Some(g);
        }
        rest := rest - {g};
      }
      r := None;
    }

    // ---- clients -----------------------------------------------------------

    method Send(fd: int, line: Reply)
      requires Valid() && fd in clientRecs
      modifies this`clientRecs, clientObjects
      ensures Valid()
      ensures var c := old(clientRecs)[fd]; State() == PutClient(old(State()), fd, c.Say(line))
    {
      ghost var c := clientRecs[fd];
      clients[fd].AppendOut(line);
      clientRecs := clientRecs[fd := c.Say(line)];
    }

    /** The client is reset and goes; what is left of it is a wiped record. */
    method EraseTheClient(fd: int)
      requires Valid() && fd in clientRecs
      modifies this`clients, this`clientRecs, clientObjects
      ensures Valid() && State() == EraseClient(old(State()), fd)
      ensures old(clients)[fd].Rec() == Wiped(old(clientRecs)[fd])
    {
      clients[fd].Reset();
      assert ChannelsOk();
      clients, clientRecs := clients - {fd}, clientRecs - {fd};
      assert NoLeak();
    }

    method InsertClient(fd: int, id: int)
      requires Valid()
      modifies this`clients, this`clientRecs, this`clientObjects
      ensures Valid() && fresh(clientObjects - old(clientObjects))
      ensures State() == PutClient(old(State()), fd, NewClient(id))
    {
      var c := new Client(fd, id);
      clients, clientObjects := clients[fd := c], clientObjects + {c};
      clientRecs := clientRecs[fd := NewClient(id)];
      assert ChannelsOk() && NoLeak();
    }

    /** The client's copy of the membership. */
    method ListChannel(fd: int, n: string)
      requires Valid() && fd in clientRecs
      modifies this`clientRecs, clientObjects
      ensures Valid()
      ensures var c := old(clientRecs)[fd]; State() == PutClient(old(State()), fd, c.(chans := c.chans + [n]))
    {
      ghost var c := clientRecs[fd];
      clients[fd].AppendChannel(n);
      clientRecs := clientRecs[fd := c.(chans := c.chans + [n])];
    }

    method UnlistChannel(fd: int, n: string)
      requires Valid() && fd in clientRecs
      modifies this`clientRecs, clientObjects
      ensures Valid()
      ensures var c := old(clientRecs)[fd]; State() == PutClient(old(State()), fd, c.(chans := Drop(c.chans, n)))
    {
      ghost var c := clientRecs[fd];
      clients[fd].DeleteChannel(n);
      clientRecs := clientRecs[fd := c.(chans := Drop(c.chans, n))];
    }

    method MarkPassed(fd: int)
      requires Valid() && fd in clientRecs
      modifies this`clientRecs, clientObjects
      ensures Valid()
      ensures var c := old(clientRecs)[fd]; State() == PutClient(old(State()), fd, c.(passOk := true))
    {
      ghost var c := clientRecs[fd];
      clients[fd].SetPassed();
      clientRecs := clientRecs[fd := c.(passOk := true)];
    }

    method SetNick(fd: int, nick: string)
      requires Valid() && fd in clientRecs
      modifies this`clientRecs, clientObjects
      ensures Valid()
      ensures var c := old(clientRecs)[fd]; State() == PutClient(old(State()), fd, c.(nick := nick, nickOk := true))
    {
      ghost var c := clientRecs[fd];
      clients[fd].SetNick(nick);
      clientRecs := clientRecs[fd := c.(nick := nick, nickOk := true)];
    }

    method SetUserInfo(fd: int, user: string, host: string, name: string, realname: string)
      requires Valid() && fd in clientRecs
      modifies this`clientRecs, clientObjects
      ensures Valid()
      ensures var c := old(clientRecs)[fd]; State() == PutClient(old(State()), fd,
        c.(user := user, host := host, server := name, realname := realname, userOk := true))
    {
      ghost var c := clientRecs[fd];
      clients[fd].SetUserInfo(user, host, name, realname);
      clientRecs := clientRecs[fd :=
        c.(user := user, host := host, server := name, realname := realname, userOk := true)];
    }

    method ClearOut(fd: int)
      requires Valid() && fd in clientRecs
      modifies this`clientRecs, clientObjects
      ensures Valid()
      ensures var c := old(clientRecs)[fd]; State() == PutClient(old(State()), fd, c.(out := []))
    {
      ghost var c := clientRecs[fd];
      clients[fd].ClearOut();
      clientRecs := clientRecs[fd := c.(out := [])];
    }

    method SetHeld(fd: int, text: string, partial: bool)
      requires Valid() && fd in clientRecs
      modifies this`clientRecs, clientObjects
      ensures Valid()
      ensures var c := old(clientRecs)[fd]; State() == PutClient(old(State()), fd, c.(held := text, partial := partial))
    {
      ghost var c := clientRecs[fd];
      clients[fd].SetHeld(text, partial);
      clientRecs := clientRecs[fd := c.(held := text, partial := partial)];
    }

    method NoteSent(id: int)
      requires Valid()
      modifies this`sendNick
      ensures Valid() && State() == old(State()) && sendNick == old(sendNick) + [id]
    {
      sendNick := sendNick + [id];
    }

    // ---- channels ----------------------------------------------------------

    /** A channel is constructed with its operator; nobody is a member yet. The map
        takes it in under a new name only, under an old one the object is lost. */
    method AppendNewChannel(fd: int, n: string)
      requires Valid()
      modifies this`channels, this`channelRecs, this`channelObjects
      ensures ClientsOk() && ChannelsOk() && fresh(channelObjects - old(channelObjects))
      ensures n !in old(channelRecs) ==> NoLeak() && State() == PutChannel(old(State()), n, NewChannel(n, fd))
      ensures n in old(channelRecs) ==> !NoLeak() && State() == old(State())
    {
      var c := new Channel(n, fd);
      channelObjects := channelObjects + {c};
      if n !in channels {
        channels, channelRecs := channels[n := c], channelRecs[n := NewChannel(n, fd)];
        assert NoLeak();
      }
    }

    /** The entry goes, the object stays; somebody has to delete it. */
    method RemoveChannel(n: string)
      requires ClientsOk() && ChannelsOk()
      modifies this`channels, this`channelRecs
      ensures ClientsOk() && ChannelsOk() && channels == old(channels) - {n}
      ensures State() == EraseChannel(old(State()), n)
    {
      channels, channelRecs := channels - {n}, channelRecs - {n};
    }

    /** The delete statement: of a channel that lives, and that the map no longer holds. */
    method DeleteChannel(c: Channel)
      requires ClientsOk() && ChannelsOk() && c in channelObjects
      requires c.alive && forall n | n in channels :: channels[n] != c
      modifies c`alive
      ensures ClientsOk() && ChannelsOk() && !c.alive
    {
      c.alive := false;
    }

    method AddMember(n: string, fd: int)
      requires Valid() && n in channelRecs
      modifies this`channelRecs, channelObjects
      ensures Valid()
      ensures var c := old(channelRecs)[n]; State() == PutChannel(old(State()), n, c.(members := c.members + [fd]))
    {
      ghost var c := channelRecs[n];
      channels[n].AppendMember(fd);
      channelRecs := channelRecs[n := c.(members := c.members + [fd])];
      assert NoLeak();
    }

    method DropMember(n: string, fd: int)
      requires Valid() && n in channelRecs
      modifies this`channelRecs, channelObjects
      ensures Valid()
      ensures var c := old(channelRecs)[n]; State() == PutChannel(old(State()), n, c.(members := Drop(c.members, fd)))
    {
      ghost var c := channelRecs[n];
      channels[n].RemoveMember(fd);
      channelRecs := channelRecs[n := c.(members := Drop(c.members, fd))];
      assert NoLeak();
    }

    method DropOperator(n: string, fd: int)
      requires Valid() && n in channelRecs
      modifies this`channelRecs, channelObjects
      ensures Valid()
      ensures var c := old(channelRecs)[n];
        State() == PutChannel(old(State()), n, c.(operators := Drop(c.operators, fd)))
    {
      ghost var c := channelRecs[n];
      channels[n].RemoveOperator(fd);
      channelRecs := channelRecs[n := c.(operators := Drop(c.operators, fd))];
      assert NoLeak();
    }

    method DropInvite(n: string, fd: int)
      requires Valid() && n in channelRecs
      modifies this`channelRecs, channelObjects
      ensures Valid()
      ensures var c := old(channelRecs)[n]; State() == PutChannel(old(State()), n, c.(invites := Drop(c.invites, fd)))
    {
      ghost var c := channelRecs[n];
      channels[n].RemoveInvite(fd);
      channelRecs := channelRecs[n := c.(invites := Drop(c.invites, fd))];
      assert NoLeak();
    }

    method AddInvite(n: string, fd: int)
      requires Valid() && n in channelRecs
      modifies this`channelRecs, channelObjects
      ensures Valid()
      ensures var c := old(channelRecs)[n]; State() == PutChannel(old(State()), n, c.(invites := Add(c.invites, fd)))
    {
      ghost var c := channelRecs[n];
      channels[n].AddInvite(fd);
      channelRecs := channelRecs[n := c.(invites := Add(c.invites, fd))];
      assert NoLeak();
    }

    method SetMode(n: string, mode: char, sign: char, fd: int)
      requires Valid() && n in channelRecs
      modifies this`channelRecs, channelObjects
      ensures Valid()
      ensures var c := old(channelRecs)[n]; State() == PutChannel(old(State()), n, WithMode(c, mode, sign, fd))
    {
      ghost var d := WithMode(channelRecs[n], mode, sign, fd);
      channels[n].SetMode(mode, sign, fd);
      assert channels[n].Rec() == d;
      channelRecs := channelRecs[n := d];
      assert NoLeak();
    }

    method SetKey(n: string, key: string)
      requires Valid() && n in channelRecs
      modifies this`channelRecs, channelObjects
      ensures Valid()
      ensures var c := old(channelRecs)[n]; State() == PutChannel(old(State()), n, c.(key := key))
    {
      ghost var c := channelRecs[n];
      channels[n].SetKey(key);
      channelRecs := channelRecs[n := c.(key := key)];
      assert NoLeak();
    }

    method SetLimit(n: string, limit: nat)
      requires Valid() && n in channelRecs
      modifies this`channelRecs, channelObjects
      ensures Valid()
      ensures var c := old(channelRecs)[n]; State() == PutChannel(old(State()), n, c.(limit := limit))
    {
      ghost var c := channelRecs[n];
      channels[n].SetLimit(limit);
      channelRecs := channelRecs[n := c.(limit := limit)];
      assert NoLeak();
    }

    method SetTopic(n: string, topic: string)
      requires Valid() && n in channelRecs
      modifies this`channelRecs, channelObjects
      ensures Valid()
      ensures var c := old(channelRecs)[n]; State() == PutChannel(old(State()), n, c.(topic := topic))
    {
      ghost var c := channelRecs[n];
      channels[n].SetTopic(topic);
      channelRecs := channelRecs[n := c.(topic := topic)];
      assert NoLeak();
    }
  }
}
