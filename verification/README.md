# Verified model of the IRC server

The server keeps two maps: descriptor to client, and channel name to channel. Membership is stored twice, in the
channel's member list and in the client's channel list, and every command edits both in place. This project models
the server at two levels and ties them together.

* **The state as a value.** `State.dfy` holds the records and the invariant `Inv`. One module per command
  (`PassSpec`, `UserSpec`, `NickSpec`, `PartSpec`, `KickSpec`, `QuitSpec`, `JoinSpec`, `ModeSpec`, `TopicSpec`,
  `InviteSpec`, `PrivmsgSpec`) says what the command does to it, output buffers and error replies included.
  `Protocol.dfy` puts them together into one step per event of the poll loop, `Relation.dfy` abstracts the two maps
  to two relations (who is in which channel, who runs which channel), and `Runs.dfy` proves safety of whole runs from
  the empty state. `Outcomes.dfy` writes out, command by command and event by event, everything that can be seen
  afterwards: the records, the codes and the lines as they are, when each of them is due, and which word is which
  command. `Reference.dfy` is MODE a second time, in two passes: the words are first read into a list of orders, then the
  orders are carried out. `Fragments.dfy` is about lines that arrive in pieces, `Instances.dfy` has a run for each property
  one would expect and does not find.
* **The objects.** `Server.dfy` has the classes `Client`, `Channel` and `Server` with the fields of the source;
  `Effects.dfy` the changes several commands have in common; `Signing.dfy`, `Entering.dfy`, `Leaving.dfy`, `Moding.dfy` and
  `Talking.dfy` the commands as methods with the loops, cursors and early returns of the source; `Running.dfy` the
  dispatch and the event loop. Each method is proved equal to its value-level function, so the theorems about runs hold
  of the objects (`EventLoop.HandleEvent`, `EventLoop.Serve`).
* **The wire.** `Wire.dfy` is the tokenizer, the fragment buffer and the trailing parameter.

`Inv` says, keyed by the map's key and not by the descriptor a client stores: both copies of the membership agree and
are free of repetition, operators are members, each key is its channel's name, a mode that is off has left no key and
no limit, a client with channels has completed PASS, NICK and USER, a client past NICK or USER is past PASS, completed
nicknames are valid and unique, and a client stores its own descriptor or -1.

Replies are values of the datatype `Reply` (numeric code and parameters, or origin, verb and parameters) in place of
the text that is sent. An ordered map is iterated from its least key. To verify everything:
`dafny verify --resource-limit 2000000 --verification-time-limit 0 --warn-contradictory-assumptions dfyconfig.toml`.

## Where the code and its documentation differ

The model follows the code; RFC 1459 is what README.md:152 of the repository names as its basis.

* A lost connection leaves an emptied channel in the map, although by section 1.3 of RFC 1459 a channel ceases to exist
  when its last client leaves it. `Runs.PopulatedIff` says exactly when a step does so, `Instances.Deserted` is a run
  that ends so.
* A client whose read failed is replaced under the same key by a blank one that stores -1; a later accept on that
  descriptor keeps the blank one (`Instances.ReusedDescriptor`). Two things depend on the stored descriptor. A NICK line
  is sent once per stored descriptor, so of several such clients only the first hears of a change of nickname:
  `Outcomes.NickReaches` says who does and gives the exact condition, `Instances.NickMissed` a run. And INVITE compares and writes the stored
  descriptor: such a client is invited to a channel it is in, and the invitation is good for nobody.
  `InviteSpec.MemberRefusedIff` and `InviteSpec.InvitationCountsIff` give the exact conditions, `Instances.MemberInvited`
  a run.
* A JOIN that lists several channels and no keys stops at the first one that asks for a key: `JoinSpec.ListIsSingles` gives
  the exact condition, `Instances.ListCutShort` a run.
* A trailing parameter that is empty comes back as `NO REASON` (`Wire.TrailingRoundTrip`).
* A topic that begins with a space is stored as the empty topic, whatever follows (`TopicSpec.TopicRoundTrip`,
  `TopicSpec.SpaceEmpties`); the 332 that is sent on JOIN lacks the first character of the topic (`JoinSpec.JoinTells`).
* A line cut inside `CAP LS` is executed, the same line in one piece is ignored (`Wire.Reassembly`, `Wire.CutCapability`).
* Line ends are cut off behind a word only. Two lines that arrive in one read are one command, and a text with a line end
  inside is relayed as it is, so that its receivers see a second line without the sender's prefix:
  `Wire.RelayedLineEnds` says exactly when, `Wire.TwoLinesAreOne` is an instance.
* PRIVMSG to a single client names the sender in the place of the receiver (`PrivmsgSpec.AddressedIff`).
* The announcement of MODE carries at most one sign, and none is sent when an operator flag ends the command early.
  `ModeSpec.AnnouncementIff` says exactly when the members learn what was done. It fails for `+t-i`, announced as `+ti`
  (`ModeSpec.MixedSigns`); for flags without a sign, which announce letters behind a NUL and change nothing
  (`ModeSpec.Unsigned`, and `Instances.NothingAnnounced`, a run that ends so); and for `+to` with an unknown nickname,
  which sets the mode and tells nobody (`ModeSpec.StoppedEarly`).
* MODE +t takes no parameter, though README.md:181 shows one (`ModeSpec.SettingsKeepOperators`); NOTICE is listed in
  README.md:159 but is answered as unknown (`Protocol.NoticeIsUnknown`).

## Model

| member | source | states |
|---|---|---|
| Wire.FragmentsAreHeld | IRC_PROTOCOL_SERVER/src/Command.cpp:37-60 | any number of pieces without a line feed, then one with it, executes the words of their concatenation and empties the buffer |
| Wire.Reassembly | IRC_PROTOCOL_SERVER/src/Command.cpp:33-75 | pieces and the whole line give the same words and buffer if and only if the whole line neither contains CAP LS nor is a sign-up batch |
| Wire.CutCapability | IRC_PROTOCOL_SERVER/src/Command.cpp:33-43 | a concrete line for which cutting makes a difference |
| Wire.JoinAfterSplit | IRC_PROTOCOL_SERVER/src/Command.cpp:61-75 | cutting a line at spaces, stripping line ends and joining again gives the line back |
| Wire.TrailingRoundTrip | IRC_PROTOCOL_SERVER/src/Util.cpp:169-185 | tokenizing a message and rejoining its trailing parameter returns the text, of any shape, if and only if it is not empty; verb and target survive too |
| Wire.PlainWords | IRC_PROTOCOL_SERVER/src/Command.cpp:61-75 | a line made of words without spaces and line ends comes back as these words, the first in upper case |
| Wire.SplitRejoins | IRC_PROTOCOL_SERVER/src/Util.cpp:12-24 | the pieces hold no delimiter and, put together again, are the text but for a delimiter at its very end |
| Wire.SplitAt | IRC_PROTOCOL_SERVER/src/Util.cpp:12-24 | the getline loop yields Split, which opens no piece after a final delimiter |
| Wire.TrimEol | IRC_PROTOCOL_SERVER/src/Command.cpp:63-66 | the cut after the last character that is not a line end yields StripEol |
| Wire.ToUpper | IRC_PROTOCOL_SERVER/src/Command.cpp:69-73 | every letter of the first word is put in upper case, nothing else changes |
| Wire.JoinFrom | IRC_PROTOCOL_SERVER/command/User.cpp:44-49 | the loop that puts words together again yields them with single spaces between |
| Wire.Tokenize | IRC_PROTOCOL_SERVER/src/Command.cpp:61-75 | the parsing loop yields Words: stripped pieces, the first in upper case |
| Outcomes.WordsAre | IRC_PROTOCOL_SERVER/src/Command.cpp:61-75 | every word, character by character: its piece without the carriage returns and line feeds behind it, small letters of the first word raised by 32 |
| Outcomes.ContainsIff | IRC_PROTOCOL_SERVER/src/Command.cpp:35-37 | a message contains a text if and only if it is that text between two others |
| Wire.ChannelText | IRC_PROTOCOL_SERVER/src/Util.cpp:169-185 | the joining loop yields ChannelMessage |
| Outcomes.ReasonIs | IRC_PROTOCOL_SERVER/src/Util.cpp:169-185 | the rejoined words as they are, without one colon in front, and NO REASON if that leaves nothing |
| Wire.WordHolds | IRC_PROTOCOL_SERVER/src/Command.cpp:61-75 | a word holds a line end if and only if its piece of the message has one that is not at its end |
| Wire.RelayedLineEnds | IRC_PROTOCOL_SERVER/src/Util.cpp:169-185 | the relayed text holds a line end if and only if some piece of the message behind the target has one inside |
| Wire.TwoLinesAreOne | IRC_PROTOCOL_SERVER/src/Command.cpp:61-75 | two lines in one read for which the second becomes text of the first |
| IrcState.Find | IRC_PROTOCOL_SERVER/src/Server.cpp:201-213 | the least key whose client has the nickname, and nothing only if no client has it |
| IrcState.FindIsUnique | IRC_PROTOCOL_SERVER/src/Server.cpp:201-213 | under the invariant a nickname other than `*` has one possible answer |
| IrcState.LeaveEffect | IRC_PROTOCOL_SERVER/command/Part.cpp:35-37 | removing fd from a channel takes away exactly one pair of the membership and of the operator relation |
| IrcState.LeaveKeepsInv | IRC_PROTOCOL_SERVER/command/Part.cpp:35-37 | the two-sided removal keeps the invariant |
| IrcState.CreateKeepsInv | IRC_PROTOCOL_SERVER/command/Join.cpp:163-170 | founding a channel keeps the invariant: the operator becomes member in both copies |
| IrcState.EnterKeepsInv | IRC_PROTOCOL_SERVER/command/Join.cpp:157-160 | entering an existing channel keeps the invariant |
| IrcState.EraseClientKeepsInv | IRC_PROTOCOL_SERVER/src/Command.cpp:190-198 | erasing a client without channels leaves no descriptor dangling |
| IrcState.DepartTells | IRC_PROTOCOL_SERVER/src/Util.cpp:51-95 | PART and KICK tell every member, the one who goes included, exactly once, and nobody else |
| PassSpec.PassGate | IRC_PROTOCOL_SERVER/command/Pass.cpp:3-37 | PASS succeeds exactly with the server's password; a wrong one erases a client that is in no channel; all others are untouched |
| PassSpec.PassKeepsInv | IRC_PROTOCOL_SERVER/command/Pass.cpp:3-37 | PASS keeps the invariant on every branch |
| Outcomes.PassOutcome | IRC_PROTOCOL_SERVER/command/Pass.cpp:3-37 | the whole state afterwards: 462 when repeated, 461 with the usage without a parameter, past PASS with the right word, gone with a wrong one |
| UserSpec.UserGate | IRC_PROTOCOL_SERVER/command/User.cpp:3-54 | USER erases exactly a client that is not past PASS, which is in no channel; it is accepted exactly with well-formed words, whose parameters are stored; all others are untouched |
| UserSpec.UserKeepsInv | IRC_PROTOCOL_SERVER/command/User.cpp:3-54 | USER keeps the invariant on every branch, and the password flag of whoever stays |
| Outcomes.UserOutcome | IRC_PROTOCOL_SERVER/command/User.cpp:3-54 | the whole state afterwards: 462 when repeated, gone before PASS, 461 with the usage for too few or too many words, otherwise the four parameters stored each in its place |
| NickSpec.FewestUnderscores | IRC_PROTOCOL_SERVER/command/Nick.cpp:30-52 | the collision loop ends with the request plus the fewest underscores that make it unused, so the check that follows never fires |
| NickSpec.NickKeepsInv | IRC_PROTOCOL_SERVER/command/Nick.cpp:4-82 | NICK keeps the invariant, uniqueness and validity of nicknames included |
| Outcomes.ValidNickIff | IRC_PROTOCOL_SERVER/command/Nick.cpp:84-98 | a nickname is valid if and only if it has one to nine characters, the first no digit, the others letters, digits or one of seven signs |
| Outcomes.NickOutcome | IRC_PROTOCOL_SERVER/command/Nick.cpp:4-82 | with a password given, a parameter and a valid result, the client is called the request with the fewest underscores that make it unused, all else about it and everybody is as before but for one line from the old nickname that gives the new one; otherwise 431, or 432 with the usage, or gone, and no nickname changes |
| NickSpec.AllToldIff | IRC_PROTOCOL_SERVER/src/Util.cpp:96-128 | all visited clients are told if and only if their stored descriptors differ |
| NickSpec.NickOnce | IRC_PROTOCOL_SERVER/src/Util.cpp:96-128 | who is told, by whether channels are shared: nobody more than once, nobody outside the channels, and everybody inside if and only if their stored descriptors differ; what the line says and what the nickname is afterwards is in Outcomes.NickOutcome |
| Outcomes.NickReaches | IRC_PROTOCOL_SERVER/src/Util.cpp:96-128 | for every client, exactly what it is written: the line if it is the first on the roll of the channels to store its descriptor, nothing otherwise; so everybody who shares a channel is told if and only if their stored descriptors differ |
| PartSpec.PartRemovesListed | IRC_PROTOCOL_SERVER/command/Part.cpp:4-57 | PART removes exactly the pairs of the issuer with the listed channels from both relations and leaves no channel empty |
| PartSpec.PartLines | IRC_PROTOCOL_SERVER/command/Part.cpp:26-55 | another client hears exactly one line for each listed channel that it shares with the one who leaves, repeated names included; the line names the channel and the reason, which NO REASON leaves out |
| PartSpec.PartOutcome | IRC_PROTOCOL_SERVER/command/Part.cpp:4-57 | together with PartLines the state afterwards: the listed channels without the issuer and otherwise as they were, the emptied ones gone, nobody else moved, and what the issuer reads for each name in turn: its own PART line, 442 or 403 |
| KickSpec.DefinedIff | IRC_PROTOCOL_SERVER/command/Kick.cpp:49-96 | the loop stays inside the nickname list if and only if there are enough nicknames or one of them stops the command |
| KickSpec.FirstForeignMeans | IRC_PROTOCOL_SERVER/command/Kick.cpp:25-34 | the check passes if and only if the issuer runs every listed channel that exists |
| KickSpec.KickOneEffect | IRC_PROTOCOL_SERVER/command/Kick.cpp:51-95 | one pair removes at most its target from at most its channel, and the issuer keeps every operator right |
| KickSpec.KickAllEffect | IRC_PROTOCOL_SERVER/command/Kick.cpp:25-96 | the operator check made up front stays true through every iteration, repeated channels included; the removed pairs are those that can be read off the state before |
| KickSpec.KickRemovesPairs | IRC_PROTOCOL_SERVER/command/Kick.cpp:4-98 | KICK removes the pairs of the i-th nickname with the i-th channel up to the first unknown or own one, and empties no channel |
| KickSpec.KickLines | IRC_PROTOCOL_SERVER/command/Kick.cpp:49-96 | another client hears exactly one line for each pair that takes somebody out of a channel in which it still is, and none for a pair whose target is out already; the line names the channel, the one who goes with the reason, and the issuer, in this order |
| KickSpec.KickRefused | IRC_PROTOCOL_SERVER/command/Kick.cpp:25-34 | one foreign channel anywhere in the list, and nothing but output happens |
| KickSpec.KickOutcome | IRC_PROTOCOL_SERVER/command/Kick.cpp:36-97 | together with KickRemovesPairs and KickLines the state afterwards: of the records only the membership, the operators and the output move, and what the issuer reads for each pair in turn is the line, 403, 401 or 441, up to the pair that stops the command |
| KickSpec.KickForeign | IRC_PROTOCOL_SERVER/command/Kick.cpp:25-34 | 482 for the first listed channel that exists and that the issuer does not run, and nothing else |
| QuitSpec.QuitRemovesAll | IRC_PROTOCOL_SERVER/command/Quit.cpp:22-48 | after QUIT the client is in no member or operator list, nobody else's pairs changed, and no channel is left empty |
| QuitSpec.QuitLines | IRC_PROTOCOL_SERVER/command/Quit.cpp:22-48 | a client that shares m channels with the quitter gets exactly m QUIT lines |
| QuitSpec.SharedCounts | IRC_PROTOCOL_SERVER/command/Quit.cpp:22-48 | the lines a client gets, counted channel by channel, are as many as the channels in common |
| Outcomes.QuitOutcome | IRC_PROTOCOL_SERVER/command/Quit.cpp:4-49 | the whole state afterwards: the client gone, its channels without it, those it was alone in deleted, and everybody else with the reason once for each channel in common |
| QuitSpec.DisconnectEmpties | IRC_PROTOCOL_SERVER/src/Server.cpp:285-304 | a lost connection removes all pairs of the client, deletes no channel, and leaves one empty if and only if the client was alone in it |
| Outcomes.DisconnectOutcome | IRC_PROTOCOL_SERVER/src/Server.cpp:285-304 | the whole state afterwards: its channels lose it, its rights and its invitation, and stay; nobody is told; the channels it was not in keep everything |
| JoinSpec.JoinOneEffect | IRC_PROTOCOL_SERVER/command/Join.cpp:70-175 | a channel gains the client exactly when Admits says so, which Outcomes.LetInIff spells out, and no other channel changes |
| JoinSpec.JoinTells | IRC_PROTOCOL_SERVER/command/Join.cpp:157-171 | every member is told once, others nothing; the newcomer gets the line, the topic without its first character if there is one, and the list of all members with itself last |
| Outcomes.JoinOutcome | IRC_PROTOCOL_SERVER/command/Join.cpp:157-171 | every client afterwards, with the guards and the lines spelled out: the JOIN line, 332 with the topic cut, the list with each mark and nickname, 366 |
| JoinSpec.JoinAdds | IRC_PROTOCOL_SERVER/command/Join.cpp:70-175 | what a whole list adds is decided by the gates as they stood before the command |
| JoinSpec.Admission | IRC_PROTOCOL_SERVER/command/Join.cpp:105-155 | whoever got into an existing channel gave its key under +k, was invited under +i, and found it below its limit under +l |
| Outcomes.LetInIff | IRC_PROTOCOL_SERVER/command/Join.cpp:91-155 | an outsider is let into an existing channel if and only if it brings the key that +k asks for, has the invitation that +i asks for and finds the place that +l asks for |
| Outcomes.JoinRefused | IRC_PROTOCOL_SERVER/command/Join.cpp:74-155 | which of 403, 443, 475, 473 and 471 the client is answered, in this order, and that nothing else happens |
| Outcomes.JoinChannels | IRC_PROTOCOL_SERVER/command/Join.cpp:157-170 | a name nobody has founded becomes a channel with the client as operator and only member and all modes off; an existing channel gains a last member and nothing else |
| JoinSpec.ListIsSingles | IRC_PROTOCOL_SERVER/command/Join.cpp:70-175 | a list of channels has the effect, output included, of one JOIN for each with its key: always when keys are given, and without keys if and only if no channel but the last asks for one |
| Outcomes.JoinSingle | IRC_PROTOCOL_SERVER/command/Join.cpp:16-68 | one channel, also with a comma behind its name, is joined with the whole parameter as its key |
| Outcomes.JoinListOutcome | IRC_PROTOCOL_SERVER/command/Join.cpp:16-175 | several channels and a key parameter are one JOIN after the other, each with the key in its place as long as there are keys |
| Outcomes.JoinKeylessOutcome | IRC_PROTOCOL_SERVER/command/Join.cpp:105-112 | several channels without keys are one JOIN after the other up to the first channel that asks for one, which still answers |
| JoinSpec.SinglesAreAll | IRC_PROTOCOL_SERVER/command/Join.cpp:70-175 | for names without commas, working through the two lists is the same as the single commands one after the other |
| JoinSpec.KeysArePieces | IRC_PROTOCOL_SERVER/command/Join.cpp:31-68 | with several channels the keys are what stands between the commas of the parameter; with one channel the whole parameter is its key |
| JoinSpec.KeylessIsAll | IRC_PROTOCOL_SERVER/command/Join.cpp:105-112 | without keys the list is worked through if and only if no channel before the last asks for a key |
| ModeSpec.InterpretKeepsSound | IRC_PROTOCOL_SERVER/command/Mode.cpp:93-266 | for every flag string and parameter list: the cursor stays in range, the issuer stays operator, operators are members, a mode that is off leaves no key or limit |
| ModeSpec.ResultIsSound | IRC_PROTOCOL_SERVER/command/Mode.cpp:76-266 | the same for the whole command, from any state that satisfies the invariant |
| ModeSpec.ResultOrders | IRC_PROTOCOL_SERVER/command/Mode.cpp:194-254 | one direction, for the provenance of operators: whoever is made operator was asked for by a flag o under a plus, whoever is unmade by a flag o under a minus, each with a parameter that names the client; that the orders are also carried out is in ModeReference.ModeIsItsOrders |
| ModeReference.ModeIsItsOrders | IRC_PROTOCOL_SERVER/command/Mode.cpp:76-281 | MODE by an operator, for every flag string: the words are read into a list of orders without looking at what has been done so far except for whether there is a limit, the orders are carried out one after the other, and that is the channel afterwards; the errors are those of the orders, and the announcement their sign, letters, parameters and last nickname; nothing else changes |
| ModeReference.InterpretFollows | IRC_PROTOCOL_SERVER/command/Mode.cpp:93-266 | from every state of the interpreter: the machine after the flags is the machine after the orders, and the flags that counted are the orders that count |
| ModeReference.OperatorAlone | IRC_PROTOCOL_SERVER/command/Mode.cpp:194-254 | +o with the nickname of another member puts it among the operators, -o takes it out, every member is told so in exactly these words, and nothing else changes |
| ModeSpec.ModeByOperator | IRC_PROTOCOL_SERVER/command/Mode.cpp:70-281 | only an operator changes anything, only in the channel named, and it is operator afterwards wherever the interpreter stopped |
| ModeSpec.ModeTells | IRC_PROTOCOL_SERVER/command/Mode.cpp:260-281 | errors reach the issuer only; the announcement reaches every member once, unless the interpreter stopped early or nothing was set |
| Outcomes.ModeAnswers | IRC_PROTOCOL_SERVER/command/Mode.cpp:16-74 | every way in which MODE changes nothing: 461, silence about oneself, 403, the flags in the order t, i, l, k with the key for operators only and the limit, silence for a flag alone, 482 |
| ModeSpec.AnnouncementIff | IRC_PROTOCOL_SERVER/command/Mode.cpp:76-281 | from flags to members: the line a member gets tells what was done, flag by flag with its sign, if and only if nothing was done, or the command came to its end and all was done under one sign; and what was done accounts for the modes i, t, k and l |
| ModeSpec.HeardIff | IRC_PROTOCOL_SERVER/command/Mode.cpp:260-281 | the same for the interpreter, from any channel and any flag string |
| ModeSpec.MarksAreDone | IRC_PROTOCOL_SERVER/command/Mode.cpp:102-193 | the flags that counted, carried out in order on the modes as they were, give the modes as they are |
| ModeSpec.PlainFlagsAreHeard | IRC_PROTOCOL_SERVER/command/Mode.cpp:93-266 | a flag string that begins with a sign and holds no other is announced as it was carried out, unless the interpreter stopped |
| ModeSpec.MixedSigns | IRC_PROTOCOL_SERVER/command/Mode.cpp:260-265 | an instance with two signs: a flag is announced as set and was taken away |
| ModeSpec.Unsigned | IRC_PROTOCOL_SERVER/command/Mode.cpp:81-122 | an instance without a sign: two letters are announced and nothing has changed |
| ModeSpec.StoppedEarly | IRC_PROTOCOL_SERVER/command/Mode.cpp:200-216 | an instance with an early return: a mode is set and nothing is announced |
| ModeSpec.SettingsKeepOperators | IRC_PROTOCOL_SERVER/command/Mode.cpp:102-193 | the flags i and t take no parameter, and no flag but o touches the operators |
| TopicSpec.TopicRoundTrip | IRC_PROTOCOL_SERVER/command/Topic.cpp:78-88 | the topic read off the line is the text that was sent if and only if the text is empty or does not begin with a space |
| TopicSpec.TopicStored | IRC_PROTOCOL_SERVER/command/Topic.cpp:66-88 | from the wire to the store, for whoever may set the topic: the text, or nothing if it begins with a space |
| TopicSpec.TopicByPermitted | IRC_PROTOCOL_SERVER/command/Topic.cpp:25-89 | the topic changes exactly for members, under +t for operators, to what NewTopic reads off the words, and nothing else about any channel changes |
| TopicSpec.TopicTells | IRC_PROTOCOL_SERVER/command/Topic.cpp:52-89 | every member is told the topic that is then stored, once; a refusal or an answer reaches the issuer only |
| Outcomes.TopicOutcome | IRC_PROTOCOL_SERVER/command/Topic.cpp:4-91 | the whole state afterwards on every branch: 461, 403, 442, 331 or 332 by whether there is a topic, 482, or the topic and the line for every member |
| InviteSpec.MemberRefusedIff | IRC_PROTOCOL_SERVER/command/Invite.cpp:40-44 | a known target is refused, with 443, if and only if it is in the channel and stores its own descriptor |
| InviteSpec.InvitationCountsIff | IRC_PROTOCOL_SERVER/command/Invite.cpp:55-57 | a later JOIN gets past +i if and only if the target stores its own descriptor or was invited before |
| InviteSpec.InviteByOperator | IRC_PROTOCOL_SERVER/command/Invite.cpp:16-57 | an invitation is written down only by an operator of the channel, for a descriptor that is not in it, and changes nothing else about any channel |
| Outcomes.InviteOutcome | IRC_PROTOCOL_SERVER/command/Invite.cpp:4-57 | the whole state afterwards: 461, 401, 403, 442, 482 or 443, tried in this order, or the line for the target, 341 for the issuer and the stored descriptor written down |
| PrivmsgSpec.PrivmsgIsOutput | IRC_PROTOCOL_SERVER/command/Privmsg.cpp:3-44 | PRIVMSG changes output buffers only |
| PrivmsgSpec.AddressedIff | IRC_PROTOCOL_SERVER/command/Privmsg.cpp:29-36 | the line to a single client names the sender where the receiver is expected, which is right if and only if the client writes to itself or both are called `*` |
| PrivmsgSpec.DeliveredVerbatim | IRC_PROTOCOL_SERVER/command/Privmsg.cpp:13-31 | from the wire to the receivers: any text arrives unchanged, once, with every other member and nobody else |
| Outcomes.PrivmsgOutcome | IRC_PROTOCOL_SERVER/command/Privmsg.cpp:3-44 | for every list of targets, exactly what each client is written, target after target, up to a channel the sender is not in, which is answered with 404 and ends the command |
| Outcomes.KnownIff | IRC_PROTOCOL_SERVER/command/Privmsg.cpp:13-42 | every nickname that is reached has an owner if and only if each one without stands behind a channel that ends the command |
| Protocol.StepGood | IRC_PROTOCOL_SERVER/src/Server.cpp:85-157 | every event keeps the invariant, lets nobody past the password, changes channels lawfully, and only a lost connection empties one |
| Protocol.SignUpGood | IRC_PROTOCOL_SERVER/src/Command.cpp:160-198 | before registration every command, the erasing ones included, keeps the invariant and empties no channel |
| Protocol.SignInGood | IRC_PROTOCOL_SERVER/src/Command.cpp:200-243 | the same for every command of a registered client |
| Protocol.NoticeIsUnknown | IRC_PROTOCOL_SERVER/src/Command.cpp:200-243 | NOTICE from a registered client is answered as an unknown command and does nothing else |
| Outcomes.VerbIs | IRC_PROTOCOL_SERVER/src/Command.cpp:200-243 | all fifteen words by literal with the command each of them is, and every other word unknown |
| Outcomes.FirstWordDecides | IRC_PROTOCOL_SERVER/src/Command.cpp:80-92 | a registered client's words are executed by the command the first of them is |
| Outcomes.OwnVerbs | IRC_PROTOCOL_SERVER/src/Command.cpp:204-209 | PASS, NICK and USER of a registered client reach their own commands |
| Outcomes.MembershipVerbs | IRC_PROTOCOL_SERVER/src/Command.cpp:212-219 | QUIT, PART and KICK reach their own commands |
| Outcomes.VerbJoin | IRC_PROTOCOL_SERVER/src/Command.cpp:216-217 | JOIN reaches its own command |
| Outcomes.ChannelVerbs | IRC_PROTOCOL_SERVER/src/Command.cpp:210-225 | PRIVMSG, MODE, TOPIC and INVITE reach their own commands |
| Outcomes.VerbsAnswer | IRC_PROTOCOL_SERVER/src/Command.cpp:226-241 | LIST sends what waits, WHO and WHOIS do nothing, anything else is answered with 421 and the word |
| Outcomes.VerbPing | IRC_PROTOCOL_SERVER/command/Ping.cpp:3-21 | PING is answered with its token, or 461 and the usage without one |
| Outcomes.SigningUpOutcome | IRC_PROTOCOL_SERVER/src/Command.cpp:160-198 | before registration PASS, NICK and USER are executed and followed by the greeting if all three are complete, and any other word costs the connection |
| Outcomes.DefinedIff | IRC_PROTOCOL_SERVER/src/Command.cpp:200-243 | which commands of a registered client are inside the model: all but a KICK, JOIN or PRIVMSG that reaches past its nicknames, its keys or the known receivers |
| Outcomes.ConnectionOutcome | IRC_PROTOCOL_SERVER/src/Server.cpp:94-157 | what an accept, a lost connection, a failed read and a flush leave, record by record |
| Outcomes.MessageOutcome | IRC_PROTOCOL_SERVER/src/Command.cpp:33-92 | a message is ignored, kept or executed with what was kept in front of it, by what it contains |
| Relation.CopiesAgree | IRC_PROTOCOL_SERVER/command/Join.cpp:157-170 | fd is in a channel's member list if and only if the channel is in its list; operators are members; members are registered |
| Relation.ExecuteMoves | IRC_PROTOCOL_SERVER/src/Command.cpp:200-243 | which pairs each verb adds to and takes from the two relations; for MODE, that additions and removals of operators were asked for by flag and nickname; and that no other verb moves any; which word is which verb is in Outcomes.VerbIs |
| Relation.StepMoves | IRC_PROTOCOL_SERVER/src/Server.cpp:94-157 | the same for every event of the poll loop |
| Runs.Reachable | IRC_PROTOCOL_SERVER/src/Server.cpp:85-160 | every state of every run satisfies the invariant |
| Runs.Provenance | IRC_PROTOCOL_SERVER/command/Mode.cpp:194-254 | every operator got there by a finite chain of steps that each made their client operator, by a +o that names it, from somebody who had stayed operator since its own link, to a member, back to the JOIN that created the channel; the channel has existed and the operator has stayed one since |
| Runs.ModesOnlyByOperators | IRC_PROTOCOL_SERVER/command/Mode.cpp:70-74 | while no operator sends MODE, flags, key, limit and operator additions stand still |
| Runs.TopicOnlyByOperators | IRC_PROTOCOL_SERVER/command/Topic.cpp:66-88 | while a channel stays +t its topic changes only by TOPIC from an operator |
| Runs.LimitHolds | IRC_PROTOCOL_SERVER/command/Join.cpp:142-155 | under an unchanged limit a channel never outgrows the larger of the limit and its size at the start |
| Runs.PasswordGiven | IRC_PROTOCOL_SERVER/command/Pass.cpp:25-35 | whoever counts as past PASS sent the server's password on this very connection |
| Runs.MembersGaveThePassword | IRC_PROTOCOL_SERVER/src/Command.cpp:82-91 | a channel member has completed PASS, NICK and USER and gave the password earlier in the run |
| Runs.PopulatedIff | IRC_PROTOCOL_SERVER/src/Server.cpp:285-304 | a step leaves all channels populated if and only if it does not lose a connection that was alone in one |
| Runs.ChannelsArePopulated | IRC_PROTOCOL_SERVER/command/Part.cpp:35-46 | over runs without such a loss no channel is ever without members |
| Runs.NicknamesIdentify | IRC_PROTOCOL_SERVER/command/Nick.cpp:30-81 | two clients share a nickname only if it is `*` and one has not completed NICK; any other nickname finds its owner; completed ones are valid |
| Fragments.FragmentsMakeNoDifference | IRC_PROTOCOL_SERVER/src/Command.cpp:37-60 | however a line is cut up, the server ends in the state it reaches when the line arrives whole |
| Fragments.InterleavedFragments | IRC_PROTOCOL_SERVER/src/Command.cpp:37-60 | whatever others do between the pieces, the last piece has the effect the whole line would have in its place |
| Fragments.OthersLeaveHeld | IRC_PROTOCOL_SERVER/src/Command.cpp:37-60 | no event of another client removes a client or touches its half-received line |
| Instances.ReusedDescriptor | IRC_PROTOCOL_SERVER/src/Server.cpp:125-136 | from any state, losing and taking up a connection leaves a client that stores -1 |
| Instances.Deserted | IRC_PROTOCOL_SERVER/src/Server.cpp:285-304 | a run that ends with a channel without members |
| Instances.NickMissed | IRC_PROTOCOL_SERVER/src/Util.cpp:96-128 | a run after which a member never hears of a change of nickname |
| Instances.MemberInvited | IRC_PROTOCOL_SERVER/command/Invite.cpp:40-57 | a run after which a member is invited to its own channel, and -1 is written down |
| Instances.ListCutShort | IRC_PROTOCOL_SERVER/command/Join.cpp:105-112 | a run after which a list without keys differs from the single commands |
| Instances.NothingAnnounced | IRC_PROTOCOL_SERVER/command/Mode.cpp:260-281 | a run at whose end a member has been told of two modes and the channel is as it was |
| ServerObjects.Server.FindClient | IRC_PROTOCOL_SERVER/src/Server.cpp:201-213 | the search in key order yields Find |
| ServerObjects.Server.AppendNewChannel | IRC_PROTOCOL_SERVER/src/Server.cpp:235-238 | under a new name a fresh object with its operator enters the map; under a name that is taken the map stays as it is and the object is lost |
| ServerObjects.Server.RemoveChannel | IRC_PROTOCOL_SERVER/src/Server.cpp:272-275 | the entry goes, and nothing is said of the object |
| ServerObjects.Server.DeleteChannel | IRC_PROTOCOL_SERVER/command/Part.cpp:41-42 | the delete statement, allowed only for an object that lives and that no entry holds; it may not be read afterwards |
| ServerObjects.Server.EraseTheClient | IRC_PROTOCOL_SERVER/src/Client.cpp:182-193 | the client leaves the map, its object has every flag off, every name empty and no descriptor, the others are as before |
| ServerObjects.Channel.SetMode | IRC_PROTOCOL_SERVER/src/Channel.cpp:112-158 | the effect of one mode with one sign on the record, operators included |
| ServerObjects.EraseFrom | IRC_PROTOCOL_SERVER/src/Channel.cpp:180-187 | find-then-erase removes the first occurrence and nothing else |
| ServerObjects.FindIn | IRC_PROTOCOL_SERVER/src/Channel.cpp:97-105 | the first place of a value, or the end exactly if it is absent |
| ServerObjects.Client.DeleteChannel | IRC_PROTOCOL_SERVER/src/Client.cpp:195-204 | the client's list loses the channel |
| Effects.MessageAll | IRC_PROTOCOL_SERVER/src/Util.cpp:51-95 | the loop over the members tells each of them once, one may be passed over; every lookup of a member succeeds |
| Effects.LeaveChannel | IRC_PROTOCOL_SERVER/command/Part.cpp:35-37 | both copies of the membership lose the pair |
| Effects.PruneChannel | IRC_PROTOCOL_SERVER/command/Part.cpp:39-46 | when the last member has left, the entry is removed under the channel's own name and the object deleted, after which again no object is lost and no entry holds a deleted one |
| PassCommand.Pass | IRC_PROTOCOL_SERVER/command/Pass.cpp:3-37 | the objects change as PassSpec says |
| UserCommand.User | IRC_PROTOCOL_SERVER/command/User.cpp:3-54 | the objects change as UserSpec says |
| NickCommand.FreeNick | IRC_PROTOCOL_SERVER/command/Nick.cpp:30-39 | the collision loop ends, with the number of clients whose nickname is at least as long as its measure, in FreshNick |
| NickCommand.Validate | IRC_PROTOCOL_SERVER/command/Nick.cpp:84-98 | the loop decides ValidNick |
| NickCommand.IsUnused | IRC_PROTOCOL_SERVER/command/Nick.cpp:100-113 | the search decides whether any client has the nickname |
| NickCommand.TellOnce | IRC_PROTOCOL_SERVER/src/Util.cpp:96-128 | a member is told unless the descriptor it stores was written down, and then that descriptor is |
| NickCommand.TellChannels | IRC_PROTOCOL_SERVER/src/Util.cpp:96-128 | the nested loop with its list of descriptors already met tells exactly the clients NickSpec names |
| NickCommand.Nick | IRC_PROTOCOL_SERVER/command/Nick.cpp:4-82 | the objects change as NickSpec says, which Outcomes.NickOutcome and Outcomes.NickReaches write out, and the nickname is never found in use after the loop |
| PartCommand.Part | IRC_PROTOCOL_SERVER/command/Part.cpp:4-57 | the objects change as PartSpec says |
| KickCommand.FindForeign | IRC_PROTOCOL_SERVER/command/Kick.cpp:25-34 | the loop finds the first listed channel the issuer does not run |
| KickCommand.KickPair | IRC_PROTOCOL_SERVER/command/Kick.cpp:51-95 | one channel with its nickname, error branches included, and whether the loop goes on, as KickSpec says, which KickSpec.KickOutcome writes out |
| KickCommand.Kick | IRC_PROTOCOL_SERVER/command/Kick.cpp:4-98 | the objects change as KickSpec says, and no nickname is read past the end |
| QuitCommand.Quit | IRC_PROTOCOL_SERVER/command/Quit.cpp:4-49 | the channel-by-channel loop finds every listed channel, ends, and changes the objects as the one-shot QuitSpec says |
| DisconnectCommand.Disconnect | IRC_PROTOCOL_SERVER/src/Server.cpp:285-304 | no listed channel is missing from the map, and the objects change as QuitSpec.Disconnect says |
| JoinCommand.Gates | IRC_PROTOCOL_SERVER/command/Join.cpp:91-155 | the gates of an existing channel, tried one after the other, give the refusal of JoinSpec; which one is due is in Outcomes.JoinRefused, that there is none in Outcomes.LetInIff |
| JoinCommand.JoinName | IRC_PROTOCOL_SERVER/command/Join.cpp:72-174 | one listed name, on every branch, and whether the loop goes on |
| JoinCommand.CursorInBounds | IRC_PROTOCOL_SERVER/command/Join.cpp:70-175 | the key cursor stands at the i-th key for the i-th name and never leaves the list |
| JoinCommand.Join | IRC_PROTOCOL_SERVER/command/Join.cpp:3-176 | the loop with its two cursors changes the objects as JoinSpec says |
| JoinCommand.Entries | IRC_PROTOCOL_SERVER/src/Util.cpp:204-233 | the loop lists every member in order and marks those whose stored descriptor is an operator |
| ModeCommand.LeadingSigns | IRC_PROTOCOL_SERVER/command/Mode.cpp:83-88 | skipping the signs in front does not change what the interpreter does |
| ModeCommand.ReadLimit | IRC_PROTOCOL_SERVER/command/Mode.cpp:157-177 | a parameter is a limit exactly if all of it is digits, and then its decimal value |
| Outcomes.NumberIs | IRC_PROTOCOL_SERVER/command/Mode.cpp:157-177 | the value of a number by its first digit: the digit times ten to the number of the others, plus their value |
| Outcomes.DigitsIff | IRC_PROTOCOL_SERVER/command/Mode.cpp:157-177 | a number is made of the ten digits and nothing else |
| ModeCommand.OnK | IRC_PROTOCOL_SERVER/command/Mode.cpp:123-147 | the key flag, with the cursor moved exactly when a parameter is used |
| ModeCommand.OnL | IRC_PROTOCOL_SERVER/command/Mode.cpp:148-193 | the limit flag, with the cursor moved also past a parameter that is no number |
| ModeCommand.OnO | IRC_PROTOCOL_SERVER/command/Mode.cpp:194-254 | the operator flag on every branch: the machine, the output and whether the interpreter stops, as ModeSpec says, which ModeReference.ModeIsItsOrders and ModeReference.OperatorAlone write out |
| ModeCommand.AppendValues | IRC_PROTOCOL_SERVER/command/Mode.cpp:269-276 | the parameters that were used are appended, empty ones left out |
| ModeCommand.RunFlags | IRC_PROTOCOL_SERVER/command/Mode.cpp:93-266 | the loop over the flags is where the interpreter is after every flag, early returns included |
| ModeCommand.Mode | IRC_PROTOCOL_SERVER/command/Mode.cpp:3-281 | the objects change as ModeSpec says |
| TopicCommand.TopicText | IRC_PROTOCOL_SERVER/command/Topic.cpp:78-88 | the loop puts the topic together again |
| TopicCommand.Check | IRC_PROTOCOL_SERVER/command/Topic.cpp:9-75 | no objection exactly if the issuer may set the topic; otherwise the one line it gets |
| TopicCommand.Topic | IRC_PROTOCOL_SERVER/command/Topic.cpp:4-91 | the objects change as TopicSpec says |
| InviteCommand.Check | IRC_PROTOCOL_SERVER/command/Invite.cpp:10-44 | the first reason to refuse, if there is one |
| InviteCommand.Invite | IRC_PROTOCOL_SERVER/command/Invite.cpp:4-58 | the objects change as InviteSpec says |
| PrivmsgCommand.Deliver | IRC_PROTOCOL_SERVER/command/Privmsg.cpp:13-42 | one target, channel or nickname, and whether the loop goes on |
| PrivmsgCommand.Privmsg | IRC_PROTOCOL_SERVER/command/Privmsg.cpp:3-44 | the objects change as PrivmsgSpec says |
| EventLoop.Gather | IRC_PROTOCOL_SERVER/src/Command.cpp:33-60 | a text is ignored, kept, or put behind what was kept, as Intake says |
| EventLoop.SignUp | IRC_PROTOCOL_SERVER/src/Command.cpp:160-188 | a client that is not registered: the three commands, the greeting, and erasure for anything else |
| EventLoop.SignIn | IRC_PROTOCOL_SERVER/src/Command.cpp:200-243 | each verb of a registered client reaches its own command and leaves the objects in the state Protocol.SignIn gives; which word is which verb is in Outcomes.VerbIs |
| EventLoop.Run | IRC_PROTOCOL_SERVER/src/Command.cpp:21-92 | one message changes the objects as Receive says |
| EventLoop.Flush | IRC_PROTOCOL_SERVER/src/Server.cpp:145-157 | every output buffer is cleared and nothing else changes |
| EventLoop.HandleEvent | IRC_PROTOCOL_SERVER/src/Server.cpp:102-157 | one event changes the objects as one step of the protocol |
| EventLoop.Serve | IRC_PROTOCOL_SERVER/src/Server.cpp:85-160 | along every run the objects are in the state the run prescribes |
| EventLoop.Lifetime | IRC_PROTOCOL_SERVER/src/Server.cpp:235-275 | channels constructed are as many as the ones in the map and the deleted ones together; no two names hold one object and none a deleted one |

## Left out

- Sockets, the kernel event queue, receiving, sending and closing, argument checks, signals and logging: input and output. An accept, a socket error, a failed read, a message and the flush of all buffers are the five events.
- `send` and `close` on erasing a client: the client leaves the map; what it was sent last is not kept.
- Sign-up batches of irssi: a message that contains PASS, NICK and USER is outside `Protocol.EventOk`.
- KICK with fewer nicknames than channels, where the code steps past the end of the nicknames, and reads there if the surplus channel exists: excluded by `KickSpec.KickDefined`, which `KickSpec.DefinedIff` characterises.
- JOIN with a key list that is shorter than the list of channels, where the key cursor runs past the end: excluded by `JoinSpec.JoinDefined`, which lets only names that are not channels stand beyond the last key.
- JOIN of several channels without any keys compares an iterator that was never set with the end of the empty key list: it is taken to stand at the end.
- PRIVMSG to an unknown nickname, where the code writes through the end of the client map: excluded by `PrivmsgSpec.PrivmsgDefined`, which says that every nickname that is reached has an owner.
- Truncation of messages over 512 bytes and NUL bytes: messages are taken as they are.
- ModeCommand.ReadLimit: does not model the overflow of `atoi`; a limit is the unbounded decimal value.
- The flag for a pending fragment, which the copy constructor of Client leaves unset: a new client starts without a fragment.
- The text of replies, the wording of errors, and the lines of LIST (which are sent at once together with the waiting output): replies are values.
- Memory of strings, vectors and clients, and destructors: a channel object carries a flag that its deletion clears and that every reading of it requires.
- Invitations are not promised to name connected clients: the code clears them only when a connection is lost.
- Number formatting (intToString) and the unused members of the classes, such as the assignment operator of Channel.
