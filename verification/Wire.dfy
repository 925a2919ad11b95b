/** The wire format: messages are cut into words at spaces, fragments are kept
    until a line feed arrives, and the last parameter is put together again. */
module Wire {
  const DEFAULT_REASON := "NO REASON"

  /** Index of the first d in s, or |s|. */
  function IndexOf(s: string, d: char): (i: nat)
    ensures i <= |s|
    ensures d !in s[..i]
    ensures i < |s| ==> s[i] == d
  {
    if s == "" || s[0] == d then 0
    else
      assert s == [s[0]] + s[1..];
      var i := 1 + IndexOf(s[1..], d);
      assert s[..i] == [s[0]] + s[1..][..i - 1];
      i
  }

  lemma {:induction false} IndexIs(s: string, d: char, i: nat)
    requires i <= |s| && d !in s[..i]
    requires i < |s| ==> s[i] == d
    ensures IndexOf(s, d) == i
  {
    if i > 0 {
      assert s[..i][0] == s[0];
      assert s[1..][..i - 1] == s[..i][1..];
      IndexIs(s[1..], d, i - 1);
    }
  }

  /** Reading with getline until the stream is exhausted. A delimiter at the
      very end opens no further piece. */
  function Split(s: string, d: char): seq<string>
    decreases |s|
  {
    if s == "" then []
    else
      var i := IndexOf(s, d);
      [s[..i]] + Split(if i < |s| then s[i + 1..] else "", d)
  }

  /** The pieces with the delimiter between them. */
  function Glue(pieces: seq<string>, d: char): string {
    if pieces == [] then ""
    else if |pieces| == 1 then pieces[0]
    else pieces[0] + [d] + Glue(pieces[1..], d)
  }

  lemma GlueFirst(w: string, pieces: seq<string>, d: char)
    requires pieces != []
    ensures Glue([w] + pieces, d) == w + [d] + Glue(pieces, d)
  {
    assert ([w] + pieces)[1..] == pieces;
  }

  function WithoutLast(s: string, d: char): string {
    if s != "" && s[|s| - 1] == d then s[..|s| - 1] else s
  }

  lemma WithoutLastOf(w: string, d: char, rest: string)
    requires rest != ""
    ensures WithoutLast(w + [d] + rest, d) == w + [d] + WithoutLast(rest, d)
  {
    var s := w + [d] + rest;
    assert s[..|s| - 1] == w + [d] + rest[..|rest| - 1];
  }

  /** The pieces are what stands between the delimiters: put together again they are
      the text, except for a delimiter at its very end. */
  lemma {:induction false} SplitRejoins(s: string, d: char)
    requires s != ""
    ensures Split(s, d) != [] && forall p | p in Split(s, d) :: d !in p
    ensures Glue(Split(s, d), d) == WithoutLast(s, d)
    decreases |s|
  {
    var i := IndexOf(s, d);
    if i == |s| {
      assert s[..i] == s;
    } else {
      var w, rest := s[..i], s[i + 1..];
      assert s == w + [d] + rest;
      if rest != "" {
        SplitRejoins(rest, d);
        GlueFirst(w, Split(rest, d), d);
        WithoutLastOf(w, d, rest);
      }
    }
  }

  function JoinWords(words: seq<string>): string {
    if words == [] then ""
    else if |words| == 1 then words[0]
    else words[0] + " " + JoinWords(words[1..])
  }

  predicate IsEol(c: char) {
    c == '\r' || c == '\n'
  }

  /** Cuts the carriage returns and line feeds at the end. */
  function StripEol(w: string): string {
    if w != "" && IsEol(w[|w| - 1]) then StripEol(w[..|w| - 1]) else w
  }

  function StripAll(words: seq<string>): seq<string> {
    if words == [] then [] else [StripEol(words[0])] + StripAll(words[1..])
  }

  function UpperChar(c: char): char {
    if 'a' <= c <= 'z' then c - ('a' - 'A') else c
  }

  function Upper(w: string): (u: string)
    ensures |u| == |w|
    ensures forall i | 0 <= i < |w| :: u[i] == UpperChar(w[i])
  {
    seq(|w|, i requires 0 <= i < |w| => UpperChar(w[i]))
  }

  /** The words of one message; only the command word is put in upper case. */
  function Words(message: string): seq<string> {
    WordsOf(Split(message, ' '))
  }

  function WordsOf(pieces: seq<string>): seq<string> {
    if pieces == [] then [] else [Upper(StripEol(pieces[0]))] + StripAll(pieces[1..])
  }

  /** The text carried by the words from `index` on. */
  function ChannelMessage(index: nat, words: seq<string>): string {
    var joined := JoinWords(if index < |words| then words[index..] else []);
    var text := if joined != "" && joined[0] == ':' then joined[1..] else joined;
    if text == "" then DEFAULT_REASON else text
  }

  predicate Contains(s: string, t: string) {
    exists i | 0 <= i <= |s| - |t| :: t <= s[i..]
  }

  /** A whole sign-up in one message, which irssi sends. */
  predicate IsBatch(s: string) {
    Contains(s, "PASS") && Contains(s, "NICK") && Contains(s, "USER")
  }

  // ---- fragments -----------------------------------------------------------

  datatype Outcome = Nothing | Batch | Ready(words: seq<string>)

  /** What a client has sent of a line that is not complete yet. */
  datatype Buffer = Buffer(text: string, partial: bool)

  /** One message arrives: the buffer afterwards and what is to be executed. */
  function Intake(b: Buffer, message: string): (Buffer, Outcome) {
    if Contains(message, "CAP LS") then (b, Nothing)
    else if '\n' !in message then (Buffer(b.text + message, true), Nothing)
    else if IsBatch(message) then (b, Batch)
    else if b.partial then (Buffer("", false), Ready(Words(b.text + message)))
    else (b, Ready(Words(message)))
  }

  function IntakeAll(b: Buffer, messages: seq<string>): (Buffer, Outcome)
    decreases |messages|
  {
    if messages == [] then (b, Nothing)
    else if |messages| == 1 then Intake(b, messages[0])
    else IntakeAll(Intake(b, messages[0]).0, messages[1..])
  }

  function Concat(pieces: seq<string>): string {
    if pieces == [] then "" else pieces[0] + Concat(pieces[1..])
  }

  ghost predicate IsFragment(piece: string) {
    '\n' !in piece && !Contains(piece, "CAP LS")
  }

  /** A line that is not one of the two kinds that are recognised whole. */
  ghost predicate IsPlainLine(line: string) {
    '\n' in line && !Contains(line, "CAP LS") && !IsBatch(line)
  }

  lemma FragmentIsKept(b: Buffer, f: string)
    requires IsFragment(f)
    ensures Intake(b, f) == (Buffer(b.text + f, true), Nothing)
  {
  }

  lemma LineIsTaken(b: Buffer, last: string)
    requires IsPlainLine(last) && (!b.partial ==> b.text == "")
    ensures Intake(b, last) == (Buffer("", false), Ready(Words(b.text + last)))
  {
    assert "" + last == last;
  }

  lemma OneMorePiece(b: Buffer, fragments: seq<string>, last: string)
    requires fragments != []
    ensures IntakeAll(b, fragments + [last]) == IntakeAll(Intake(b, fragments[0]).0, fragments[1..] + [last])
    ensures b.text + fragments[0] + Concat(fragments[1..]) + last == b.text + Concat(fragments) + last
  {
    assert (fragments + [last])[1..] == fragments[1..] + [last];
  }

  /** After any number of fragments the buffer holds their concatenation. */
  lemma {:induction false} FragmentsAreHeld(b: Buffer, fragments: seq<string>, last: string)
    requires (forall f | f in fragments :: IsFragment(f)) && IsPlainLine(last)
    requires !b.partial ==> b.text == ""
    ensures IntakeAll(b, fragments + [last])
         == (Buffer("", false), Ready(Words(b.text + Concat(fragments) + last)))
    decreases |fragments|
  {
    if fragments == [] {
      LineIsTaken(b, last);
      assert fragments + [last] == [last];
      assert b.text + Concat(fragments) + last == b.text + last;
    } else {
      FragmentIsKept(b, fragments[0]);
      OneMorePiece(b, fragments, last);
      FragmentsAreHeld(Intake(b, fragments[0]).0, fragments[1..], last);
    }
  }

  /** Cutting a line into pieces makes no difference exactly when the line as a
      whole is not one of the two kinds of message that are recognised whole. */
  lemma Reassembly(fragments: seq<string>, last: string)
    requires (forall f | f in fragments :: IsFragment(f)) && IsPlainLine(last)
    ensures var whole := Concat(fragments) + last;
            IntakeAll(Buffer("", false), fragments + [last]) == Intake(Buffer("", false), whole)
            <==> IsPlainLine(whole)
  {
    var whole := Concat(fragments) + last;
    FragmentsAreHeld(Buffer("", false), fragments, last);
    LineFeedStays(Concat(fragments), last);
    ReadyIff(whole, IntakeAll(Buffer("", false), fragments + [last]));
  }

  lemma LineFeedStays(front: string, last: string)
    requires '\n' in last
    ensures '\n' in front + last && "" + front + last == front + last
  {
    assert "" + front == front;
  }

  lemma ReadyIff(line: string, got: (Buffer, Outcome))
    requires '\n' in line && got == (Buffer("", false), Ready(Words(line)))
    ensures got == Intake(Buffer("", false), line) <==> IsPlainLine(line)
  {
  }

  lemma TooShort(s: string, t: string)
    requires |s| < |t|
    ensures !Contains(s, t)
  {
  }

  /** A line cut inside `CAP LS` is executed, the same line in one piece is not. */
  lemma CutCapability()
    ensures IntakeAll(Buffer("", false), ["CAP "] + ["LS\n"]).1.Ready?
    ensures Intake(Buffer("", false), "CAP LS\n").1 == Nothing
  {
    TooShort("CAP ", "CAP LS");
    TooShort("LS\n", "CAP LS");
    TooShort("LS\n", "PASS");
    assert "LS\n"[2] == '\n';
    FragmentsAreHeld(Buffer("", false), ["CAP "], "LS\n");
    assert "CAP LS" <= "CAP LS\n"[0..];
  }

  // ---- the last parameter --------------------------------------------------

  lemma SplitHead(w: string, d: char, rest: string)
    requires d !in w
    ensures Split(w + [d] + rest, d) == [w] + Split(rest, d)
  {
    var s := w + [d] + rest;
    assert s[..|w|] == w;
    IndexIs(s, d, |w|);
    assert s[|w| + 1..] == rest;
  }

  lemma StripClean(w: string)
    requires forall c | c in w :: !IsEol(c)
    ensures StripEol(w) == w && StripEol(w + "\r\n") == w
  {
    assert (w + "\r\n")[..|w| + 1] == w + "\r";
    assert (w + "\r")[..|w|] == w;
    assert StripEol(w + "\r\n") == StripEol(w + "\r") == StripEol(w);
  }

  lemma JoinFirst(w: string, pieces: seq<string>)
    requires (forall c | c in w :: !IsEol(c)) && pieces != []
    ensures JoinWords(StripAll([w] + pieces)) == w + " " + JoinWords(StripAll(pieces))
  {
    StripClean(w);
    assert ([w] + pieces)[1..] == pieces;
    assert ([w] + StripAll(pieces))[1..] == StripAll(pieces);
  }

  lemma SplitWhole(s: string, d: char)
    requires s != "" && d !in s
    ensures Split(s, d) == [s]
  {
    IndexIs(s, d, |s|);
    assert s[..|s|] == s;
    assert Split("", d) == [];
  }

  lemma OnePiece(line: string)
    requires ' ' !in line && forall c | c in line :: !IsEol(c)
    ensures StripAll(Split(line + "\r\n", ' ')) == [line]
  {
    var s := line + "\r\n";
    SplitWhole(s, ' ');
    StripClean(line);
    assert StripAll([s]) == [line];
  }

  lemma CutAt(line: string, d: char, i: nat)
    requires i < |line| && line[i] == d
    ensures line == line[..i] + [d] + line[i + 1..]
    ensures line + "\r\n" == line[..i] + [d] + (line[i + 1..] + "\r\n")
  {
  }

  /** Cutting a line at its spaces and joining the words gives the line back. */
  lemma {:induction false} JoinAfterSplit(line: string)
    requires forall c | c in line :: !IsEol(c)
    ensures var pieces := StripAll(Split(line + "\r\n", ' '));
            pieces != [] && JoinWords(pieces) == line
    decreases |line|
  {
    var i := IndexOf(line, ' ');
    if i == |line| {
      OnePiece(line);
    } else {
      var w, rest := line[..i], line[i + 1..];
      CutAt(line, ' ', i);
      SplitHead(w, ' ', rest + "\r\n");
      JoinAfterSplit(rest);
      JoinFirst(w, Split(rest + "\r\n", ' '));
    }
  }

  predicate IsPlain(w: string) {
    forall c | c in w :: c != ' ' && !IsEol(c)
  }

  lemma StripFirst(w: string, pieces: seq<string>)
    ensures StripAll([w] + pieces) == [StripEol(w)] + StripAll(pieces)
  {
    assert ([w] + pieces)[1..] == pieces;
  }

  lemma {:induction false} PlainPieces(words: seq<string>)
    requires words != [] && forall w | w in words :: IsPlain(w)
    ensures StripAll(Split(JoinWords(words) + "\r\n", ' ')) == words
  {
    var w, rest := words[0], words[1..];
    assert w in words && IsPlain(w);
    if rest == [] {
      OnePiece(w);
    } else {
      assert JoinWords(words) + "\r\n" == w + [' '] + (JoinWords(rest) + "\r\n");
      SplitHead(w, ' ', JoinWords(rest) + "\r\n");
      PlainPieces(rest);
      StripClean(w);
      StripFirst(w, Split(JoinWords(rest) + "\r\n", ' '));
    }
  }

  /** A line made of words without spaces and line ends comes back as these words,
      the first one in upper case. */
  lemma PlainWords(words: seq<string>)
    requires words != [] && forall w | w in words :: IsPlain(w)
    ensures Words(JoinWords(words) + "\r\n") == [Upper(words[0])] + words[1..]
  {
    PlainPieces(words);
    var pieces := Split(JoinWords(words) + "\r\n", ' ');
    assert StripAll(pieces)[1..] == StripAll(pieces[1..]);
  }

  lemma {:induction false} JoinWithout(words: seq<string>, c: char)
    requires c != ' ' && forall w | w in words :: c !in w
    ensures c !in JoinWords(words)
  {
    if |words| > 1 {
      JoinWithout(words[1..], c);
    }
  }

  lemma LacksLetter(s: string, t: string, c: char)
    requires c in t && c !in s
    ensures !Contains(s, t)
  {
  }

  lemma SplitTwice(v: string, t: string, rest: string)
    requires ' ' !in v && ' ' !in t
    ensures Split(v + " " + t + " " + rest, ' ') == [v, t] + Split(rest, ' ')
  {
    assert v + " " + t + " " + rest == v + [' '] + (t + [' '] + rest);
    SplitHead(v, ' ', t + [' '] + rest);
    SplitHead(t, ' ', rest);
  }

  lemma WordsFromTwo(v: string, t: string, pieces: seq<string>)
    ensures WordsOf([v, t] + pieces) == [Upper(StripEol(v)), StripEol(t)] + StripAll(pieces)
  {
    assert ([v, t] + pieces)[1..] == [t] + pieces;
    assert ([t] + pieces)[1..] == pieces;
  }

  /** The words of a message with a trailing parameter. */
  lemma TrailingWords(verb: string, target: string, text: string)
    requires ' ' !in verb && ' ' !in target
    requires forall c | c in text :: !IsEol(c)
    ensures var words := Words(verb + " " + target + " :" + text + "\r\n");
      && |words| >= 3 && words[0] == Upper(StripEol(verb)) && words[1] == StripEol(target)
      && words[2..] == StripAll(Split(":" + text + "\r\n", ' '))
      && JoinWords(words[2..]) == ":" + text
  {
    var body := ":" + text;
    assert verb + " " + target + " :" + text + "\r\n" == verb + " " + target + " " + (body + "\r\n");
    SplitTwice(verb, target, body + "\r\n");
    WordsFromTwo(verb, target, Split(body + "\r\n", ' '));
    JoinAfterSplit(body);
  }

  /** The trailing parameter of a message survives tokenizing and rejoining
      exactly when it is not empty. */
  lemma TrailingRoundTrip(verb: string, target: string, text: string)
    requires ' ' !in verb && ' ' !in target
    requires forall c | c in text :: !IsEol(c)
    ensures ChannelMessage(2, Words(verb + " " + target + " :" + text + "\r\n")) == text
            <==> text != ""
    ensures var words := Words(verb + " " + target + " :" + text + "\r\n");
            |words| >= 3 && words[0] == Upper(StripEol(verb)) && words[1] == StripEol(target)
  {
    TrailingWords(verb, target, text);
    assert (":" + text)[1..] == text;
  }

  // ---- line ends inside words ----------------------------------------------

  ghost predicate HoldsEol(w: string) {
    exists i | 0 <= i < |w| :: IsEol(w[i])
  }

  /** A line end with something else behind it: it is not at the end of the piece. */
  ghost predicate HasInner(piece: string) {
    exists i, j | 0 <= i < j < |piece| :: IsEol(piece[i]) && !IsEol(piece[j])
  }

  lemma {:induction false} StripHolds(w: string)
    ensures HoldsEol(StripEol(w)) <==> HasInner(w)
  {
    if w != "" && IsEol(w[|w| - 1]) {
      var v := w[..|w| - 1];
      StripHolds(v);
      if HasInner(w) {
        var i, j :| 0 <= i < j < |w| && IsEol(w[i]) && !IsEol(w[j]);
        assert IsEol(v[i]) && !IsEol(v[j]);
      }
      if HasInner(v) {
        var i, j :| 0 <= i < j < |v| && IsEol(v[i]) && !IsEol(v[j]);
        assert IsEol(w[i]) && !IsEol(w[j]);
      }
    } else if HoldsEol(w) {
      var i :| 0 <= i < |w| && IsEol(w[i]);
      assert IsEol(w[i]) && !IsEol(w[|w| - 1]);
    }
  }

  lemma UpperHolds(w: string)
    ensures HoldsEol(Upper(w)) <==> HoldsEol(w)
  {
    assert forall i | 0 <= i < |w| :: IsEol(Upper(w)[i]) <==> IsEol(w[i]);
  }

  lemma {:induction false} StripAllAt(pieces: seq<string>)
    ensures |StripAll(pieces)| == |pieces|
    ensures forall i | 0 <= i < |pieces| :: StripAll(pieces)[i] == StripEol(pieces[i])
  {
    if pieces != [] {
      StripAllAt(pieces[1..]);
    }
  }

  /** A word of a message holds a line end exactly when its piece has one that is not at
      its end: line ends are cut off behind a word, not inside it. */
  lemma WordHolds(message: string, i: nat)
    requires i < |Split(message, ' ')|
    ensures |Words(message)| == |Split(message, ' ')|
    ensures HoldsEol(Words(message)[i]) <==> HasInner(Split(message, ' ')[i])
  {
    var pieces := Split(message, ' ');
    StripAllAt(pieces[1..]);
    StripHolds(pieces[i]);
    UpperHolds(StripEol(pieces[0]));
  }

  lemma HoldsConcat(a: string, b: string)
    ensures HoldsEol(a + b) <==> HoldsEol(a) || HoldsEol(b)
  {
    if HoldsEol(a) {
      var i :| 0 <= i < |a| && IsEol(a[i]);
      assert (a + b)[i] == a[i];
    }
    if HoldsEol(b) {
      var i :| 0 <= i < |b| && IsEol(b[i]);
      assert (a + b)[|a| + i] == b[i];
    }
  }

  ghost predicate SomeHolds(words: seq<string>) {
    exists w | w in words :: HoldsEol(w)
  }

  lemma {:induction false} JoinHolds(words: seq<string>)
    ensures HoldsEol(JoinWords(words)) <==> SomeHolds(words)
  {
    if |words| > 1 {
      var rest := words[1..];
      JoinHolds(rest);
      HoldsConcat(words[0] + " ", JoinWords(rest));
      HoldsConcat(words[0], " ");
      assert !HoldsEol(" ");
      assert words == [words[0]] + rest;
      assert SomeHolds(words) <==> HoldsEol(words[0]) || SomeHolds(rest);
    }
  }

  lemma ChannelMessageHolds(index: nat, words: seq<string>)
    ensures HoldsEol(ChannelMessage(index, words)) <==> index < |words| && SomeHolds(words[index..])
  {
    var joined := JoinWords(if index < |words| then words[index..] else []);
    JoinHolds(if index < |words| then words[index..] else []);
    var text := if joined != "" && joined[0] == ':' then joined[1..] else joined;
    if joined != "" && joined[0] == ':' {
      HoldsConcat(":", text);
      assert joined == ":" + text && !HoldsEol(":");
    }
    assert !HoldsEol(DEFAULT_REASON);
  }

  /** The text that is relayed holds a line end, so that its receivers see a second line
      without the sender's prefix, exactly when a piece of the message behind the target
      has a line end that is not at its end. */
  lemma RelayedLineEnds(index: nat, message: string)
    ensures HoldsEol(ChannelMessage(index, Words(message)))
       <==> exists i | index <= i < |Split(message, ' ')| :: HasInner(Split(message, ' ')[i])
  {
    var pieces, words := Split(message, ' '), Words(message);
    ChannelMessageHolds(index, words);
    if pieces != [] {
      WordHolds(message, 0);
    }
    if index < |words| && SomeHolds(words[index..]) {
      var w :| w in words[index..] && HoldsEol(w);
      var i :| 0 <= i < |words[index..]| && words[index..][i] == w;
      WordHolds(message, index + i);
    }
    if i: nat :| index <= i < |pieces| && HasInner(pieces[i]) {
      WordHolds(message, i);
      assert words[index..][i - index] == words[i];
    }
  }

  lemma StripLineEnd(w: string)
    requires w != "" && !IsEol(w[|w| - 1])
    ensures StripEol(w + "\r\n") == w
  {
    assert (w + "\r\n")[..|w| + 1] == w + "\r";
    assert (w + "\r")[..|w|] == w;
    assert StripEol(w + "\r\n") == StripEol(w + "\r") == StripEol(w);
  }

  lemma LastWordText(verb: string, target: string, word: string)
    requires ' ' !in verb && ' ' !in target && ' ' !in word
    requires word != "" && !IsEol(word[|word| - 1])
    ensures var words := Words(verb + " " + target + " " + (word + "\r\n"));
      |words| == 3 && words[2..] == [word]
  {
    var piece := word + "\r\n";
    SplitTwice(verb, target, piece);
    SplitWhole(piece, ' ');
    WordsFromTwo(verb, target, [piece]);
    StripLineEnd(word);
    assert StripAll([piece]) == [word];
  }

  /** Two lines that arrive in one read are one message; the second becomes text. */
  lemma TwoLinesAreOne()
    ensures ChannelMessage(2, Words("PRIVMSG" + " " + "#c" + " " + (":hi\r\nNICK" + "\r\n"))) == "hi\r\nNICK"
  {
    LastWordText("PRIVMSG", "#c", ":hi\r\nNICK");
    assert ":hi\r\nNICK"[1..] == "hi\r\nNICK";
  }

  // ---- the loops of the source -------------------------------------------

  /** The end of the piece that starts at `from`. */
  method PieceEnd(s: string, from: nat, d: char) returns (end: nat)
    requires from < |s|
    ensures from <= end <= |s|
    ensures end - from == IndexOf(s[from..], d)
  {
    end := from;
    while end < |s| && s[end] != d
      invariant from <= end <= |s|
      invariant d !in s[from..end]
    {
      assert s[from..end + 1] == s[from..end] + [s[end]];
      end := end + 1;
    }
    assert s[from..][..end - from] == s[from..end];
    IndexIs(s[from..], d, end - from);
  }

  function After(end: nat, s: string): nat {
    if end < |s| then end + 1 else end
  }

  lemma Slices(s: string, from: nat, end: nat)
    requires from <= end <= |s|
    ensures s[from..][..end - from] == s[from..end]
    ensures end < |s| ==> s[from..][end - from + 1..] == s[end + 1..]
    ensures end == |s| ==> s[end..] == ""
  {
  }

  lemma SplitStep(s: string, from: nat, end: nat, d: char)
    requires from < |s| && from <= end <= |s|
    requires end - from == IndexOf(s[from..], d)
    ensures After(end, s) <= |s|
    ensures Split(s[from..], d) == [s[from..end]] + Split(s[After(end, s)..], d)
  {
    Slices(s, from, end);
  }

  lemma Regroup<T>(a: seq<T>, x: T, b: seq<T>)
    ensures (a + [x]) + b == a + ([x] + b)
  {
  }

  method SplitAt(str: string, delim: char) returns (parts: seq<string>)
    ensures parts == Split(str, delim)
  {
    parts := [];
    var pos := 0;
    assert str[pos..] == str;
    while pos < |str|
      invariant pos <= |str|
      invariant parts + Split(str[pos..], delim) == Split(str, delim)
    {
      var end := PieceEnd(str, pos, delim);
      SplitStep(str, pos, end, delim);
      Regroup(parts, str[pos..end], Split(str[After(end, str)..], delim));
      parts := parts + [str[pos..end]];
      pos := if end < |str| then end + 1 else end;
    }
    assert str[pos..] == "";
  }

  method TrimEol(buffer: string) returns (word: string)
    ensures word == StripEol(buffer)
  {
    var size := |buffer|;
    assert buffer[..size] == buffer;
    while size > 0 && IsEol(buffer[size - 1])
      invariant size <= |buffer|
      invariant StripEol(buffer[..size]) == StripEol(buffer)
    {
      assert buffer[..size][..size - 1] == buffer[..size - 1];
      size := size - 1;
    }
    word := buffer[..size];
  }

  method ToUpper(word: string) returns (upper: string)
    ensures upper == Upper(word)
  {
    upper := "";
    for i := 0 to |word|
      invariant |upper| == i
      invariant forall j | 0 <= j < i :: upper[j] == UpperChar(word[j])
    {
      upper := upper + [UpperChar(word[i])];
    }
  }

  lemma StripAllAppend(words: seq<string>, w: string)
    ensures StripAll(words + [w]) == StripAll(words) + [StripEol(w)]
  {
    if words != [] {
      assert (words + [w])[1..] == words[1..] + [w];
      StripAllAppend(words[1..], w);
    } else {
      assert words + [w] == [w];
    }
  }

  lemma WordsOfAppend(pieces: seq<string>, piece: string)
    ensures WordsOf(pieces + [piece])
         == WordsOf(pieces) + [if pieces == [] then Upper(StripEol(piece)) else StripEol(piece)]
  {
    if pieces == [] {
      assert pieces + [piece] == [piece];
    } else {
      assert (pieces + [piece])[1..] == pieces[1..] + [piece];
      StripAllAppend(pieces[1..], piece);
    }
  }

  /** The parsing loop of Command::run. */
  method Tokenize(message: string) returns (words: seq<string>)
    ensures words == Words(message)
  {
    words := [];
    var pos := 0;
    ghost var raw: seq<string> := [];
    assert message[pos..] == message;
    while pos < |message|
      invariant pos <= |message|
      invariant raw + Split(message[pos..], ' ') == Split(message, ' ')
      invariant words == WordsOf(raw) && |words| == |raw|
    {
      var end := PieceEnd(message, pos, ' ');
      var command := TrimEol(message[pos..end]);
      if |words| == 0 {
        command := ToUpper(command);
      }
      SplitStep(message, pos, end, ' ');
      Regroup(raw, message[pos..end], Split(message[After(end, message)..], ' '));
      WordsOfAppend(raw, message[pos..end]);
      words := words + [command];
      raw := raw + [message[pos..end]];
      pos := if end < |message| then end + 1 else end;
    }
    assert message[pos..] == "";
    assert raw == Split(message, ' ');
  }

  lemma {:induction false} JoinWordsAppend(words: seq<string>, w: string)
    ensures JoinWords(words + [w]) == if words == [] then w else JoinWords(words) + " " + w
  {
    if words == [] {
      assert words + [w] == [w];
    } else {
      assert (words + [w])[1..] == words[1..] + [w];
      JoinWordsAppend(words[1..], w);
    }
  }

  method JoinFrom(index: nat, words: seq<string>) returns (message: string)
    ensures message == JoinWords(if index < |words| then words[index..] else [])
  {
    message := "";
    var i := index;
    while i < |words|
      invariant index <= i && (i <= |words| || i == index)
      invariant index < |words| ==>
                  message == JoinWords(words[index..i]) + if index < i < |words| then " " else ""
      invariant index >= |words| ==> message == ""
    {
      assert words[index..i + 1] == words[index..i] + [words[i]];
      JoinWordsAppend(words[index..i], words[i]);
      message := message + words[i];
      if i != |words| - 1 {
        message := message + " ";
      }
      i := i + 1;
    }
    if index < |words| {
      assert words[index..i] == words[index..];
    }
  }

  method ChannelText(index: nat, words: seq<string>) returns (message: string)
    ensures message == ChannelMessage(index, words)
  {
    message := JoinFrom(index, words);
    if message != "" && message[0] == ':' {
      message := message[1..];
    }
    if |message| == 0 {
      message := DEFAULT_REASON;
    }
  }
}
