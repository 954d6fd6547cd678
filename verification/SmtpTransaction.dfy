/**
  Whole mail transactions: what a client that sends MAIL FROM, RCPT TO, DATA and a body, in whatever
  chunks, finds captured and is answered.
*/
module SmtpTransaction {
  import opened Wrappers
  import opened Speakers
  import opened FakeSmtp

  // ----- the commands are recognized -----

  /** A command is recognized by its first characters, in either case. */
  lemma {:induction false} StartsMeans(line: string, command: string)
    ensures Starts(line, command) <==> |command| <= |line| && forall i :: 0 <= i < |command| ==> Upper(line[i]) == command[i]
  {
    if command != "" && line != "" {
      StartsMeans(line[1..], command[1..]);
      assert forall i :: 1 <= i < |command| && i < |line| ==> line[i] == line[1..][i - 1] && command[i] == command[1..][i - 1];
      if |command| <= |line| && Upper(line[0]) == command[0] && forall i :: 0 <= i < |command| ==> Upper(line[i]) == command[i] {
        assert forall i :: 0 <= i < |command[1..]| ==> Upper(line[1..][i]) == command[1..][i];
      }
    }
  }

  lemma {:induction false} GreetingsAreRecognized(rest: string)
    ensures VerbOf(EHLO + rest) == Hello && VerbOf(HELO + rest) == Hello && VerbOf(AUTH_PLAIN + rest) == AuthPlain
    ensures VerbOf(NOOP + rest) == Noop && VerbOf(QUIT + rest) == Quit
  {
    StartsWithItself(EHLO, rest);
    StartsWithItself(HELO, rest);
    StartsWithItself(AUTH_PLAIN, rest);
    StartsWithItself(NOOP, rest);
    StartsWithItself(QUIT, rest);
  }

  lemma {:induction false} MailCommandsAreRecognized(rest: string)
    ensures VerbOf(MAIL_FROM + rest) == MailFrom && VerbOf(RCPT_TO + rest) == RcptTo && VerbOf(DATA + rest) == Data
  {
    StartsWithItself(MAIL_FROM, rest);
    StartsWithItself(RCPT_TO, rest);
    StartsWithItself(DATA, rest);
  }

  /** RSET shares its first character with RCPT TO, which is tried before it. */
  lemma {:induction false} ResetIsRecognized(rest: string)
    ensures VerbOf(RSET + rest) == Rset
  {
    StartsWithItself(RSET, rest);
    StartsMeans(RSET + rest, RCPT_TO);
    assert (RSET + rest)[1] == 'S';
  }

  /** Each command is recognized whatever follows it. */
  lemma {:induction false} EachCommandIsRecognized(rest: string)
    ensures VerbOf(EHLO + rest) == Hello && VerbOf(HELO + rest) == Hello && VerbOf(AUTH_PLAIN + rest) == AuthPlain
    ensures VerbOf(MAIL_FROM + rest) == MailFrom && VerbOf(RCPT_TO + rest) == RcptTo && VerbOf(DATA + rest) == Data
    ensures VerbOf(RSET + rest) == Rset && VerbOf(NOOP + rest) == Noop && VerbOf(QUIT + rest) == Quit
  {
    GreetingsAreRecognized(rest);
    MailCommandsAreRecognized(rest);
    ResetIsRecognized(rest);
  }

  /** An address, or anything else that can stand between angle brackets on one line. */
  ghost predicate Plain(address: string) {
    forall i :: 0 <= i < |address| ==> address[i] != '<' && address[i] != '>' && address[i] != '\n'
  }

  lemma {:induction false} PlainHasNoAngles(address: string, rest: string)
    requires Plain(address)
    ensures WithoutAngles(address + rest) == address + WithoutAngles(rest)
  {
    if address == "" {
      assert address + rest == rest;
    } else {
      assert (address + rest)[1..] == address[1..] + rest;
      PlainHasNoAngles(address[1..], rest);
    }
  }

  /** The argument is what stands between the angle brackets. */
  lemma {:induction false} ArgumentIsAddress(command: string, address: string)
    requires Plain(address)
    ensures Argument(command + "<" + address + ">", command) == address
  {
    var bracketed := "<" + address + ">";
    assert (command + "<" + address + ">")[|command|..] == bracketed;
    assert TrimStart(bracketed) == bracketed;
    assert bracketed[1..] == address + ">";
    PlainHasNoAngles(address, ">");
    assert WithoutAngles(">") == "" by { assert ">"[1..] == ""; }
  }

  lemma {:induction false} SpacesAreDropped(spaces: string, rest: string)
    requires AllSpace(spaces) && (rest != "" ==> !IsSpace(rest[0]))
    ensures TrimStart(spaces + rest) == rest
  {
    if spaces == "" {
      assert spaces + rest == rest;
    } else {
      assert (spaces + rest)[1..] == spaces[1..] + rest;
      SpacesAreDropped(spaces[1..], rest);
    }
  }

  /** White space may stand before the address, with brackets or without. */
  lemma {:induction false} SpacedArgument(command: string, spaces: string, address: string)
    requires AllSpace(spaces) && Plain(address) && (address != "" ==> !IsSpace(address[0]))
    ensures Argument(command + spaces + address, command) == address
    ensures Argument(command + spaces + ("<" + address + ">"), command) == address
  {
    var bracketed := "<" + address + ">";
    assert (command + spaces + address)[|command|..] == spaces + address;
    assert (command + spaces + bracketed)[|command|..] == spaces + bracketed;
    SpacesAreDropped(spaces, address);
    SpacesAreDropped(spaces, bracketed);
    PlainHasNoAngles(address, "");
    assert address + "" == address;
    assert bracketed[1..] == address + ">";
    PlainHasNoAngles(address, ">");
    assert WithoutAngles(">") == "" by { assert ">"[1..] == ""; }
  }

  // ----- lines on the wire -----

  function Wire(lines: seq<string>): string {
    if lines == [] then "" else lines[0] + "\r\n" + Wire(lines[1..])
  }

  ghost predicate OneLineEach(lines: seq<string>) {
    forall i :: 0 <= i < |lines| ==> Newline(lines[i]) == |lines[i]|
  }

  /** The handler takes up these lines and meets no QUIT among them. */
  predicate NoQuit(s: State, lines: seq<string>)
    decreases |lines|
  {
    lines == [] || (!IsQuit(s, lines[0]) && NoQuit(HandleLine(s, lines[0]), lines[1..]))
  }

  lemma {:induction false} BufferIsCarried(s: State, line: string, a: string, b: string)
    ensures HandleLine(s.(buffer := a), line).buffer == a
    ensures HandleLine(s.(buffer := a), line).(buffer := b) == HandleLine(s.(buffer := b), line)
  {
    HandlingLeavesBuffer(s.(buffer := a), line);
    assert s.(buffer := a).(buffer := b) == s.(buffer := b);
  }

  lemma {:induction false} FirstOnTheWire(s: State, lines: seq<string>, rest: string)
    requires lines != [] && Newline(lines[0]) == |lines[0]| && s.buffer == Wire(lines) + rest
    ensures HasLine(s.buffer) && FirstLine(s.buffer) == lines[0] && AfterLine(s.buffer) == Wire(lines[1..]) + rest
  {
    assert s.buffer == lines[0] + "\r\n" + (Wire(lines[1..]) + rest);
    PumpOneLine(s, lines[0], Wire(lines[1..]) + rest);
  }

  /** Pumping lines from the wire is handling them one by one. */
  lemma {:induction false} WireIsHandled(s: State, lines: seq<string>, rest: string)
    requires OneLineEach(lines) && s.buffer == Wire(lines) + rest && NoQuit(s.(buffer := rest), lines)
    ensures var next := HandleLines(s.(buffer := rest), lines);
            Pump(s) == Pump(next) && Quits(s) == Quits(next) && next.buffer == rest
    decreases |lines|
  {
    if lines == [] {
      assert s.buffer == rest && s.(buffer := rest) == s;
    } else {
      var more := Wire(lines[1..]) + rest;
      FirstOnTheWire(s, lines, rest);
      BufferIsCarried(s, lines[0], more, rest);
      WireIsHandled(HandleLine(s.(buffer := more), lines[0]), lines[1..], rest);
    }
  }

  lemma {:induction false} HandleMore(s: State, a: seq<string>, b: seq<string>)
    ensures HandleLines(s, a + b) == HandleLines(HandleLines(s, a), b)
    ensures NoQuit(s, a + b) <==> NoQuit(s, a) && NoQuit(HandleLines(s, a), b)
    decreases |a|
  {
    if a == [] {
      assert a + b == b;
    } else {
      assert (a + b)[1..] == a[1..] + b;
      HandleMore(HandleLine(s, a[0]), a[1..], b);
    }
  }

  // ----- a transaction -----

  function RcptLines(to: seq<string>): seq<string> {
    if to == [] then [] else [RCPT_TO + "<" + to[0] + ">"] + RcptLines(to[1..])
  }

  function RecipientReplies(n: nat): seq<string> {
    if n == 0 then [] else ["250 recipient ok"] + RecipientReplies(n - 1)
  }

  /** A connection between two transactions. */
  ghost predicate Ready(s: State) {
    Sound(s) && !s.inData && s.dataBuffer == "" && s.buffer == "" && !s.ended
  }

  ghost predicate AllPlain(to: seq<string>) {
    forall i :: 0 <= i < |to| ==> Plain(to[i])
  }

  function WithRecipients(s: State, to: seq<string>): State
    requires s.to < |s.lists|
  {
    s.(lists := s.lists[s.to := s.lists[s.to] + to], replies := s.replies + RecipientReplies(|to|))
  }

  lemma {:induction false} RecipientsAddUp(s: State, to: seq<string>)
    requires s.to < |s.lists| && to != []
    ensures WithRecipients(WithRecipients(s, to[..1]), to[1..]) == WithRecipients(s, to)
  {
    assert to[..1] + to[1..] == to;
    assert (s.lists[s.to] + to[..1]) + to[1..] == s.lists[s.to] + to;
    assert RecipientReplies(1) == ["250 recipient ok"] + RecipientReplies(0);
    assert (s.replies + RecipientReplies(1)) + RecipientReplies(|to| - 1) == s.replies + RecipientReplies(|to|);
  }

  lemma {:induction false} OneRecipient(s: State, address: string)
    requires Sound(s) && !s.inData && !s.ended && Plain(address)
    ensures var line := RCPT_TO + "<" + address + ">";
            !IsQuit(s, line) && HandleLine(s, line) == WithRecipients(s, [address])
  {
    var line := RCPT_TO + "<" + address + ">";
    assert line == RCPT_TO + ("<" + address + ">");
    MailCommandsAreRecognized("<" + address + ">");
    ArgumentIsAddress(RCPT_TO, address);
    assert RecipientReplies(1) == ["250 recipient ok"] + RecipientReplies(0);
  }

  lemma {:induction false} RecipientsAreListed(s: State, to: seq<string>)
    requires Sound(s) && !s.inData && !s.ended && AllPlain(to)
    ensures NoQuit(s, RcptLines(to))
    ensures HandleLines(s, RcptLines(to)) == WithRecipients(s, to)
    decreases |to|
  {
    if to == [] {
      assert s.lists[s.to] + to == s.lists[s.to];
      assert s.lists[s.to := s.lists[s.to]] == s.lists;
      assert s.replies + RecipientReplies(0) == s.replies;
    } else {
      OneRecipient(s, to[0]);
      assert to[..1] == [to[0]] && RcptLines(to)[1..] == RcptLines(to[1..]);
      RecipientsAreListed(WithRecipients(s, to[..1]), to[1..]);
      RecipientsAddUp(s, to);
    }
  }

  /** The commands of a transaction, up to the body. */
  function Envelope(from: string, to: seq<string>): seq<string> {
    [MAIL_FROM + "<" + from + ">"] + RcptLines(to) + [DATA]
  }

  lemma {:induction false} SenderIsNoted(s: State, from: string)
    requires !s.inData && !s.ended && Plain(from)
    ensures var line := MAIL_FROM + "<" + from + ">";
            && !IsQuit(s, line)
            && HandleLine(s, line) == s.(from := from, replies := s.replies + ["250 sender ok"])
  {
    var line := MAIL_FROM + "<" + from + ">";
    assert line == MAIL_FROM + ("<" + from + ">");
    MailCommandsAreRecognized("<" + from + ">");
    ArgumentIsAddress(MAIL_FROM, from);
  }

  lemma {:induction false} OneHandled(s: State, line: string)
    ensures HandleLines(s, [line]) == HandleLine(s, line) && (NoQuit(s, [line]) <==> !IsQuit(s, line))
  {
    assert [line][1..] == [];
  }

  /** The state in which the body is awaited. */
  function Addressed(s: State, from: string, to: seq<string>): State
    requires s.to < |s.lists|
  {
    s.(inData := true, from := from, lists := s.lists[s.to := s.lists[s.to] + to],
       replies := s.replies + ["250 sender ok"] + RecipientReplies(|to|) + ["354 end with <CR><LF>.<CR><LF>"])
  }

  lemma {:induction false} EnvelopeIsHandled(s: State, from: string, to: seq<string>)
    requires Sound(s) && !s.inData && !s.ended && Plain(from) && AllPlain(to)
    ensures NoQuit(s, Envelope(from, to))
    ensures HandleLines(s, Envelope(from, to)) == Addressed(s, from, to)
  {
    var mail := [MAIL_FROM + "<" + from + ">"];
    var s1 := s.(from := from, replies := s.replies + ["250 sender ok"]);
    var s2 := WithRecipients(s1, to);
    SenderIsNoted(s, from);
    OneHandled(s, mail[0]);
    RecipientsAreListed(s1, to);
    HandleMore(s, mail, RcptLines(to));
    MailCommandsAreRecognized("");
    assert DATA + "" == DATA;
    OneHandled(s2, DATA);
    HandleMore(s, mail + RcptLines(to), [DATA]);
  }

  lemma {:induction false} PlainIsOneLine(before: string, address: string)
    requires Newline(before) == |before| && Plain(address)
    ensures Newline(before + "<" + address + ">") == |before + "<" + address + ">"|
  {
    var line := before + "<" + address + ">";
    forall k | 0 <= k < |line|
      ensures line[k] != '\n'
    {
      if |before| < k < |line| - 1 {
        assert line[k] == address[k - |before| - 1];
      }
    }
  }

  lemma {:induction false} RcptsAreLines(to: seq<string>)
    requires AllPlain(to)
    ensures OneLineEach(RcptLines(to))
  {
    if to != [] {
      PlainIsOneLine(RCPT_TO, to[0]);
      RcptsAreLines(to[1..]);
    }
  }

  lemma {:induction false} EnvelopeIsLines(from: string, to: seq<string>)
    requires Plain(from) && AllPlain(to)
    ensures OneLineEach(Envelope(from, to))
  {
    MailIsLine(from);
    RcptsAreLines(to);
    DataIsLine();
    AppendedLines([MAIL_FROM + "<" + from + ">"], RcptLines(to));
    AppendedLines([MAIL_FROM + "<" + from + ">"] + RcptLines(to), [DATA]);
  }

  lemma {:induction false} MailIsLine(from: string)
    requires Plain(from)
    ensures OneLineEach([MAIL_FROM + "<" + from + ">"])
  {
    assert forall i :: 0 <= i < |MAIL_FROM| ==> MAIL_FROM[i] != '\n';
    PlainIsOneLine(MAIL_FROM, from);
  }

  lemma {:induction false} DataIsLine()
    ensures OneLineEach([DATA])
  {
    assert forall i :: 0 <= i < |DATA| ==> DATA[i] != '\n';
  }

  lemma {:induction false} AppendedLines(a: seq<string>, b: seq<string>)
    requires OneLineEach(a) && OneLineEach(b)
    ensures OneLineEach(a + b)
  {
  }

  lemma {:induction false} EnvelopeThenBody(s: State, from: string, to: seq<string>, lines: seq<string>)
    requires Sound(s) && !s.inData && !s.ended && s.dataBuffer == ""
    requires Plain(from) && AllPlain(to) && OneLineEach(lines)
    requires s.buffer == Wire(Envelope(from, to)) + (Transmitted(lines) + ".\r\n")
    ensures !Quits(s) && Pump(s) == Captured(Addressed(s.(buffer := ""), from, to), Body(lines))
  {
    var rest := Transmitted(lines) + ".\r\n";
    EnvelopeIsHandled(s.(buffer := rest), from, to);
    EnvelopeIsLines(from, to);
    WireIsHandled(s, Envelope(from, to), rest);
    var body := Addressed(s.(buffer := rest), from, to);
    StuffedBodyIsRecovered(body, lines);
    assert "" + Body(lines) == Body(lines);
  }

  /** The state in which a message with this body has just been accepted. */
  function Captured(s: State, body: string): State {
    s.(inData := false, dataBuffer := "", captured := s.captured + [Message(s.from, s.to, body)],
       replies := s.replies + ["250 message accepted"])
  }

  /**
    A whole transaction in whatever chunks: one more message is captured, with the sender, all the
    recipients (after those named since the last RSET) and the body line for line; each command is
    answered once, in order; and the connection is ready for the next transaction.
  */
  lemma {:induction false} MailIsCaptured(s: State, from: string, to: seq<string>, lines: seq<string>, chunks: seq<string>)
    requires Ready(s) && Plain(from) && AllPlain(to) && OneLineEach(lines)
    requires Concat(chunks) == Wire(Envelope(from, to)) + (Transmitted(lines) + ".\r\n")
    ensures var r := FeedAll(s, chunks);
            && Ready(r)
            && r.captured == s.captured + [Message(from, s.to, Body(lines))]
            && r.to == s.to && r.lists == s.lists[s.to := s.lists[s.to] + to]
            && r.replies == s.replies + ["250 sender ok"] + RecipientReplies(|to|)
                            + ["354 end with <CR><LF>.<CR><LF>"] + ["250 message accepted"]
  {
    var all := s.(buffer := Concat(chunks));
    EnvelopeThenBody(all, from, to, lines);
    assert all.(buffer := "") == s;
    FedWhole(s, chunks);
    CapturedIsReady(s, from, to, Body(lines));
  }

  lemma {:induction false} CapturedIsReady(s: State, from: string, to: seq<string>, body: string)
    requires Ready(s)
    ensures Ready(Captured(Addressed(s, from, to), body))
  {
  }

  /** RSET begins a list of its own, so the next message goes to its own recipients only. */
  lemma {:induction false} ResetForgets(s: State)
    requires Ready(s)
    ensures var r := FeedAll(s, ["RSET\r\n"]);
            && Ready(r) && r.from == "" && r.to == |s.lists| && r.lists == s.lists + [[]]
            && r.captured == s.captured && r.replies == s.replies + ["250 cleared"]
  {
    ResetIsRecognized("");
    assert RSET + "" == RSET;
    var all := s.(buffer := "RSET\r\n");
    assert Wire([RSET]) + "" == "RSET\r\n" by { assert [RSET][1..] == []; }
    OneHandled(s, RSET);
    assert s.(buffer := "") == s;
    WireIsHandled(all, [RSET], "");
    PumpDry(HandleLines(s, [RSET]));
    assert Concat(["RSET\r\n"]) == "RSET\r\n" by { assert ["RSET\r\n"][..0] == []; }
    FedWhole(s, ["RSET\r\n"]);
  }

  // ----- the other commands -----

  predicate IsIdle(verb: Verb) {
    verb == Hello || verb == AuthPlain || verb == Noop || verb == Other
  }

  /** The lines without greetings, authentication and whatever is not understood; bodies stay whole. */
  function Essential(inData: bool, lines: seq<string>): seq<string>
    decreases |lines|
  {
    if lines == [] then []
    else if inData then [lines[0]] + Essential(lines[0] != ".", lines[1..])
    else if IsIdle(VerbOf(lines[0])) then Essential(false, lines[1..])
    else [lines[0]] + Essential(VerbOf(lines[0]) == Data, lines[1..])
  }

  /** The same but for what was answered. */
  predicate SameMail(a: State, b: State) {
    a.(replies := []) == b.(replies := [])
  }

  lemma {:induction false} SameMailStays(a: State, b: State, line: string)
    requires SameMail(a, b)
    ensures SameMail(HandleLine(a, line), HandleLine(b, line))
    ensures !a.inData && IsIdle(VerbOf(line)) ==> SameMail(HandleLine(a, line), b)
    ensures HandleLine(a, line).inData == (if a.inData then line != "." else VerbOf(line) == Data)
  {
  }

  /** Leaving those commands out changes nothing in the mail that is captured. */
  lemma {:induction false} IdleCommandsDoNotMatter(a: State, b: State, lines: seq<string>)
    requires SameMail(a, b)
    ensures SameMail(HandleLines(a, lines), HandleLines(b, Essential(b.inData, lines)))
    decreases |lines|
  {
    if lines != [] {
      SameMailStays(a, b, lines[0]);
      var a' := HandleLine(a, lines[0]);
      if !b.inData && IsIdle(VerbOf(lines[0])) {
        IdleCommandsDoNotMatter(a', b, lines[1..]);
      } else {
        IdleCommandsDoNotMatter(a', HandleLine(b, lines[0]), lines[1..]);
        var kept := Essential(b.inData, lines);
        assert kept[0] == lines[0] && kept[1..] == Essential(a'.inData, lines[1..]);
      }
    }
  }

  /** The three digits of a reply; section 4.2.1 of RFC 5321. */
  function Code(verb: Verb): string {
    match verb
    case AuthPlain => "235"
    case Data => "354"
    case Quit => "221"
    case _ => "250"
  }

  /** Each command gets one reply: every line has its code, and only the last one a space after it. */
  lemma {:induction false} RepliesAreWellFormed(verb: Verb)
    ensures forall i :: 0 <= i < |Reply(verb)| ==> |Reply(verb)[i]| > 4 && Reply(verb)[i][..3] == Code(verb)
    ensures forall i :: 0 <= i < |Reply(verb)| ==> Reply(verb)[i][3] == if i == |Reply(verb)| - 1 then ' ' else '-'
  {
    forall i | 0 <= i < |Reply(verb)|
      ensures |Reply(verb)[i]| > 4 && Reply(verb)[i][..3] == Code(verb)
    {
      match verb
      case Hello => assert Reply(verb)[0][..3] == "250" && Reply(verb)[1][..3] == "250";
      case _ => assert i == 0;
    }
  }
}
