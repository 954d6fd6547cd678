/**
  The incremental line parser of the fake SMTP server. Captured messages keep a reference to the
  connection's list of recipients, so the lists live in a store and a message names one of them.
*/
module FakeSmtp {
  import opened Wrappers
  import opened Speakers

  /** `raw` is what the message parser is given; the parser itself is not modelled. */
  datatype Message = Message(from: string, to: nat, raw: string)

  datatype State = State(
    buffer: string, inData: bool, dataBuffer: string,
    from: string, to: nat, lists: seq<seq<string>>,
    captured: seq<Message>, replies: seq<string>,
    ended: bool)               // our side of the connection is closed

  const CONNECTED := State("", false, "", "", 0, [[]], [], ["220 fake-smtp ready"], false)

  function Upper(c: char): char {
    if 'a' <= c <= 'z' then c - 'a' + 'A' else c
  }

  /** A case-insensitive prefix; `command` is in capitals. */
  predicate Starts(line: string, command: string) {
    if command == "" then true
    else line != "" && Upper(line[0]) == command[0] && Starts(line[1..], command[1..])
  }

  function WithoutAngles(s: string): string {
    if s == "" then ""
    else (if s[0] == '<' || s[0] == '>' then "" else [s[0]]) + WithoutAngles(s[1..])
  }

  function Argument(line: string, command: string): string {
    if |command| <= |line| then WithoutAngles(TrimStart(line[|command|..])) else ""
  }

  function Unstuff(line: string): string {
    if |line| >= 2 && line[0] == '.' && line[1] == '.' then line[1..] else line
  }

  /** Nothing more goes out on a connection whose side of ours is closed. */
  function Send(s: State, reply: string): State {
    if s.ended then s else s.(replies := s.replies + [reply])
  }

  ghost predicate Sound(s: State) {
    s.to < |s.lists| && forall i :: 0 <= i < |s.captured| ==> s.captured[i].to < |s.lists|
  }

  function HandleDataLine(s: State, line: string): State {
    if line == "." then
      Send(s.(inData := false, captured := s.captured + [Message(s.from, s.to, s.dataBuffer)], dataBuffer := ""),
           "250 message accepted")
    else s.(dataBuffer := s.dataBuffer + Unstuff(line) + "\r\n")
  }

  function AddRecipient(s: State, recipient: string): State {
    if s.to < |s.lists| then s.(lists := s.lists[s.to := s.lists[s.to] + [recipient]]) else s
  }

  datatype Verb = Hello | AuthPlain | MailFrom | RcptTo | Data | Rset | Noop | Quit | Other

  const EHLO := "EHLO"
  const HELO := "HELO"
  const AUTH_PLAIN := "AUTH PLAIN"
  const MAIL_FROM := "MAIL FROM:"
  const RCPT_TO := "RCPT TO:"
  const DATA := "DATA"
  const RSET := "RSET"
  const NOOP := "NOOP"
  const QUIT := "QUIT"

  /** The patterns in the order in which they are tried. */
  function VerbOf(line: string): Verb {
    if Starts(line, EHLO) || Starts(line, HELO) then Hello
    else if Starts(line, AUTH_PLAIN) then AuthPlain
    else if Starts(line, MAIL_FROM) then MailFrom
    else if Starts(line, RCPT_TO) then RcptTo
    else if Starts(line, DATA) then Data
    else if Starts(line, RSET) then Rset
    else if Starts(line, NOOP) then Noop
    else if Starts(line, QUIT) then Quit
    else Other
  }

  function Reply(verb: Verb): (r: seq<string>)
    ensures r != []
  {
    match verb
    case Hello => ["250-fake-smtp greets you", "250 AUTH PLAIN"]
    case AuthPlain => ["235 authenticated"]
    case MailFrom => ["250 sender ok"]
    case RcptTo => ["250 recipient ok"]
    case Data => ["354 end with <CR><LF>.<CR><LF>"]
    case Rset => ["250 cleared"]
    case Noop => ["250 ok"]
    case Quit => ["221 bye"]
    case Other => ["250 ok"]
  }

  function Effect(s: State, verb: Verb, line: string): State {
    match verb
    case MailFrom => s.(from := Argument(line, MAIL_FROM))
    case RcptTo => AddRecipient(s, Argument(line, RCPT_TO))
    case Data => s.(inData := true)
    case Rset => s.(from := "", to := |s.lists|, lists := s.lists + [[]])
    case Quit => s.(ended := true)
    case _ => s
  }

  function Respond(s: State, verb: Verb, line: string): State {
    Effect(s, verb, line).(replies := if s.ended then s.replies else s.replies + Reply(verb))
  }

  function HandleCommand(s: State, line: string): State {
    Respond(s, VerbOf(line), line)
  }

  predicate IsQuit(s: State, line: string) {
    !s.inData && VerbOf(line) == Quit
  }

  function HandleLine(s: State, line: string): State {
    if s.inData then HandleDataLine(s, line) else HandleCommand(s, line)
  }

  /** The index of the first line feed, or |s|. */
  function Newline(s: string): (k: nat)
    ensures k <= |s| && (k < |s| ==> s[k] == '\n') && forall i :: 0 <= i < k ==> s[i] != '\n'
  {
    if s == "" || s[0] == '\n' then 0 else 1 + Newline(s[1..])
  }

  predicate HasLine(s: string) {
    Newline(s) < |s|
  }

  function WithoutCr(line: string): string {
    if line != "" && line[|line| - 1] == '\r' then line[..|line| - 1] else line
  }

  function FirstLine(buffer: string): string
    requires HasLine(buffer)
  {
    WithoutCr(buffer[..Newline(buffer)])
  }

  function AfterLine(buffer: string): string
    requires HasLine(buffer)
  {
    buffer[Newline(buffer) + 1..]
  }

  lemma {:induction false} RespondIgnoresBuffer(s: State, verb: Verb, line: string, buffer: string)
    ensures Respond(s.(buffer := buffer), verb, line) == Respond(s, verb, line).(buffer := buffer)
    ensures Respond(s, verb, line).buffer == s.buffer
  {
  }

  lemma {:induction false} HandlingLeavesBuffer(s: State, line: string)
    ensures HandleLine(s, line).buffer == s.buffer
    ensures forall b :: HandleLine(s.(buffer := b), line) == HandleLine(s, line).(buffer := b)
  {
    forall b
      ensures HandleLine(s.(buffer := b), line) == HandleLine(s, line).(buffer := b)
    {
      if !s.inData { RespondIgnoresBuffer(s, VerbOf(line), line, b); }
    }
    if !s.inData { RespondIgnoresBuffer(s, VerbOf(line), line, s.buffer); }
  }

  /** The loop of the data handler: handle whole lines until none is left, or until QUIT. */
  function Pump(s: State): State
    decreases |s.buffer|
  {
    if !HasLine(s.buffer) then s
    else
      var line := FirstLine(s.buffer);
      var next := HandleLine(s.(buffer := AfterLine(s.buffer)), line);
      HandlingLeavesBuffer(s.(buffer := AfterLine(s.buffer)), line);
      if IsQuit(s, line) then next else Pump(next)
  }

  /** The input after the first QUIT line that the loop meets, if it meets one. */
  function AfterQuit(s: State): Option<string>
    decreases |s.buffer|
  {
    if !HasLine(s.buffer) then None
    else
      var line := FirstLine(s.buffer);
      HandlingLeavesBuffer(s.(buffer := AfterLine(s.buffer)), line);
      if IsQuit(s, line) then Some(AfterLine(s.buffer))
      else AfterQuit(HandleLine(s.(buffer := AfterLine(s.buffer)), line))
  }

  predicate Quits(s: State) {
    AfterQuit(s).Some?
  }

  function Feed(s: State, chunk: string): State {
    Pump(s.(buffer := s.buffer + chunk))
  }

  function FeedAll(s: State, chunks: seq<string>): State {
    if chunks == [] then s else Feed(FeedAll(s, chunks[..|chunks| - 1]), chunks[|chunks| - 1])
  }

  function Concat(chunks: seq<string>): string {
    if chunks == [] then "" else Concat(chunks[..|chunks| - 1]) + chunks[|chunks| - 1]
  }

  // ----- chunking does not matter -----

  lemma {:induction false} LineOfLongerBuffer(buffer: string, more: string)
    requires HasLine(buffer)
    ensures HasLine(buffer + more)
    ensures FirstLine(buffer + more) == FirstLine(buffer) && AfterLine(buffer + more) == AfterLine(buffer) + more
  {
    var k := Newline(buffer);
    assert (buffer + more)[k] == '\n';
    assert Newline(buffer + more) == k;
    assert (buffer + more)[..k] == buffer[..k];
  }

  /** A loop that runs dry goes on as if the rest had been there from the start; one that quit does not go on. */
  lemma {:induction false} PumpInTwoParts(s: State, more: string)
    ensures Quits(s) ==> Pump(s.(buffer := s.buffer + more)) == Pump(s).(buffer := Pump(s).buffer + more)
    ensures !Quits(s) ==> Pump(s.(buffer := s.buffer + more)) == Feed(Pump(s), more)
    ensures !Quits(s) ==> (Quits(s.(buffer := s.buffer + more)) <==> Quits(Pump(s).(buffer := Pump(s).buffer + more)))
    ensures !Quits(s) ==> !HasLine(Pump(s).buffer)
    ensures Quits(s) ==> Pump(s).buffer == AfterQuit(s).value
    ensures Quits(s) ==> AfterQuit(s.(buffer := s.buffer + more)) == Some(AfterQuit(s).value + more)
    decreases |s.buffer|
  {
    if HasLine(s.buffer) {
      LineOfLongerBuffer(s.buffer, more);
      var line := FirstLine(s.buffer);
      var s1 := s.(buffer := AfterLine(s.buffer));
      var s2 := s.(buffer := AfterLine(s.buffer) + more);
      HandlingLeavesBuffer(s1, line);
      HandlingLeavesBuffer(s2, line);
      assert HandleLine(s2, line) == HandleLine(s1, line).(buffer := AfterLine(s.buffer) + more);
      if !IsQuit(s, line) {
        PumpInTwoParts(HandleLine(s1, line), more);
      }
    }
  }

  lemma {:induction false} PumpUsesInput(s: State)
    ensures |Pump(s).buffer| <= |s.buffer|
    ensures HasLine(s.buffer) ==> |Pump(s).buffer| < |s.buffer|
    decreases |s.buffer|
  {
    if HasLine(s.buffer) {
      var line := FirstLine(s.buffer);
      var s1 := s.(buffer := AfterLine(s.buffer));
      HandlingLeavesBuffer(s1, line);
      if !IsQuit(s, line) { PumpUsesInput(HandleLine(s1, line)); }
    }
  }

  /**
    Splitting the input in two gives the same messages, replies and residual state as one chunk, exactly
    unless the first part holds a QUIT line and a whole line follows it in the input: the handler stops
    at QUIT, but the next data event takes up what it left in the buffer.
  */
  lemma {:induction false} SplitIsIrrelevantUnlessQuit(s: State, a: string, b: string)
    ensures var after := AfterQuit(s.(buffer := s.buffer + a));
            Feed(Feed(s, a), b) == Feed(s, a + b) <==> !(after.Some? && HasLine(after.value + b))
  {
    var first := s.(buffer := s.buffer + a);
    assert s.buffer + (a + b) == first.buffer + b;
    PumpInTwoParts(first, b);
    if Quits(first) {
      var stopped := Pump(first);
      PumpUsesInput(stopped.(buffer := stopped.buffer + b));
    }
  }

  /** A line on its own: no line feed in it, and no carriage return for the line's end to hide. */
  predicate IsLine(line: string) {
    line != "" && line[|line| - 1] != '\r' && Newline(line) == |line|
  }

  /**
    In one chunk the command after QUIT stays in the buffer; as an event of its own it takes effect,
    unanswered.
  */
  lemma {:induction false} CommandAfterQuit(s: State, quit: string, command: string)
    requires !s.inData && s.buffer == "" && IsLine(quit) && IsLine(command) && VerbOf(quit) == Quit
    ensures var apart := Feed(Feed(s, quit + "\n"), command + "\n");
            var together := Feed(s, (quit + "\n") + (command + "\n"));
            && together == HandleCommand(s, quit).(buffer := command + "\n")
            && apart == HandleCommand(HandleCommand(s, quit), command) && apart.buffer == ""
            && apart.replies == together.replies
  {
    var ended := HandleCommand(s, quit);
    var first := s.(buffer := quit + "\n");
    RespondIgnoresBuffer(s, Quit, quit, "");
    FedAlone(s, quit);
    FedAlone(ended, command);
    RespondIgnoresBuffer(ended, VerbOf(command), command, "");
    CommandLineAlone(s, quit);
    PumpInTwoParts(first, command + "\n");
    assert s.buffer + ((quit + "\n") + (command + "\n")) == first.buffer + (command + "\n");
  }

  lemma {:induction false} FedAlone(s: State, line: string)
    requires !s.inData && s.buffer == "" && IsLine(line)
    ensures Feed(s, line + "\n") == HandleCommand(s, line)
  {
    assert s.buffer + (line + "\n") == line + "\n";
    CommandLineAlone(s, line);
  }

  lemma {:induction false} VerbsOfQuitAndData()
    ensures IsLine("QUIT") && IsLine("DATA") && VerbOf("QUIT") == Quit && VerbOf("DATA") == Data
  {
  }

  /** For one: DATA after QUIT opens a body or does not, depending on the chunks. */
  lemma {:induction false} ChunksDecideAfterQuit()
    ensures Feed(Feed(CONNECTED, "QUIT" + "\n"), "DATA" + "\n").inData
    ensures !Feed(CONNECTED, ("QUIT" + "\n") + ("DATA" + "\n")).inData
  {
    VerbsOfQuitAndData();
    CommandAfterQuit(CONNECTED, "QUIT", "DATA");
  }

  /** One line of input in command mode, and nothing else. */
  lemma {:induction false} CommandLineAlone(s: State, line: string)
    requires !s.inData && s.buffer == "" && IsLine(line)
    ensures Pump(s.(buffer := line + "\n")) == HandleCommand(s, line)
    ensures Quits(s.(buffer := line + "\n")) <==> VerbOf(line) == Quit
  {
    var buffer := line + "\n";
    assert buffer[|line|] == '\n' && forall i :: 0 <= i < |line| ==> buffer[i] != '\n';
    assert Newline(buffer) == |line| && buffer[..|line|] == line && AfterLine(buffer) == "";
    assert s.(buffer := "") == s;
    HandlingLeavesBuffer(s, line);
    PumpDry(HandleCommand(s, line));
  }

  /** For input that never quits, any chunking at all is one chunk. */
  lemma {:induction false} ChunkingIsIrrelevant(s: State, chunks: seq<string>)
    requires !HasLine(s.buffer) && !Quits(s.(buffer := s.buffer + Concat(chunks)))
    ensures FeedAll(s, chunks) == Feed(s, Concat(chunks))
    ensures !HasLine(FeedAll(s, chunks).buffer)
  {
    if chunks == [] {
      assert s.buffer + "" == s.buffer;
    } else {
      var n := |chunks| - 1;
      var a, b := Concat(chunks[..n]), chunks[n];
      var first := s.(buffer := s.buffer + a);
      assert s.buffer + (a + b) == first.buffer + b;
      PumpInTwoParts(first, b);
      ChunkingIsIrrelevant(s, chunks[..n]);
      SplitIsIrrelevantUnlessQuit(s, a, b);
      PumpInTwoParts(first.(buffer := first.buffer + b), "");
    }
  }

  // ----- dot stuffing, section 4.5.2 of RFC 5321 -----

  function Stuff(line: string): string {
    if line != "" && line[0] == '.' then "." + line else line
  }

  function Transmitted(lines: seq<string>): string {
    if lines == [] then "" else Stuff(lines[0]) + "\r\n" + Transmitted(lines[1..])
  }

  function Body(lines: seq<string>): string {
    if lines == [] then "" else lines[0] + "\r\n" + Body(lines[1..])
  }

  lemma {:induction false} PumpOneLine(s: State, line: string, rest: string)
    requires Newline(line) == |line| && s.buffer == line + "\r\n" + rest
    ensures HasLine(s.buffer) && FirstLine(s.buffer) == line && AfterLine(s.buffer) == rest
  {
    var k := |line| + 1;
    assert s.buffer[k] == '\n';
    assert forall i :: 0 <= i < k ==> s.buffer[i] != '\n';
    assert Newline(s.buffer) == k;
    assert s.buffer[..k] == line + "\r";
    assert WithoutCr(line + "\r") == line;
    assert s.buffer[k + 1..] == rest;
  }

  lemma {:induction false} PumpDataLine(s: State, line: string, rest: string)
    requires s.inData && Newline(line) == |line| && s.buffer == line + "\r\n" + rest
    ensures var next := HandleDataLine(s.(buffer := rest), line);
            Pump(s) == Pump(next) && Quits(s) == Quits(next) && next.buffer == rest
  {
    PumpOneLine(s, line, rest);
  }

  lemma {:induction false} PumpDry(s: State)
    requires s.buffer == ""
    ensures Pump(s) == s && !Quits(s)
  {
  }

  lemma {:induction false} UnstuffUndoesStuff(line: string)
    ensures Unstuff(Stuff(line)) == line && Stuff(line) != "."
    ensures Newline(line) == |line| ==> Newline(Stuff(line)) == |Stuff(line)|
  {
    if line != "" && line[0] == '.' {
      assert ("." + line)[1..] == line;
    }
  }

  lemma {:induction false} SplitTransmission(lines: seq<string>, before: string)
    requires lines != []
    ensures Transmitted(lines) + ".\r\n" == Stuff(lines[0]) + "\r\n" + (Transmitted(lines[1..]) + ".\r\n")
    ensures before + Body(lines) == before + lines[0] + "\r\n" + Body(lines[1..])
  {
    var a, b, c := Stuff(lines[0]) + "\r\n", Transmitted(lines[1..]), ".\r\n";
    assert (a + b) + c == a + (b + c);
  }

  /** The final dot captures the message. */
  lemma {:induction false} EndOfBody(s: State)
    requires s.inData && s.buffer == ".\r\n"
    ensures Pump(s) == Send(s.(buffer := "", inData := false, dataBuffer := "",
                               captured := s.captured + [Message(s.from, s.to, s.dataBuffer)]), "250 message accepted")
    ensures !Quits(s)
  {
    assert s.buffer == "." + "\r\n" + "";
    PumpDataLine(s, ".", "");
    PumpDry(HandleDataLine(s.(buffer := ""), "."));
  }

  /** Whatever the lines of a body are, the transmitted body is recovered line for line. */
  lemma {:induction false} StuffedBodyIsRecovered(s: State, lines: seq<string>)
    requires s.inData && forall i :: 0 <= i < |lines| ==> Newline(lines[i]) == |lines[i]|
    requires s.buffer == Transmitted(lines) + ".\r\n"
    ensures Pump(s) == Send(s.(buffer := "", inData := false, dataBuffer := "",
                               captured := s.captured + [Message(s.from, s.to, s.dataBuffer + Body(lines))]),
                            "250 message accepted")
    ensures !Quits(s)
    decreases |lines|
  {
    if lines == [] {
      assert s.buffer == ".\r\n" && s.dataBuffer + "" == s.dataBuffer;
      EndOfBody(s);
    } else {
      var rest := Transmitted(lines[1..]) + ".\r\n";
      UnstuffUndoesStuff(lines[0]);
      SplitTransmission(lines, s.dataBuffer);
      PumpDataLine(s, Stuff(lines[0]), rest);
      var next := HandleDataLine(s.(buffer := rest), Stuff(lines[0]));
      StuffedBodyIsRecovered(next, lines[1..]);
    }
  }

  /** The same over the wire, from the end of DATA, in any chunks. */
  lemma {:induction false} BodySurvivesTheWire(s: State, lines: seq<string>, chunks: seq<string>)
    requires s.inData && s.buffer == "" && s.dataBuffer == ""
    requires forall i :: 0 <= i < |lines| ==> Newline(lines[i]) == |lines[i]|
    requires Concat(chunks) == Transmitted(lines) + ".\r\n"
    ensures var after := FeedAll(s, chunks);
            && after.captured == s.captured + [Message(s.from, s.to, Body(lines))]
            && !after.inData && after.buffer == "" && after.lists == s.lists
  {
    var all := s.(buffer := Transmitted(lines) + ".\r\n");
    StuffedBodyIsRecovered(all, lines);
    FedWhole(s, chunks);
    assert s.dataBuffer + Body(lines) == Body(lines);
  }

  lemma {:induction false} FedWhole(s: State, chunks: seq<string>)
    requires s.buffer == "" && !Quits(s.(buffer := Concat(chunks)))
    ensures FeedAll(s, chunks) == Pump(s.(buffer := Concat(chunks)))
  {
    assert s.buffer + Concat(chunks) == Concat(chunks);
    ChunkingIsIrrelevant(s, chunks);
  }

  // ----- the shared list of recipients -----

  function RecipientsOf(s: State, i: nat): seq<string>
    requires Sound(s) && i < |s.captured|
  {
    s.lists[s.captured[i].to]
  }

  function HandleLines(s: State, lines: seq<string>): State
    decreases |lines|
  {
    if lines == [] then s else HandleLines(HandleLine(s, lines[0]), lines[1..])
  }

  /** The arguments of the RCPT commands up to the next RSET; the lines of a body are not commands. */
  function RcptsUntilReset(inData: bool, lines: seq<string>): seq<string>
    decreases |lines|
  {
    if lines == [] then []
    else if inData then RcptsUntilReset(lines[0] != ".", lines[1..])
    else
      match VerbOf(lines[0])
      case Rset => []
      case RcptTo => [Argument(lines[0], RCPT_TO)] + RcptsUntilReset(false, lines[1..])
      case Data => RcptsUntilReset(true, lines[1..])
      case _ => RcptsUntilReset(false, lines[1..])
  }

  lemma {:induction false} OneLine(s: State, line: string, i: nat)
    requires Sound(s) && i < |s.captured|
    ensures var s' := HandleLine(s, line);
            && Sound(s') && i < |s'.captured| && s'.captured[i] == s.captured[i]
            && (s.captured[i].to != s.to ==> s'.captured[i].to != s'.to && RecipientsOf(s', i) == RecipientsOf(s, i))
            && s'.inData == (if s.inData then line != "." else VerbOf(line) == Data)
            && (!s.inData && VerbOf(line) == RcptTo ==>
                 s'.to == s.to && s'.lists == s.lists[s.to := s.lists[s.to] + [Argument(line, RCPT_TO)]])
            && (!s.inData && VerbOf(line) == Rset ==>
                 s'.to == |s.lists| && s'.captured[i].to != s'.to && RecipientsOf(s', i) == RecipientsOf(s, i))
            && (s.inData || (VerbOf(line) != RcptTo && VerbOf(line) != Rset) ==> s'.to == s.to && s'.lists == s.lists)
  {
  }

  /** A message from before the last RSET keeps its recipients whatever follows. */
  lemma {:induction false} DetachedRecipientsStay(s: State, lines: seq<string>, i: nat)
    requires Sound(s) && i < |s.captured| && s.captured[i].to != s.to
    ensures var after := HandleLines(s, lines);
            Sound(after) && i < |after.captured| && after.captured[i] == s.captured[i]
            && RecipientsOf(after, i) == RecipientsOf(s, i)
    decreases |lines|
  {
    if lines != [] {
      OneLine(s, lines[0], i);
      DetachedRecipientsStay(HandleLine(s, lines[0]), lines[1..], i);
    }
  }

  /**
    Over any lines, the recipients of a message captured since the last RSET grow by exactly the RCPT
    arguments up to the next RSET, whatever mail they were meant for.
  */
  lemma {:induction false} LaterRecipientsReachCapturedMessages(s: State, lines: seq<string>, i: nat)
    requires Sound(s) && i < |s.captured| && s.captured[i].to == s.to
    ensures var after := HandleLines(s, lines);
            Sound(after) && i < |after.captured| && after.captured[i] == s.captured[i]
            && RecipientsOf(after, i) == RecipientsOf(s, i) + RcptsUntilReset(s.inData, lines)
    decreases |lines|
  {
    if lines != [] {
      OneLine(s, lines[0], i);
      var s1 := HandleLine(s, lines[0]);
      if !s.inData && VerbOf(lines[0]) == Rset {
        DetachedRecipientsStay(s1, lines[1..], i);
      } else {
        LaterRecipientsReachCapturedMessages(s1, lines[1..], i);
        OneLineAddsItsRcpt(s, lines, i);
      }
    }
  }

  lemma {:induction false} OneLineAddsItsRcpt(s: State, lines: seq<string>, i: nat)
    requires Sound(s) && i < |s.captured| && s.captured[i].to == s.to && lines != []
    requires s.inData || VerbOf(lines[0]) != Rset
    ensures var s1 := HandleLine(s, lines[0]);
            Sound(s1) && i < |s1.captured| && s1.captured[i].to == s1.to
            && RecipientsOf(s1, i) + RcptsUntilReset(s1.inData, lines[1..])
            == RecipientsOf(s, i) + RcptsUntilReset(s.inData, lines)
  {
    OneLine(s, lines[0], i);
    if !s.inData && VerbOf(lines[0]) == RcptTo {
      var rest := RcptsUntilReset(false, lines[1..]);
      var name := [Argument(lines[0], RCPT_TO)];
      assert (RecipientsOf(s, i) + name) + rest == RecipientsOf(s, i) + (name + rest);
    }
  }

  lemma {:induction false} OneMessage(s: State, rcpt: string, data: string)
    requires Sound(s) && !s.inData && VerbOf(rcpt) == RcptTo && VerbOf(data) == Data
    ensures var after := HandleLines(s, [rcpt, data, "."]);
            && Sound(after) && !after.inData && after.to == s.to
            && after.lists == s.lists[s.to := s.lists[s.to] + [Argument(rcpt, RCPT_TO)]]
            && after.captured == s.captured + [Message(s.from, s.to, s.dataBuffer)]
  {
    var s1 := HandleLine(s, rcpt);
    var s2 := HandleLine(s1, data);
    var s3 := HandleLine(s2, ".");
    assert [rcpt, data, "."][1..] == [data, "."] && [data, "."][1..] == ["."] && ["."][1..] == [];
    assert HandleLines(s2, ["."]) == s3;
    assert HandleLines(s1, [data, "."]) == s3;
  }

  /** Two messages of one connection, each with a RCPT of its own: the first ends with both recipients. */
  lemma {:induction false} SecondRecipientReachesFirstMessage(a: string, b: string, data: string)
    requires VerbOf(a) == RcptTo && VerbOf(b) == RcptTo && VerbOf(data) == Data
    ensures var first := HandleLines(CONNECTED, [a, data, "."]);
            var second := HandleLines(first, [b, data, "."]);
            && Sound(first) && |first.captured| == 1 && RecipientsOf(first, 0) == [Argument(a, RCPT_TO)]
            && Sound(second) && |second.captured| == 2
            && RecipientsOf(second, 0) == RecipientsOf(second, 1) == [Argument(a, RCPT_TO), Argument(b, RCPT_TO)]
  {
    OneMessage(CONNECTED, a, data);
    var first := HandleLines(CONNECTED, [a, data, "."]);
    OneMessage(first, b, data);
  }

  /** For one: the second message's recipient B is also the first message's. */
  lemma {:induction false} SharedRecipients()
    ensures var first := HandleLines(CONNECTED, ["RCPT TO:A", "DATA", "."]);
            var second := HandleLines(first, ["RCPT TO:B", "DATA", "."]);
            && Sound(first) && |first.captured| == 1 && RecipientsOf(first, 0) == ["A"]
            && Sound(second) && |second.captured| == 2 && RecipientsOf(second, 0) == ["A", "B"]
  {
    VerbsOfQuitAndData();
    RcptArgument("RCPT TO:A", 'A');
    RcptArgument("RCPT TO:B", 'B');
    SecondRecipientReachesFirstMessage("RCPT TO:A", "RCPT TO:B", "DATA");
  }

  lemma {:induction false} RcptArgument(line: string, c: char)
    requires line == RCPT_TO + [c] && (c == 'A' || c == 'B')
    ensures VerbOf(line) == RcptTo && Argument(line, RCPT_TO) == [c]
  {
    assert line[|RCPT_TO|..] == [c];
    assert TrimStart([c]) == [c] && WithoutAngles([c]) == [c] by { assert [c][1..] == []; }
    StartsWithItself(RCPT_TO, [c]);
  }

  lemma {:induction false} StartsWithItself(command: string, rest: string)
    requires forall i :: 0 <= i < |command| ==> Upper(command[i]) == command[i]
    ensures Starts(command + rest, command)
  {
    if command != "" {
      assert (command + rest)[1..] == command[1..] + rest;
      StartsWithItself(command[1..], rest);
    }
  }

  // ----- the connection -----

  class SmtpConnection {
    var buffer: string
    var inData: bool
    var dataBuffer: string
    var envelopeFrom: string
    var envelopeTo: nat
    var lists: seq<seq<string>>
    var captured: seq<Message>
    var replies: seq<string>
    var ended: bool

    function View(): State
      reads this
    {
      State(buffer, inData, dataBuffer, envelopeFrom, envelopeTo, lists, captured, replies, ended)
    }

    constructor ()
      ensures View() == CONNECTED
    {
      buffer, inData, dataBuffer, envelopeFrom, envelopeTo := "", false, "", "", 0;
      lists, captured, replies, ended := [[]], [], ["220 fake-smtp ready"], false;
    }

    method SendLine(line: string)
      modifies `replies
      ensures replies == if ended then old(replies) else old(replies) + [line]
    {
      if !ended {
        replies := replies + [line];
      }
    }

    method DataLine(line: string)
      requires inData
      modifies this
      ensures View() == HandleLine(old(View()), line)
    {
      if line == "." {
        inData := false;
        captured := captured + [Message(envelopeFrom, envelopeTo, dataBuffer)];
        dataBuffer := "";
        SendLine("250 message accepted");
      } else {
        dataBuffer := dataBuffer + Unstuff(line) + "\r\n";
      }
    }

    method SendReply(verb: Verb)
      modifies `replies
      ensures replies == if ended then old(replies) else old(replies) + Reply(verb)
    {
      match verb
      case Hello =>
        SendLine("250-fake-smtp greets you");
        SendLine("250 AUTH PLAIN");
      case AuthPlain => SendLine("235 authenticated");
      case MailFrom => SendLine("250 sender ok");
      case RcptTo => SendLine("250 recipient ok");
      case Data => SendLine("354 end with <CR><LF>.<CR><LF>");
      case Rset => SendLine("250 cleared");
      case Noop => SendLine("250 ok");
      case Quit => SendLine("221 bye");
      case Other => SendLine("250 ok");
    }

    method ApplyCommand(verb: Verb, line: string)
      modifies this
      ensures View() == Effect(old(View()), verb, line)
    {
      match verb
      case MailFrom => envelopeFrom := Argument(line, MAIL_FROM);
      case RcptTo =>
        if envelopeTo < |lists| {
          lists := lists[envelopeTo := lists[envelopeTo] + [Argument(line, RCPT_TO)]];
        }
      case Data => inData := true;
      case Rset => envelopeFrom, envelopeTo, lists := "", |lists|, lists + [[]];
      case Quit => ended := true;
      case _ =>
    }

    method CommandLine(line: string)
      requires !inData
      modifies this
      ensures View() == HandleLine(old(View()), line)
    {
      var verb := VerbOf(line);
      SendReply(verb);
      ApplyCommand(verb, line);
    }

    /** One data event. */
    method OnData(chunk: string)
      modifies this
      ensures View() == Feed(old(View()), chunk)
    {
      buffer := buffer + chunk;
      while HasLine(buffer)
        invariant Pump(View()) == Feed(old(View()), chunk)
        decreases |buffer|
      {
        var line := FirstLine(buffer);
        ghost var before := View();
        buffer := AfterLine(buffer);
        HandlingLeavesBuffer(View(), line);
        if inData {
          DataLine(line);
        } else {
          CommandLine(line);
          if VerbOf(line) == Quit {
            return;
          }
        }
      }
    }
  }
}
