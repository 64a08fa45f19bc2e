/** The debug client's main loop: read a line into a 256-character buffer,
    skip its leading white space, cut its comment in place, and act on what
    is left, printing what the client prints.  The OpenVR runtime the client
    talks to is a parameter: the result of VR_Init, the two device indices it
    reports, and the reply the driver gives to each debug request. */
module DebugClient {
  import opened OpenVr
  import opened CommandLine

  /** What printf writes before the loop starts, "ok" included */
  const Banner: string :=
    "Soft Knuckles Debug Client Terminal\n" +
    "-----------------------------------\n" +
    "  Example commands:\n" +
    "   l /input/system/click 0     # toggle system button on left controller\n" +
    "   l /input/system/click 1\n\n" +
    "   r pos 0 0 0                 # move right controller to 0,0,0\n" +
    "   r /input/joystick/x -1      # set right joystick position to -1\n" +
    "   r /input/trigger/value 0.25 # set right trigger position to .25\n" +
    "   sleep 50                    # sleep for 50ms\n" +
    "   quit\n" +
    "\n" +
    "ok\n"

  const UnrecognizedTargetMessage: string := "unrecognized target (choose l or r)\n"

  /** The driver's answer to DriverDebugRequest: the text it writes into the
      response buffer, or None when it writes nothing. */
  type Responder = (TrackedDeviceIndex, seq<char>) -> Option<seq<char>>

  /** The text send_request prints: the reply cut to what fits in a buffer of
      the given size with its terminator, up to its first NUL; nothing when
      the driver wrote nothing. */
  function ResponseText(reply: Option<seq<char>>, size: nat): (r: seq<char>)
    requires size > 0
    ensures |r| < size && NUL !in r
    ensures reply.None? ==> r == []
    ensures reply.Some? && |reply.value| < size && NUL !in reply.value ==> r == reply.value
  {
    if reply.None? then []
    else
      var n := if |reply.value| < size then |reply.value| else size - 1;
      CString(reply.value[..n])
  }

  /** What the client prints for one action */
  function Said(a: Action, respond: Responder): string
  {
    match a
    case Ignore => ""
    case Sleep(_) => "ok\n"
    case Quit => "bye\n"
    case Send(target, request) => ResponseText(respond(target, request), LineBufferSize) + "\n"
    case UnrecognizedTarget => UnrecognizedTargetMessage
  }

  /** What the client prints for a run of actions, in order */
  function Transcript(actions: seq<Action>, respond: Responder): (r: string)
    ensures actions == [] ==> r == []
    decreases |actions|
  {
    if actions == [] then []
    else Transcript(actions[..|actions| - 1], respond) + Said(actions[|actions| - 1], respond)
  }

  /** The driver's side of DriverDebugRequest: on an answer, it writes as much
      of the reply as fits, then a NUL; otherwise it leaves the buffer alone. */
  method HostDebugRequest(target: TrackedDeviceIndex, request: seq<char>, response: array<char>, respond: Responder)
    requires response.Length > 0
    modifies response
    ensures respond(target, request).None? ==> response[..] == old(response[..])
    ensures respond(target, request).Some? ==>
              var reply := respond(target, request).value;
              var n := if |reply| < response.Length then |reply| else response.Length - 1;
              response[..] == reply[..n] + [NUL] + old(response[..])[n + 1..]
  {
    var answer := respond(target, request);
    if answer.Some? {
      var reply := answer.value;
      var n := if |reply| < response.Length then |reply| else response.Length - 1;
      forall k | 0 <= k < n {
        response[k] := reply[k];
      }
      response[n] := NUL;
      assert response[..] == reply[..n] + [NUL] + old(response[..])[n + 1..];
    }
  }

  /** send_request: empty the response, ask the driver, print the answer */
  method SendRequest(target: TrackedDeviceIndex, request: seq<char>, response: array<char>, respond: Responder)
    returns (printed: string)
    requires response.Length > 0
    modifies response
    ensures printed == ResponseText(respond(target, request), response.Length) + "\n"
  {
    response[0] := NUL;
    HostDebugRequest(target, request, response, respond);
    var answer := respond(target, request);
    if answer.Some? {
      var reply := answer.value;
      var n := if |reply| < response.Length then |reply| else response.Length - 1;
      CStringOfTerminated(reply[..n], response[n + 1..]);
    } else {
      CStringEndsAtFirstNul(response[..], 0);
    }
    printed := CString(response[..]) + "\n";
  }

  /** while (*cmd && isspace(*cmd)) cmd++: the text from cmd on is the C
      string with its leading white space skipped. */
  method SkipSpace(szbuf: array<char>) returns (cmd: nat)
    requires NUL in szbuf[..]
    ensures cmd <= |CString(szbuf[..])|
    ensures forall j :: 0 <= j < cmd ==> IsSpace(szbuf[j])
    ensures TrimLeft(CString(szbuf[..])) == CString(szbuf[..])[cmd..]
  {
    ghost var text := CString(szbuf[..]);
    cmd := 0;
    while szbuf[cmd] != NUL && IsSpace(szbuf[cmd])
      invariant 0 <= cmd <= |text|
      invariant forall j :: 0 <= j < cmd ==> IsSpace(szbuf[j])
      invariant TrimLeft(text) == TrimLeft(text[cmd..])
      decreases |text| - cmd
    {
      assert text[cmd..][1..] == text[cmd + 1..];
      cmd := cmd + 1;
    }
  }

  /** The terminator loop: from cmd on, the first '#' before the end of the C
      string becomes a NUL; when there is none, nothing changes. */
  method CutFrom(szbuf: array<char>, cmd: nat) returns (terminator: nat)
    requires NUL in szbuf[..] && cmd <= |CString(szbuf[..])|
    modifies szbuf
    ensures cmd <= terminator <= |CString(old(szbuf[..]))|
    ensures forall j :: cmd <= j < terminator ==> old(szbuf[j]) != '#'
    ensures terminator < |CString(old(szbuf[..]))| ==>
              old(szbuf[terminator]) == '#' && szbuf[..] == old(szbuf[..])[terminator := NUL]
    ensures terminator == |CString(old(szbuf[..]))| ==> szbuf[..] == old(szbuf[..])
  {
    ghost var s := szbuf[..];
    ghost var z := |CString(s)|;
    terminator := cmd;
    while szbuf[terminator] != NUL
      invariant cmd <= terminator <= z
      invariant szbuf[..] == s
      invariant forall j :: cmd <= j < terminator ==> s[j] != '#'
      decreases z - terminator
    {
      if szbuf[terminator] == '#' {
        szbuf[terminator] := NUL;
        return;
      }
      terminator := terminator + 1;
    }
  }

  /** The loop body on the buffer fgets filled: cmd skips white space, the
      first '#' from cmd on becomes a NUL, and the text from cmd decides what
      to do.  The buffer afterwards is the comment-cut buffer, and the action
      is the one the line calls for. */
  method ProcessLine(szbuf: array<char>, left: TrackedDeviceIndex, right: TrackedDeviceIndex)
    returns (action: Action)
    requires NUL in szbuf[..]
    modifies szbuf
    ensures szbuf[..] == CutComment(old(szbuf[..]))
    ensures action == LineAction(old(szbuf[..]), left, right)
  {
    ghost var s := szbuf[..];
    ghost var text := CString(s);
    var cmd := SkipSpace(szbuf);
    var terminator := CutFrom(szbuf, cmd);
    var command := CString(szbuf[cmd..]);
    CommandIsStrippedText(s, szbuf[..], cmd, terminator);
    action := Classify(command, left, right);
  }

  /** What the two loops leave: the buffer is the comment-cut buffer, and the
      C string from cmd is the trimmed text up to its comment. */
  lemma CommandIsStrippedText(s: seq<char>, cut: seq<char>, cmd: nat, terminator: nat)
    requires NUL in s
    requires cmd <= terminator <= |CString(s)|
    requires forall j :: 0 <= j < cmd ==> IsSpace(s[j])
    requires TrimLeft(CString(s)) == CString(s)[cmd..]
    requires forall j :: cmd <= j < terminator ==> s[j] != '#'
    requires terminator < |CString(s)| ==> s[terminator] == '#' && cut == s[terminator := NUL]
    requires terminator == |CString(s)| ==> cut == s
    ensures cut == CutComment(s)
    ensures CString(cut[cmd..]) == StripComment(TrimLeft(CString(s)))
  {
    var text := CString(s);
    assert forall j :: 0 <= j < |text| ==> s[j] == text[j] && s[j] != NUL;
    assert forall j :: 0 <= j < terminator ==> s[j] != '#' && s[j] != NUL;
    if terminator < |text| {
      CutCommentAtFirstHash(s, terminator);
    } else {
      CutCommentAtFirstNul(s, terminator);
    }
    assert forall j :: cmd <= j < terminator ==> cut[j] == text[j];
    CommandEndsAtTerminator(text, cut, cmd, terminator);
  }

  /** The C string from cmd in the cut buffer runs to the terminator, which is
      where the text's comment starts. */
  lemma CommandEndsAtTerminator(text: seq<char>, cut: seq<char>, cmd: nat, terminator: nat)
    requires cmd <= terminator <= |text| && terminator < |cut| && cut[terminator] == NUL
    requires NUL !in text
    requires forall j :: cmd <= j < terminator ==> cut[j] == text[j] && text[j] != '#'
    requires terminator < |text| ==> text[terminator] == '#'
    ensures CString(cut[cmd..]) == StripComment(text[cmd..])
  {
    assert cut[cmd..terminator] == text[cmd..terminator];
    CStringEndsAtFirstNul(cut[cmd..], terminator - cmd);
    assert cut[cmd..][..terminator - cmd] == cut[cmd..terminator];
    StripCommentEndsAtFirstHash(text[cmd..], terminator - cmd);
    assert text[cmd..][..terminator - cmd] == text[cmd..terminator];
  }

  /** The loop as it evidently should run: the loop ends at quit or when
      fgets reports the end of input.  Nothing is printed and nothing read
      unless VR_Init succeeded, and the loop runs only when both hands were
      found. */
  method RunClient(vrInit: InitError, left: TrackedDeviceIndex, right: TrackedDeviceIndex,
                   stdin: seq<char>, respond: Responder)
    returns (actions: seq<Action>, output: string)
    ensures actions ==
              if vrInit == InitErrorNone && left != InvalidTrackedDeviceIndex && right != InvalidTrackedDeviceIndex
              then ClientActions(Lines(stdin), left, right)
              else []
    ensures output == if vrInit == InitErrorNone then Banner + Transcript(actions, respond) else []
  {
    actions, output := [], [];
    if vrInit != InitErrorNone {
      return;
    }
    var printed := [];
    if left != InvalidTrackedDeviceIndex && right != InvalidTrackedDeviceIndex {
      actions, printed := CommandLoop(left, right, stdin, respond);
    }
    output := Banner + printed;
  }

  /** while (!quit): one line per pass, until quit or the end of input */
  method CommandLoop(left: TrackedDeviceIndex, right: TrackedDeviceIndex, stdin: seq<char>, respond: Responder)
    returns (actions: seq<Action>, printed: string)
    ensures actions == ClientActions(Lines(stdin), left, right)
    ensures printed == Transcript(actions, respond)
  {
    actions, printed := [], [];
    ghost var whole := ClientActions(Lines(stdin), left, right);
    assert stdin[0..] == stdin;
    var quit := false;
    var pos := 0;
    while !quit
      invariant 0 <= pos <= |stdin|
      invariant !quit ==> actions + ClientActions(Lines(stdin[pos..]), left, right) == whole
      invariant quit ==> actions == whole
      invariant printed == Transcript(actions, respond)
      decreases |stdin| - pos, !quit
    {
      var at := pos;
      var got, action, said;
      got, pos, action, said := ReadAndAct(stdin, at, left, right, respond);
      if !got {
        break;
      }
      LoopStep(stdin, at, pos, actions, action, whole, left, right);
      TranscriptAppend(actions, action, respond);
      printed := printed + said;
      actions := actions + [action];
      quit := action == Quit;
    }
    if !quit {
      assert stdin[pos..] == [];
    }
  }

  /** One pass of the loop: fgets into the line buffer, then, unless the
      input is exhausted, process the line and act on it. */
  method ReadAndAct(stdin: seq<char>, pos: nat, left: TrackedDeviceIndex, right: TrackedDeviceIndex, respond: Responder)
    returns (got: bool, newPos: nat, action: Action, said: string)
    requires pos <= |stdin|
    ensures got <==> pos < |stdin|
    ensures !got ==> newPos == pos
    ensures got ==>
              var line := NextLine(stdin[pos..]);
              newPos == pos + |line| && action == LineAction(line, left, right) && said == Said(action, respond)
  {
    var szbuf := new char[LineBufferSize];
    ghost var before := szbuf[..];
    got, newPos := Fgets(szbuf, stdin, pos);
    if !got {
      return got, newPos, Ignore, "";
    }
    action, said := Pass(szbuf, left, right, respond, before, NextLine(stdin[pos..]));
  }

  /** The loop's bookkeeping for one line: the actions taken so far followed
      by those for the input not yet read make up the whole run, before and
      after reading one more line. */
  lemma LoopStep(stdin: seq<char>, at: nat, next: nat, actions: seq<Action>, action: Action, whole: seq<Action>,
                 left: TrackedDeviceIndex, right: TrackedDeviceIndex)
    requires at < |stdin| && next == at + |NextLine(stdin[at..])|
    requires action == LineAction(NextLine(stdin[at..]), left, right)
    requires actions + ClientActions(Lines(stdin[at..]), left, right) == whole
    ensures next <= |stdin|
    ensures action == Quit ==> actions + [action] == whole
    ensures action != Quit ==> actions + [action] + ClientActions(Lines(stdin[next..]), left, right) == whole
  {
    var rest := stdin[at..];
    assert rest[|NextLine(rest)|..] == stdin[next..];
    ClientActionsUnfold(rest, left, right);
    AppendAction(actions, action, ClientActions(Lines(rest[|NextLine(rest)|..]), left, right),
                 ClientActions(Lines(rest), left, right), whole);
  }

  /** One step of the loop's bookkeeping, on the action sequences alone */
  lemma AppendAction(actions: seq<Action>, action: Action, after: seq<Action>, rest: seq<Action>, whole: seq<Action>)
    requires actions + rest == whole
    requires rest == if action == Quit then [Quit] else [action] + after
    ensures action == Quit ==> actions + [action] == whole
    ensures action != Quit ==> actions + [action] + after == whole
  {
    assert actions + [action] + after == actions + ([action] + after);
  }

  /** The actions for the lines of an input are the action for its first line,
      then, unless that was quit, the actions for the lines after it. */
  lemma ClientActionsUnfold(input: seq<char>, left: TrackedDeviceIndex, right: TrackedDeviceIndex)
    requires input != []
    ensures var a := LineAction(NextLine(input), left, right);
            var after := ClientActions(Lines(input[|NextLine(input)|..]), left, right);
            ClientActions(Lines(input), left, right) == if a == Quit then [Quit] else [a] + after
  {
    var line := NextLine(input);
    var lines := Lines(input);
    var all := LineActions(lines, left, right);
    assert lines == [line] + Lines(input[|line|..]);
    assert all[1..] == LineActions(lines[1..], left, right);
  }

  /** fgets(szbuf, 256, stdin): false at the end of input, leaving the buffer
      alone; otherwise the next line and its terminator are stored. */
  method Fgets(szbuf: array<char>, stdin: seq<char>, pos: nat) returns (got: bool, newPos: nat)
    requires szbuf.Length == LineBufferSize && pos <= |stdin|
    modifies szbuf
    ensures got <==> pos < |stdin|
    ensures !got ==> newPos == pos && szbuf[..] == old(szbuf[..])
    ensures got ==>
              var line := NextLine(stdin[pos..]);
              newPos == pos + |line| && szbuf[..] == Fill(old(szbuf[..]), line)
  {
    if pos == |stdin| {
      return false, pos;
    }
    var line := NextLine(stdin[pos..]);
    forall k | 0 <= k < |line| {
      szbuf[k] := line[k];
    }
    szbuf[|line|] := NUL;
    assert szbuf[..] == Fill(old(szbuf[..]), line);
    return true, pos + |line|;
  }

  /** The body of one pass on the buffer fgets filled with a line: process
      it, then act on it. */
  method Pass(szbuf: array<char>, left: TrackedDeviceIndex, right: TrackedDeviceIndex, respond: Responder,
              ghost before: seq<char>, ghost line: seq<char>)
    returns (action: Action, said: string)
    requires |line| < |before| && szbuf[..] == Fill(before, line)
    modifies szbuf
    ensures action == LineAction(line, left, right)
    ensures said == Said(action, respond)
  {
    assert szbuf[|line|] == NUL;
    CStringOfTerminated(line, before[|line| + 1..]);
    action := ProcessLine(szbuf, left, right);
    said := Act(action, respond);
  }

  lemma TranscriptAppend(actions: seq<Action>, a: Action, respond: Responder)
    ensures Transcript(actions + [a], respond) == Transcript(actions, respond) + Said(a, respond)
  {
    assert (actions + [a])[..|actions|] == actions;
  }

  /** What the loop does for one action besides deciding whether to go on:
      print "ok" after sleeping, "bye", the driver's answer, or the
      unrecognized-target message. */
  method Act(action: Action, respond: Responder) returns (said: string)
    ensures said == Said(action, respond)
  {
    match action {
      case Ignore =>
        said := "";
      case Sleep(_) =>
        said := "ok\n";
      case Quit =>
        said := "bye\n";
      case Send(target, request) =>
        var response := new char[LineBufferSize];
        said := SendRequest(target, request, response, respond);
      case UnrecognizedTarget =>
        said := UnrecognizedTargetMessage;
    }
  }
}
